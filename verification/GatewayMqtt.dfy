/**
 The cloud-gateway MQTT task: log in, connect, back off, and log in again only after the
 broker refused the connection (a non-zero CONNACK return code, section 3.2.2.3 of
 MQTT 3.1.1). `R` is the login response. The log records what the task did.
 */
module GatewayMqtt {
  import opened Common
  import opened Backoff

  datatype Pc<R> = LoggingIn | Building(creds: R) | Polling(creds: R) | BackingOff | Stopped

  /** `Round` is a pass through the top of the reconnect loop, `Wait(d)` a backoff of d seconds. */
  datatype Entry<R> =
    | Round
    | LoginAttempt
    | LoggedIn(response: R)
    | Connect(creds: R)
    | Ack
    | Refusal
    | Wait(delay: nat)

  datatype Poll = ConnAck | Publish | OtherEvent | Refused | Broken

  datatype Event<R> =
    | LoginOk(response: R)
    | LoginFailed(unauthorized: bool)
    | OptionsResult(ok: bool)
    | Polled(poll: Poll)
    | Outbound
    | BackoffElapsed
    | Shutdown

  datatype State<R> = State(pc: Pc<R>, delay: nat, cached: Option<R>, log: seq<Entry<R>>)

  /** The top of the loop: cached credentials are reused without any await. */
  function Enter<R>(s: State<R>): State<R> {
    if s.cached.Some? then s.(pc := Building(s.cached.value), log := s.log + [Round])
    else s.(pc := LoggingIn, log := s.log + [Round, LoginAttempt])
  }

  function BackOff<R>(s: State<R>): State<R> {
    s.(pc := BackingOff, log := s.log + [Wait(s.delay)])
  }

  function Init<R>(): State<R> {
    Enter(State(Stopped, INITIAL_DELAY, None, []))
  }

  predicate EnabledAt<R>(pc: Pc<R>, e: Event<R>) {
    match e
    case LoginOk(_) => pc.LoggingIn?
    case LoginFailed(_) => pc.LoggingIn?
    case OptionsResult(_) => pc.Building?
    case Polled(_) => pc.Polling?
    case Outbound => pc.Polling?
    case BackoffElapsed => pc.BackingOff?
    case Shutdown => pc.LoggingIn? || pc.Polling? || pc.BackingOff?
  }

  function OnPoll<R>(s: State<R>, poll: Poll): State<R> {
    match poll
    case ConnAck => s.(delay := INITIAL_DELAY, log := s.log + [Ack])
    case Refused => BackOff(s.(cached := None, log := s.log + [Refusal]))
    case Broken => BackOff(s)
    case _ => s
  }

  function Step<R>(s: State<R>, e: Event<R>): State<R> {
    if !EnabledAt(s.pc, e) then s else
    match e
    case LoginOk(r) => s.(pc := Building(r), cached := Some(r), log := s.log + [LoggedIn(r)])
    case LoginFailed(_) => BackOff(s)
    case OptionsResult(ok) =>
      if ok then s.(pc := Polling(s.pc.creds), log := s.log + [Connect(s.pc.creds)]) else BackOff(s)
    case Polled(poll) => OnPoll(s, poll)
    case Outbound => s
    case BackoffElapsed => Enter(s.(delay := Grow(s.delay)))
    case Shutdown => if s.pc.BackingOff? then s.(pc := Stopped, delay := Grow(s.delay)) else s.(pc := Stopped)
  }

  function RunFrom<R>(s: State<R>, events: seq<Event<R>>): State<R>
    decreases events
  {
    if events == [] then s else RunFrom(Step(s, events[0]), events[1..])
  }

  function Run<R>(events: seq<Event<R>>): State<R> {
    RunFrom(Init(), events)
  }

  // ── Reading the log ──────────────────────────────────────────────────────────────────

  function Rounds<R>(log: seq<Entry<R>>): nat {
    if log == [] then 0 else Rounds(Front(log)) + (if Last(log).Round? then 1 else 0)
  }

  function Waits<R>(log: seq<Entry<R>>): nat {
    if log == [] then 0 else Waits(Front(log)) + (if Last(log).Wait? then 1 else 0)
  }

  function WaitsSinceAck<R>(log: seq<Entry<R>>): nat {
    if log == [] || Last(log).Ack? then 0
    else WaitsSinceAck(Front(log)) + (if Last(log).Wait? then 1 else 0)
  }

  function WaitedSinceAck<R>(log: seq<Entry<R>>): nat {
    if log == [] || Last(log).Ack? then 0
    else WaitedSinceAck(Front(log)) + (if Last(log).Wait? then Last(log).delay else 0)
  }

  function LastLogin<R>(log: seq<Entry<R>>): Option<R> {
    if log == [] then None
    else if Last(log).LoggedIn? then Some(Last(log).response)
    else LastLogin(Front(log))
  }

  /** Every successful login so far has been followed by a refusal. */
  predicate MayLogIn<R>(log: seq<Entry<R>>) {
    forall i :: 0 <= i < |log| && log[i].LoggedIn? ==> RefusedAfter(log, i)
  }

  predicate RefusedAfter<R>(log: seq<Entry<R>>, i: int) {
    exists m :: i < m < |log| && 0 <= m && log[m].Refusal?
  }

  /** What must have happened before for the task to be entitled to this entry. */
  predicate Entitled<R(==)>(before: seq<Entry<R>>, e: Entry<R>) {
    match e
    case Round => Rounds(before) == Waits(before)
    case LoginAttempt => MayLogIn(before)
    case Connect(creds) => LastLogin(before) == Some(creds) && !MayLogIn(before)
    case Wait(delay) => Rounds(before) == Waits(before) + 1 && delay == DelayAfter(WaitsSinceAck(before))
    case _ => true
  }

  predicate LogOk<R(==)>(log: seq<Entry<R>>) {
    forall j :: 0 <= j < |log| ==> Entitled(log[..j], log[j])
  }

  predicate Good<R(==)>(s: State<R>) {
    && LogOk(s.log)
    && (s.cached.Some? ==> LastLogin(s.log) == s.cached && !MayLogIn(s.log))
    && (s.cached.None? ==> MayLogIn(s.log))
    && (s.pc.Building? || s.pc.Polling? ==> s.cached == Some(s.pc.creds))
    && (s.pc.LoggingIn? || s.pc.Building? || s.pc.Polling? ==>
          Rounds(s.log) == Waits(s.log) + 1 && s.delay == DelayAfter(WaitsSinceAck(s.log)))
    && (s.pc.BackingOff? ==>
          && Rounds(s.log) == Waits(s.log)
          && WaitsSinceAck(s.log) > 0 && s.delay == DelayAfter(WaitsSinceAck(s.log) - 1))
  }

  lemma Append<R>(log: seq<Entry<R>>, e: Entry<R>)
    requires LogOk(log) && Entitled(log, e)
    ensures LogOk(log + [e])
    ensures Front(log + [e]) == log && Last(log + [e]) == e
  {
    var all := log + [e];
    assert Front(all) == log;
    forall j | 0 <= j < |all| ensures Entitled(all[..j], all[j]) {
      if j < |log| {
        assert all[..j] == log[..j];
      } else {
        assert all[..j] == log;
      }
    }
  }

  lemma MayLogInAppend<R>(log: seq<Entry<R>>, e: Entry<R>)
    ensures MayLogIn(log + [e]) <==> e.Refusal? || (MayLogIn(log) && !e.LoggedIn?)
  {
    var all := log + [e];
    if MayLogIn(all) && !e.Refusal? {
      forall i | 0 <= i < |log| && log[i].LoggedIn? ensures RefusedAfter(log, i) {
        assert all[i].LoggedIn? && RefusedAfter(all, i);
        var m :| i < m < |all| && 0 <= m && all[m].Refusal?;
        assert log[m].Refusal?;
      }
      assert e.LoggedIn? ==> !RefusedAfter(all, |log|);
    }
    forall i | 0 <= i < |all| && all[i].LoggedIn? && !e.LoggedIn? && (e.Refusal? || MayLogIn(log))
      ensures RefusedAfter(all, i)
    {
      if e.Refusal? {
        assert all[|log|].Refusal?;
      } else {
        assert log[i].LoggedIn? && RefusedAfter(log, i);
        var m :| i < m < |log| && 0 <= m && log[m].Refusal?;
        assert all[m].Refusal?;
      }
    }
  }

  lemma EnterGood<R>(s: State<R>)
    requires LogOk(s.log) && Rounds(s.log) == Waits(s.log)
    requires s.cached.Some? ==> LastLogin(s.log) == s.cached && !MayLogIn(s.log)
    requires s.cached.None? ==> MayLogIn(s.log)
    requires s.delay == DelayAfter(WaitsSinceAck(s.log))
    ensures Good(Enter(s))
  {
    Append(s.log, Round);
    MayLogInAppend(s.log, Round);
    if s.cached.None? {
      Append(s.log + [Round], LoginAttempt);
      MayLogInAppend(s.log + [Round], LoginAttempt);
      assert s.log + [Round] + [LoginAttempt] == s.log + [Round, LoginAttempt];
    }
  }

  lemma BackOffGood<R>(s: State<R>)
    requires LogOk(s.log) && Rounds(s.log) == Waits(s.log) + 1 && s.delay == DelayAfter(WaitsSinceAck(s.log))
    requires s.cached.Some? ==> LastLogin(s.log) == s.cached && !MayLogIn(s.log)
    requires s.cached.None? ==> MayLogIn(s.log)
    ensures Good(BackOff(s))
  {
    Append(s.log, Wait(s.delay));
    MayLogInAppend(s.log, Wait(s.delay));
  }

  lemma RefusedGood<R>(s: State<R>)
    requires Good(s) && s.pc.Polling?
    ensures Good(OnPoll(s, Refused))
  {
    Append(s.log, Refusal);
    MayLogInAppend(s.log, Refusal);
    BackOffGood(s.(cached := None, log := s.log + [Refusal]));
  }

  lemma PollGood<R>(s: State<R>, poll: Poll)
    requires Good(s) && s.pc.Polling?
    ensures Good(OnPoll(s, poll))
  {
    match poll
    case ConnAck =>
      Append(s.log, Ack);
      MayLogInAppend(s.log, Ack);
      GrowStep(0);
    case Refused => RefusedGood(s);
    case Broken => BackOffGood(s);
    case _ =>
  }

  lemma LoginGood<R>(s: State<R>, r: R)
    requires Good(s) && s.pc.LoggingIn?
    ensures Good(Step(s, LoginOk(r)))
  {
    Append(s.log, LoggedIn(r));
    MayLogInAppend(s.log, LoggedIn(r));
  }

  lemma OptionsGood<R>(s: State<R>, ok: bool)
    requires Good(s) && s.pc.Building?
    ensures Good(Step(s, OptionsResult(ok)))
  {
    if ok {
      Append(s.log, Connect(s.pc.creds));
      MayLogInAppend(s.log, Connect(s.pc.creds));
    } else {
      BackOffGood(s);
    }
  }

  lemma ElapsedGood<R>(s: State<R>)
    requires Good(s) && s.pc.BackingOff?
    ensures Good(Step(s, BackoffElapsed))
  {
    GrowStep(WaitsSinceAck(s.log) - 1);
    EnterGood(s.(delay := Grow(s.delay)));
  }

  lemma StepGood<R>(s: State<R>, e: Event<R>)
    requires Good(s)
    ensures Good(Step(s, e))
  {
    if EnabledAt(s.pc, e) {
      match e
      case LoginOk(r) => LoginGood(s, r);
      case LoginFailed(_) => BackOffGood(s);
      case OptionsResult(ok) => OptionsGood(s, ok);
      case Polled(poll) => PollGood(s, poll);
      case BackoffElapsed => ElapsedGood(s);
      case _ =>
    }
  }

  lemma {:induction false} RunGood<R>(s: State<R>, events: seq<Event<R>>)
    requires Good(s)
    ensures Good(RunFrom(s, events))
    decreases events
  {
    if events != [] {
      StepGood(s, events[0]);
      RunGood(Step(s, events[0]), events[1..]);
    }
  }

  lemma ReachableIsGood<R>(events: seq<Event<R>>)
    ensures Good(Run(events))
  {
    GrowStep(0);
    var start: State<R> := State(Stopped, INITIAL_DELAY, None, []);
    EnterGood(start);
    RunGood(Init(), events);
  }

  /** A login after a successful one happens only if the broker refused a connection in between. */
  lemma LoginsOnlyAfterRefusal<R>(events: seq<Event<R>>, i: nat, j: nat)
    requires i < j < |Run(events).log| && Run(events).log[i].LoggedIn? && Run(events).log[j].LoginAttempt?
    ensures exists m :: i < m < j && Run(events).log[m].Refusal?
  {
    ReachableIsGood(events);
    var log := Run(events).log;
    assert Entitled(log[..j], log[j]);
    assert log[..j][i].LoggedIn? && RefusedAfter(log[..j], i);
    var m :| i < m < |log[..j]| && 0 <= m && log[..j][m].Refusal?;
    assert log[m].Refusal?;
  }

  /** And a refusal does force a login: no later connection is made before one succeeds. */
  lemma RefusalForcesLogin<R>(events: seq<Event<R>>, i: nat, j: nat)
    requires i < j < |Run(events).log| && Run(events).log[i].Refusal? && Run(events).log[j].Connect?
    ensures exists m :: i < m < j && Run(events).log[m].LoggedIn?
  {
    ReachableIsGood(events);
    var log := Run(events).log;
    assert Entitled(log[..j], log[j]) && log[..j][i].Refusal?;
    var m :| 0 <= m < j && log[..j][m].LoggedIn? && !RefusedAfter(log[..j], m);
    assert log[m].LoggedIn?;
  }

  /** Every connection is made with the latest login response. */
  lemma ConnectionsUseLatestLogin<R>(events: seq<Event<R>>, j: nat)
    requires j < |Run(events).log| && Run(events).log[j].Connect?
    ensures LastLogin(Run(events).log[..j]) == Some(Run(events).log[j].creds)
  {
    ReachableIsGood(events);
  }

  /**
   Rounds and backoffs alternate: when a round begins all earlier ones have had their backoff,
   and a backoff begins with exactly one round outstanding.
   */
  lemma OneBackoffPerRetry<R>(events: seq<Event<R>>, j: nat)
    requires j < |Run(events).log|
    ensures var log := Run(events).log;
            && (log[j].Round? ==> Rounds(log[..j]) == Waits(log[..j]))
            && (log[j].Wait? ==> Rounds(log[..j]) == Waits(log[..j]) + 1)
  {
    ReachableIsGood(events);
    assert Entitled(Run(events).log[..j], Run(events).log[j]);
  }

  /** The wait after k earlier ones since the last CONNACK is min(2^(k+1), 60) seconds. */
  lemma BackoffDelays<R>(events: seq<Event<R>>, j: nat)
    requires j < |Run(events).log| && Run(events).log[j].Wait?
    ensures Run(events).log[j].delay == DelayAfter(WaitsSinceAck(Run(events).log[..j]))
  {
    ReachableIsGood(events);
  }

  lemma {:induction false} WaitedSums<R>(log: seq<Entry<R>>)
    requires LogOk(log)
    ensures WaitedSinceAck(log) == TotalWait(WaitsSinceAck(log))
  {
    if log != [] {
      var front := Front(log);
      assert forall j :: 0 <= j < |front| ==> front[j] == log[j] && front[..j] == log[..j];
      assert log[..|front|] == front && Entitled(log[..|front|], log[|front|]);
      WaitedSums(front);
    }
  }

  /** The whole time spent in backoff since the last CONNACK, in closed form. */
  lemma TotalBackoff<R>(events: seq<Event<R>>)
    ensures var k := WaitsSinceAck(Run(events).log);
            WaitedSinceAck(Run(events).log) == if k <= 5 then Pow2(k + 1) - 2 else 62 + 60 * (k - 5)
  {
    ReachableIsGood(events);
    WaitedSums(Run(events).log);
    TotalWaitClosedForm(WaitsSinceAck(Run(events).log));
  }
}
