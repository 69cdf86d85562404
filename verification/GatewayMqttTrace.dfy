/**
 What the events alone say about the MQTT gateway task at any point of a run: where it is,
 which login it holds, how long it will wait, and what it has done.
 */
module GatewayMqttTrace {
  import opened Common
  import opened Backoff
  import opened GatewayMqtt

  /** The task's state when event `n` arrives. */
  function Before<R>(events: seq<Event<R>>, n: nat): State<R>
    requires n <= |events|
  {
    Run(events[..n])
  }

  lemma {:induction false} RunFromAppend<R>(s: State<R>, events: seq<Event<R>>, e: Event<R>)
    ensures RunFrom(s, events + [e]) == Step(RunFrom(s, events), e)
    decreases events
  {
    if events == [] {
      assert [e][1..] == [];
    } else {
      RunFromAppend(Step(s, events[0]), events[1..], e);
      assert (events + [e])[1..] == events[1..] + [e];
    }
  }

  lemma BeforeNext<R>(events: seq<Event<R>>, n: nat)
    requires n < |events|
    ensures Before(events, n + 1) == Step(Before(events, n), events[n])
  {
    RunFromAppend(Init<R>(), events[..n], events[n]);
    assert events[..n + 1] == events[..n] + [events[n]];
  }

  // ── Events that count, by where the task is when they arrive ─────────────────────────

  predicate LoggedInAt<R>(events: seq<Event<R>>, i: nat) {
    i < |events| && events[i].LoginOk? && Before(events, i).pc.LoggingIn?
  }

  /** The broker refuses the connection with a CONNACK return code. */
  predicate RefusedAt<R>(events: seq<Event<R>>, i: nat) {
    i < |events| && events[i].Polled? && events[i].poll.Refused? && Before(events, i).pc.Polling?
  }

  predicate AckedAt<R>(events: seq<Event<R>>, i: nat) {
    i < |events| && events[i].Polled? && events[i].poll.ConnAck? && Before(events, i).pc.Polling?
  }

  /** A backoff ends, because its time is up or because of a shutdown. */
  predicate WaitedAt<R>(events: seq<Event<R>>, i: nat) {
    i < |events| && (events[i].BackoffElapsed? || events[i].Shutdown?) && Before(events, i).pc.BackingOff?
  }

  /** The response of the latest login, unless a refusal came after it. */
  function Credentials<R>(events: seq<Event<R>>, n: nat): Option<R> {
    if n == 0 then None
    else if LoggedInAt(events, n - 1) then Some(events[n - 1].response)
    else if RefusedAt(events, n - 1) then None
    else Credentials(events, n - 1)
  }

  /** The number of backoffs since the latest CONNACK. */
  function WaitsSince<R>(events: seq<Event<R>>, n: nat): nat {
    if n == 0 || AckedAt(events, n - 1) then 0
    else WaitsSince(events, n - 1) + (if WaitedAt(events, n - 1) then 1 else 0)
  }

  lemma {:induction false} CachedIsCredentials<R>(events: seq<Event<R>>, n: nat)
    requires n <= |events|
    ensures Before(events, n).cached == Credentials(events, n)
  {
    if n > 0 {
      CachedIsCredentials(events, n - 1);
      BeforeNext(events, n - 1);
    } else {
      assert events[..0] == [];
    }
  }

  lemma {:induction false} DelayIsBackoff<R>(events: seq<Event<R>>, n: nat)
    requires n <= |events|
    ensures Before(events, n).delay == DelayAfter(WaitsSince(events, n))
  {
    GrowStep(0);
    if n > 0 {
      DelayIsBackoff(events, n - 1);
      BeforeNext(events, n - 1);
      GrowStep(WaitsSince(events, n - 1));
    } else {
      assert events[..0] == [];
    }
  }

  /** Where event `e` takes the task from `pc`, given the credentials it holds then. */
  predicate Leads<R(==)>(pc: Pc<R>, e: Event<R>, credentials: Option<R>, next: Pc<R>) {
    match pc
    case LoggingIn =>
      next == (match e case LoginOk(r) => Building(r) case LoginFailed(_) => BackingOff case Shutdown => Stopped case _ => pc)
    case Building(c) =>
      next == (match e case OptionsResult(ok) => (if ok then Polling(c) else BackingOff) case _ => pc)
    case Polling(c) =>
      next == (match e
               case Polled(poll) => (if poll.Refused? || poll.Broken? then BackingOff else pc)
               case Shutdown => Stopped
               case _ => pc)
    case BackingOff =>
      next == (match e
               case BackoffElapsed => (if credentials.Some? then Building(credentials.value) else LoggingIn)
               case Shutdown => Stopped
               case _ => pc)
    case Stopped => next == pc
  }

  /**
   The whole control of the task follows from its events: it begins by logging in; at every
   point it holds the latest login response that no refusal followed, and waits next for
   min(2^(k+1), 60) seconds, k being the backoffs since the latest CONNACK; each event leads
   where the program goes, a backoff back to a connection with the held response, or to a login
   if there is none.
   */
  lemma EventsDecide<R>(events: seq<Event<R>>, n: nat)
    requires n <= |events|
    ensures Before(events, 0).pc.LoggingIn?
    ensures Before(events, n).cached == Credentials(events, n)
    ensures Before(events, n).delay == DelayAfter(WaitsSince(events, n))
    ensures n < |events| ==> Leads(Before(events, n).pc, events[n], Credentials(events, n), Before(events, n + 1).pc)
  {
    assert events[..0] == [];
    CachedIsCredentials(events, n);
    DelayIsBackoff(events, n);
    if n < |events| {
      BeforeNext(events, n);
    }
  }

  lemma {:induction false} CredentialsAfterRefusal<R>(events: seq<Event<R>>, i: nat, n: nat)
    requires RefusedAt(events, i) && i < n <= |events| && Credentials(events, n).Some?
    ensures exists m: nat :: i < m < n && LoggedInAt(events, m)
  {
    if !LoggedInAt(events, n - 1) && n - 1 > i {
      CredentialsAfterRefusal(events, i, n - 1);
    }
  }

  /** A refusal forces a login: no connection is prepared or open again before one succeeds. */
  lemma RefusalForcesNewLogin<R>(events: seq<Event<R>>, i: nat, j: nat)
    requires RefusedAt(events, i) && i < j <= |events|
    requires Before(events, j).pc.Building? || Before(events, j).pc.Polling?
    ensures exists m: nat :: i < m < j && LoggedInAt(events, m)
  {
    ReachableIsGood(events[..j]);
    CachedIsCredentials(events, j);
    CredentialsAfterRefusal(events, i, j);
  }

  lemma {:induction false} NoCredentialsAfterLogin<R>(events: seq<Event<R>>, i: nat, n: nat)
    requires LoggedInAt(events, i) && i < n <= |events| && Credentials(events, n).None?
    ensures exists m: nat :: i < m < n && RefusedAt(events, m)
  {
    if !RefusedAt(events, n - 1) {
      NoCredentialsAfterLogin(events, i, n - 1);
    }
  }

  lemma {:induction false} LoggingInHoldsNothing<R>(events: seq<Event<R>>, n: nat)
    requires n <= |events| && Before(events, n).pc.LoggingIn?
    ensures Credentials(events, n).None?
  {
    EventsDecide(events, n);
    if n > 0 {
      EventsDecide(events, n - 1);
      if Before(events, n - 1).pc.LoggingIn? {
        LoggingInHoldsNothing(events, n - 1);
      }
    }
  }

  /** Once logged in, the task logs in again only if the broker refused a connection since. */
  lemma LoginOnlyAfterRefusal<R>(events: seq<Event<R>>, i: nat, j: nat)
    requires LoggedInAt(events, i) && i < j <= |events| && Before(events, j).pc.LoggingIn?
    ensures exists m: nat :: i < m < j && RefusedAt(events, m)
  {
    LoggingInHoldsNothing(events, j);
    NoCredentialsAfterLogin(events, i, j);
  }

  // ── The log ──────────────────────────────────────────────────────────────────────────

  /** What the task does when event `n` arrives. */
  function Done<R>(events: seq<Event<R>>, n: nat): seq<Entry<R>>
    requires n < |events|
  {
    var wait := Wait(DelayAfter(WaitsSince(events, n)));
    match Before(events, n).pc
    case LoggingIn =>
      (match events[n] case LoginOk(r) => [LoggedIn(r)] case LoginFailed(_) => [wait] case _ => [])
    case Building(c) =>
      (match events[n] case OptionsResult(ok) => (if ok then [Connect(c)] else [wait]) case _ => [])
    case Polling(_) =>
      (match events[n]
       case Polled(poll) =>
         (match poll case ConnAck => [Ack] case Refused => [Refusal, wait] case Broken => [wait] case _ => [])
       case _ => [])
    case BackingOff =>
      (if !events[n].BackoffElapsed? then []
       else if Credentials(events, n).Some? then [Round]
       else [Round, LoginAttempt])
    case Stopped => []
  }

  function AllDone<R>(events: seq<Event<R>>, n: nat): seq<Entry<R>>
    requires n <= |events|
  {
    if n == 0 then [Round, LoginAttempt] else AllDone(events, n - 1) + Done(events, n - 1)
  }

  lemma DoneNext<R>(events: seq<Event<R>>, n: nat)
    requires n < |events|
    ensures Before(events, n + 1).log == Before(events, n).log + Done(events, n)
  {
    EventsDecide(events, n);
    BeforeNext(events, n);
  }

  /** The log is what the events make the task do, so what it says is about the run. */
  lemma {:induction false} LogIsWhatWasDone<R>(events: seq<Event<R>>, n: nat)
    requires n <= |events|
    ensures Before(events, n).log == AllDone(events, n)
  {
    if n == 0 {
      LogBegins(events);
    } else {
      LogIsWhatWasDone(events, n - 1);
      DoneNext(events, n - 1);
    }
  }

  lemma LogBegins<R>(events: seq<Event<R>>)
    ensures Before(events, 0).log == [Round, LoginAttempt]
  {
    assert events[..0] == [];
    assert Run<R>([]) == Init();
  }
}
