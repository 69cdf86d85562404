/** When the WebSocket task reconnects without waiting, over every run. */
module CloudGatewayPacing {
  import opened CloudGateway
  import opened CloudGatewayTrace

  function Attempts<M>(events: seq<Event<M>>, n: nat): nat {
    if n == 0 then 0 else Attempts(events, n - 1) + (if AttemptAt(events, n - 1) then 1 else 0)
  }

  function Waits<M>(events: seq<Event<M>>, n: nat): nat {
    if n == 0 then 0 else Waits(events, n - 1) + (if WaitAt(events, n - 1) then 1 else 0)
  }

  function Refusals<M>(events: seq<Event<M>>, n: nat): nat {
    if n == 0 then 0 else Refusals(events, n - 1) + (if RefusalAt(events, n - 1) then 1 else 0)
  }

  /**
   At every point of every run, stopped ones included, the attempts to connect are the waits,
   plus the Register frames that could not be sent, plus the one under way or under way when
   the task was stopped.
   */
  lemma {:induction false} ReconnectPacing<M>(events: seq<Event<M>>, n: nat)
    requires n <= |events|
    ensures var extra := Attempts(events, n) - Waits(events, n) - Refusals(events, n);
            && 0 <= extra <= 1
            && (!Before(events, n).pc.Stopped? ==> extra == if Before(events, n).pc.Connecting? then 0 else 1)
  {
    if n == 0 {
      BeforeFirst(events);
    } else {
      ReconnectPacing(events, n - 1);
      ControlFollowsEvents(events, n - 1);
    }
  }

  /** Connections that come up and refuse the Register frame, `n` times in a row. */
  function Refusing<M>(n: nat): seq<Event<M>> {
    if n == 0 then [] else [ConnectOk, RegisterResult(false)] + Refusing(n - 1)
  }

  lemma {:induction false} RefusedFrom<M>(s: State<M>, n: nat)
    requires Wired(s) && s.pc.Connecting?
    ensures var t := RunFrom(s, Refusing(n)); t.pc.Connecting? && |t.wire| == |s.wire| + n
    decreases n
  {
    if n > 0 {
      var events := Refusing<M>(n);
      var s1 := Step(s, events[0]);
      var s2 := Step(s1, events[1]);
      assert events[1..][1..] == Refusing(n - 1);
      assert RunFrom(s, events) == RunFrom(s1, events[1..]) == RunFrom(s2, Refusing(n - 1));
      RefusedFrom(s2, n - 1);
    }
  }

  lemma {:induction false} RefusingNeverSleeps<M>(n: nat)
    ensures forall e :: e in Refusing<M>(n) ==> !e.Slept?
  {
    if n > 0 {
      RefusingNeverSleeps<M>(n - 1);
    }
  }

  /** There is no bound on reconnecting without delay: for every n, n connections and not one wait. */
  lemma RefusalsAreNotDelayed<M>(n: nat)
    ensures var events := Refusing<M>(n);
            |Run(events).wire| == n && forall i: nat :: !WaitAt(events, i)
  {
    RefusedFrom(Init<M>(), n);
    RefusingNeverSleeps<M>(n);
  }

  /** There was an attempt before event `n`, and no wait since. */
  ghost predicate UnwaitedBefore<M>(events: seq<Event<M>>, n: nat) {
    exists i: nat :: i < n && AttemptAt(events, i) && forall m: nat :: i < m < n ==> !WaitAt(events, m)
  }

  /** A Register frame could not be sent, and the task neither waited nor tried to connect since. */
  ghost predicate RefusedBefore<M>(events: seq<Event<M>>, n: nat) {
    exists r: nat :: r < n && RefusalAt(events, r) &&
      forall m: nat :: r < m < n ==> !WaitAt(events, m) && !AttemptAt(events, m)
  }

  lemma UnwaitedNext<M>(events: seq<Event<M>>, n: nat)
    ensures UnwaitedBefore(events, n + 1) <==> AttemptAt(events, n) || (UnwaitedBefore(events, n) && !WaitAt(events, n))
  {
    if UnwaitedBefore(events, n) && !WaitAt(events, n) {
      var i: nat :| i < n && AttemptAt(events, i) && forall m: nat :: i < m < n ==> !WaitAt(events, m);
      assert forall m: nat :: i < m < n + 1 ==> !WaitAt(events, m);
    }
    if UnwaitedBefore(events, n + 1) && !AttemptAt(events, n) {
      var i: nat :| i < n + 1 && AttemptAt(events, i) && forall m: nat :: i < m < n + 1 ==> !WaitAt(events, m);
      assert i < n && !WaitAt(events, n);
    }
  }

  lemma RefusedNext<M>(events: seq<Event<M>>, n: nat)
    ensures RefusedBefore(events, n + 1) <==>
            RefusalAt(events, n) || (RefusedBefore(events, n) && !WaitAt(events, n) && !AttemptAt(events, n))
  {
    if RefusedBefore(events, n) && !WaitAt(events, n) && !AttemptAt(events, n) {
      var r: nat :| r < n && RefusalAt(events, r) && forall m: nat :: r < m < n ==> !WaitAt(events, m) && !AttemptAt(events, m);
      assert forall m: nat :: r < m < n + 1 ==> !WaitAt(events, m) && !AttemptAt(events, m);
    }
    if RefusedBefore(events, n + 1) && !RefusalAt(events, n) {
      var r: nat :| r < n + 1 && RefusalAt(events, r) && forall m: nat :: r < m < n + 1 ==> !WaitAt(events, m) && !AttemptAt(events, m);
      assert r < n && !WaitAt(events, n) && !AttemptAt(events, n);
    }
  }

  /** About to connect, the two coincide; past that, an attempt was made and not yet waited for. */
  ghost predicate Traced<M>(events: seq<Event<M>>, n: nat)
    requires n <= |events|
  {
    var pc := Before(events, n).pc;
    && (pc.Connecting? ==> (UnwaitedBefore(events, n) <==> RefusedBefore(events, n)))
    && (!pc.Connecting? && !pc.Stopped? ==> UnwaitedBefore(events, n))
    && (RefusedBefore(events, n) ==> pc.Connecting? || pc.Stopped?)
  }

  lemma {:induction false} AllTraced<M>(events: seq<Event<M>>, n: nat)
    requires n <= |events|
    ensures Traced(events, n)
  {
    if n == 0 {
      BeforeFirst(events);
    } else {
      AllTraced(events, n - 1);
      ControlFollowsEvents(events, n - 1);
      UnwaitedNext(events, n - 1);
      RefusedNext(events, n - 1);
    }
  }

  /** A retry was not preceded by a wait if and only if it follows a Register frame that could not be sent. */
  lemma RetryUnwaitedIffRefused<M>(events: seq<Event<M>>, j: nat)
    requires AttemptAt(events, j)
    ensures UnwaitedBefore(events, j) <==> RefusedBefore(events, j)
  {
    AllTraced(events, j);
  }

  /** After a refusal the next attempt, if there is one, comes without a wait. */
  lemma {:induction false} RefusalRushesNext<M>(events: seq<Event<M>>, r: nat, n: nat)
    requires RefusalAt(events, r) && r < n <= |events|
    ensures RefusedBefore(events, n) || exists j: nat :: r < j < n && AttemptAt(events, j) && UnwaitedBefore(events, j)
  {
    RefusedNext(events, n - 1);
    if n > r + 1 {
      RefusalRushesNext(events, r, n - 1);
      AllTraced(events, n - 1);
    }
  }

  /** Every retry is preceded by a wait if and only if no attempt ever follows a failed Register. */
  lemma RetriesWaitIffNeverRefused<M>(events: seq<Event<M>>)
    ensures (forall j: nat :: AttemptAt(events, j) ==> !UnwaitedBefore(events, j)) <==>
            (forall r: nat, j: nat :: r < j && RefusalAt(events, r) ==> !AttemptAt(events, j))
  {
    forall j: nat | AttemptAt(events, j) ensures UnwaitedBefore(events, j) <==> RefusedBefore(events, j) {
      RetryUnwaitedIffRefused(events, j);
    }
    forall r: nat, j: nat | r < j && RefusalAt(events, r) && AttemptAt(events, j)
      ensures exists j': nat :: AttemptAt(events, j') && UnwaitedBefore(events, j')
    {
      RefusalRushesNext(events, r, j);
    }
  }
}
