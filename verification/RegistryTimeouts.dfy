/** How long a silent beacon can stay registered, and that a talkative one always does. */
module RegistryTimeouts {
  import opened Common
  import opened Registry
  import opened RegistryTopics
  import opened RegistrySweep

  predicate Timed(a: Action) {
    a.Register? || a.Message? || a.Tick?
  }

  /** The instant of the latest timed action; `start` is when the loop began. */
  function Clock(start: int, acts: seq<Action>): int {
    if acts == [] then start
    else if Timed(Last(acts)) then Last(acts).now
    else Clock(start, Front(acts))
  }

  /** The instant of the latest sweep; an interval's first tick fires at once, hence `start`. */
  function LastTick(start: int, acts: seq<Action>): int {
    if acts == [] then start
    else if Last(acts).Tick? then Last(acts).now
    else LastTick(start, Front(acts))
  }

  /** Every action really happens, in the order of a monotone clock. */
  ghost predicate Legal(own: Option<Url>, subs: set<string>, start: int, acts: seq<Action>) {
    acts == [] ||
    (&& Legal(own, subs, start, Front(acts))
     && Enabled(Run(own, subs, Front(acts)), Last(acts))
     && (Timed(Last(acts)) ==> Clock(start, Front(acts)) <= Last(acts).now))
  }

  /** Moreover ticks come at most one check interval apart and no sweep is abandoned. */
  ghost predicate Punctual(own: Option<Url>, subs: set<string>, start: int, acts: seq<Action>) {
    && Legal(own, subs, start, acts)
    && (forall i :: 0 <= i < |acts| && Timed(acts[i]) ==> acts[i].now <= LastTick(start, acts[..i]) + CHECK_INTERVAL)
    && (forall i :: 0 <= i < |acts| ==> !acts[i].Abandon?)
  }

  function Pending(p: Phase): seq<Id> {
    if p.Idle? then [] else p.rest
  }

  /** Beacons the sweep has yet to visit may be one interval staler than the others. */
  predicate HeardSince(s: State, tick: int) {
    && (forall id :: id in s.records ==> s.records[id].lastSeen >= tick - BEACON_TIMEOUT - CHECK_INTERVAL)
    && (forall id :: id in s.records && id !in Pending(s.phase) ==> s.records[id].lastSeen >= tick - BEACON_TIMEOUT)
  }

  lemma TickHeardSince(s: State, tick: int, a: Action)
    requires HeardSince(s, tick) && a.Tick? && Enabled(s, a) && tick <= a.now <= tick + CHECK_INTERVAL
    ensures HeardSince(Step(s, a), a.now)
  {
    StaleIdsMeans(s.records, a.iteration, a.now);
  }

  lemma SweepStepHeardSince(s: State, tick: int, a: Action)
    requires HeardSince(s, tick) && Enabled(s, a) && (a.Next? || a.Unsubscribe? || a.Retain? || a.SessionLost?)
    ensures HeardSince(Step(s, a), tick)
  {
    if a.Next? && s.phase.rest != [] {
      assert s.phase.rest == [s.phase.rest[0]] + s.phase.rest[1..];
    }
  }

  lemma StepHeardSince(s: State, tick: int, a: Action)
    requires HeardSince(s, tick) && Enabled(s, a) && !a.Abandon? && !a.Tick?
    requires Timed(a) ==> tick <= a.now
    ensures HeardSince(Step(s, a), tick)
  {
    if !Timed(a) {
      SweepStepHeardSince(s, tick, a);
    }
  }

  lemma {:induction false} PunctualHeardSince(own: Option<Url>, subs: set<string>, start: int, acts: seq<Action>)
    requires Punctual(own, subs, start, acts)
    ensures LastTick(start, acts) <= Clock(start, acts)
    ensures HeardSince(Run(own, subs, acts), LastTick(start, acts))
  {
    if acts != [] {
      var front := Front(acts);
      assert forall i :: 0 <= i < |front| ==> acts[i] == front[i] && acts[..i] == front[..i];
      PunctualHeardSince(own, subs, start, front);
      assert acts[..|front|] == front && acts[|front|] == Last(acts);
      var s := Run(own, subs, front);
      if Last(acts).Tick? {
        TickHeardSince(s, LastTick(start, front), Last(acts));
      } else {
        StepHeardSince(s, LastTick(start, front), Last(acts));
      }
    }
  }

  /**
   If ticks are at most 30 s apart and sweeps complete, then at every instant, in the middle of
   a sweep too, every registered beacon was heard at most 150 s ago, except those the running
   sweep is about to deregister, which were heard at most 180 s ago.
   */
  lemma RegisteredWasHeardRecently(own: Option<Url>, subs: set<string>, start: int, acts: seq<Action>, now: int, id: Id)
    requires Punctual(own, subs, start, acts)
    requires now <= LastTick(start, acts) + CHECK_INTERVAL
    requires id in Run(own, subs, acts).records
    ensures var s := Run(own, subs, acts);
            && (id !in Pending(s.phase) ==> now - s.records[id].lastSeen <= 150 * SECOND)
            && now - s.records[id].lastSeen <= 180 * SECOND
  {
    PunctualHeardSince(own, subs, start, acts);
  }

  lemma PunctualAppend(own: Option<Url>, subs: set<string>, start: int, acts: seq<Action>, a: Action)
    requires Punctual(own, subs, start, acts) && Enabled(Run(own, subs, acts), a) && !a.Abandon?
    requires Timed(a) ==> Clock(start, acts) <= a.now <= LastTick(start, acts) + CHECK_INTERVAL
    ensures Punctual(own, subs, start, acts + [a]) && Run(own, subs, acts + [a]) == Step(Run(own, subs, acts), a)
    ensures Clock(start, acts + [a]) == if Timed(a) then a.now else Clock(start, acts)
    ensures LastTick(start, acts + [a]) == if a.Tick? then a.now else LastTick(start, acts)
  {
    var all := acts + [a];
    assert Front(all) == acts && Last(all) == a;
    assert forall i :: 0 <= i <= |acts| ==> all[..i] == acts[..i];
    assert acts[..|acts|] == acts;
  }

  const SILENT: Record := Record("b/rec", "", 0, None, None)

  /** `acts` has last ticked at `now`, between sweeps, with only the silent beacon registered. */
  ghost predicate SilentAt(acts: seq<Action>, now: int) {
    && Punctual(None, {}, 0, acts) && LastTick(0, acts) == Clock(0, acts) == now
    && Run(None, {}, acts).phase.Idle? && Run(None, {}, acts).records == map["b" := SILENT]
  }

  lemma SilentBegins() returns (acts: seq<Action>)
    ensures SilentAt(acts, 0)
  {
    var a := Register(0, TopicChannel("b", "b/rec", Listen), true);
    assert Run(None, {}, []) == Init(None, {});
    PunctualAppend(None, {}, 0, [], a);
    acts := [] + [a];
  }

  lemma SilentGoesOn(before: seq<Action>, now: int) returns (acts: seq<Action>)
    requires SilentAt(before, now) && now + CHECK_INTERVAL <= BEACON_TIMEOUT
    ensures SilentAt(acts, now + CHECK_INTERVAL)
  {
    SilentTick(before, now + CHECK_INTERVAL);
    acts := before + [Tick(now + CHECK_INTERVAL, ["b"])];
    PunctualAppend(None, {}, 0, acts, Next);
    acts := acts + [Next];
  }

  lemma SilentTick(acts: seq<Action>, now: int)
    requires SilentAt(acts, now - CHECK_INTERVAL)
    ensures var t := acts + [Tick(now, ["b"])]; var s := Run(None, {}, t);
            && Punctual(None, {}, 0, t) && Clock(0, t) == LastTick(0, t) == now
            && s.records == map["b" := SILENT] && s.phase == Sweeping(if now > BEACON_TIMEOUT then ["b"] else [])
  {
    var s := Run(None, {}, acts);
    assert Enumerates(["b"], s.records);
    PunctualAppend(None, {}, 0, acts, Tick(now, ["b"]));
    assert ["b"][1..] == [] && StaleIds(s.records, [], now) == [];
  }

  /**
   Both bounds are reached: in some punctual run a beacon last heard at 0 s is still registered
   at 150 s with no sweep under way, and at 180 s while the sweep that began at 150 s has yet
   to visit it.
   */
  lemma SilenceBoundsAreReached() returns (acts: seq<Action>)
    ensures var s := Run(None, {}, acts);
            && Punctual(None, {}, 0, acts) && 150 * SECOND <= LastTick(0, acts) + CHECK_INTERVAL
            && s.phase.Idle? && "b" in s.records && s.records["b"].lastSeen == 0
    ensures var more := acts + [Tick(150 * SECOND, ["b"])]; var s := Run(None, {}, more);
            && Punctual(None, {}, 0, more) && 180 * SECOND <= LastTick(0, more) + CHECK_INTERVAL
            && "b" in s.records && "b" in Pending(s.phase) && s.records["b"].lastSeen == 0
  {
    acts := SilentBegins();
    acts := SilentGoesOn(acts, 0);
    acts := SilentGoesOn(acts, CHECK_INTERVAL);
    acts := SilentGoesOn(acts, 2 * CHECK_INTERVAL);
    acts := SilentGoesOn(acts, 3 * CHECK_INTERVAL);
    SilentTick(acts, 150 * SECOND);
  }

  // ── Talkative beacons ────────────────────────────────────────────────────────────────

  predicate SpeaksAt(acts: seq<Action>, i: nat, id: Id)
    requires i < |acts|
  {
    acts[i].Message? && acts[i].topic == Rec(id)
  }

  /** From position `k` on, every tick comes at most 120 s after something `id` was heard to say. */
  ghost predicate Talkative(own: Option<Url>, subs: set<string>, acts: seq<Action>, k: nat, id: Id)
    requires k <= |acts| && id in Run(own, subs, acts[..k]).records
  {
    forall j :: k <= j < |acts| && acts[j].Tick? ==>
      || acts[j].now - Run(own, subs, acts[..k]).records[id].lastSeen <= BEACON_TIMEOUT
      || (exists i :: k <= i < j && SpeaksAt(acts, i, id) && acts[j].now - acts[i].now <= BEACON_TIMEOUT)
  }

  /** The registration of `id` is out of the sweep's reach and as recent as all it said since `k`. */
  ghost predicate StillThere(s: State, base: int, acts: seq<Action>, k: nat, id: Id)
    requires k <= |acts|
  {
    && id in s.records && id !in Pending(s.phase) && (s.phase.InFlight() ==> s.phase.id != id)
    && s.records[id].lastSeen >= base
    && (forall i :: k <= i < |acts| && SpeaksAt(acts, i, id) ==> s.records[id].lastSeen >= acts[i].now)
  }

  predicate SeenBy(s: State, now: int) {
    forall id :: id in s.records ==> s.records[id].lastSeen <= now
  }

  lemma StepSeenBy(s: State, a: Action, now: int)
    requires SeenBy(s, now) && (a.Register? || a.Message? ==> a.now == now)
    ensures SeenBy(Step(s, a), now)
  {
  }

  lemma {:induction false} SeenBeforeClock(own: Option<Url>, subs: set<string>, start: int, acts: seq<Action>)
    requires Legal(own, subs, start, acts)
    ensures SeenBy(Run(own, subs, acts), Clock(start, acts))
  {
    if acts != [] {
      SeenBeforeClock(own, subs, start, Front(acts));
      StepSeenBy(Run(own, subs, Front(acts)), Last(acts), Clock(start, acts));
    }
  }

  lemma StepStillThere(s: State, a: Action, base: int, front: seq<Action>, k: nat, id: Id)
    requires k <= |front| && StillThere(s, base, front, k, id) && Enabled(s, a)
    requires a.Message? ==> a.now >= s.records[id].lastSeen
    requires a.Tick? ==> !IsStale(s.records[id], a.now)
    ensures StillThere(Step(s, a), base, front + [a], k, id)
  {
    var acts := front + [a];
    var t := Step(s, a);
    RecStrips(id);
    if a.Tick? {
      StaleIdsMeans(s.records, a.iteration, a.now);
    }
    if a.Next? && s.phase.rest != [] {
      assert s.phase.rest == [s.phase.rest[0]] + s.phase.rest[1..];
    }
    assert id in t.records && t.records[id].lastSeen >= s.records[id].lastSeen;
    forall i | k <= i < |acts| && SpeaksAt(acts, i, id) ensures t.records[id].lastSeen >= acts[i].now {
      if i < |front| {
        assert SpeaksAt(front, i, id);
      }
    }
  }

  /**
   A beacon whose processed messages are never more than 120 s apart is never deregistered,
   whatever else happens and however often a sweep is abandoned.
   */
  lemma {:induction false} TalkativeStaysRegistered(own: Option<Url>, subs: set<string>, start: int, acts: seq<Action>, k: nat, id: Id)
    requires Legal(own, subs, start, acts) && k <= |acts|
    requires Run(own, subs, acts[..k]).phase.Idle? && id in Run(own, subs, acts[..k]).records
    requires Talkative(own, subs, acts, k, id)
    ensures id in Run(own, subs, acts).records
    ensures StillThere(Run(own, subs, acts), Run(own, subs, acts[..k]).records[id].lastSeen, acts, k, id)
  {
    if |acts| == k {
      assert acts[..k] == acts;
    } else {
      var front := Front(acts);
      var s := Run(own, subs, front);
      var base := Run(own, subs, acts[..k]).records[id].lastSeen;
      assert front[..k] == acts[..k];
      assert forall i :: 0 <= i < |front| ==> acts[i] == front[i];
      assert Talkative(own, subs, front, k, id) by {
        forall j | k <= j < |front| && front[j].Tick?
          ensures front[j].now - base <= BEACON_TIMEOUT
               || exists i :: k <= i < j && SpeaksAt(front, i, id) && front[j].now - front[i].now <= BEACON_TIMEOUT
        {
          if acts[j].now - base > BEACON_TIMEOUT {
            var i :| k <= i < j && SpeaksAt(acts, i, id) && acts[j].now - acts[i].now <= BEACON_TIMEOUT;
            assert SpeaksAt(front, i, id);
          }
        }
      }
      TalkativeStaysRegistered(own, subs, start, front, k, id);
      SeenBeforeClock(own, subs, start, front);
      if Last(acts).Tick? {
        NotStaleAtTick(own, subs, acts, k, id, s, base);
      }
      StepStillThere(s, Last(acts), base, front, k, id);
      assert acts == front + [Last(acts)];
    }
  }

  lemma NotStaleAtTick(own: Option<Url>, subs: set<string>, acts: seq<Action>, k: nat, id: Id, s: State, base: int)
    requires acts != [] && k < |acts| && Last(acts).Tick?
    requires id in Run(own, subs, acts[..k]).records && base == Run(own, subs, acts[..k]).records[id].lastSeen
    requires Talkative(own, subs, acts, k, id) && StillThere(s, base, Front(acts), k, id)
    ensures !IsStale(s.records[id], Last(acts).now)
  {
    var j := |acts| - 1;
    if acts[j].now - base > BEACON_TIMEOUT {
      var i :| k <= i < j && SpeaksAt(acts, i, id) && acts[j].now - acts[i].now <= BEACON_TIMEOUT;
      assert SpeaksAt(Front(acts), i, id);
    }
  }
}
