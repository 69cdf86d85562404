/**
 The beacon message loop over a registry object, and what its events alone guarantee about the
 registry it leaves behind.
 */
module MessageLoop {
  import opened Common
  import opened Registry
  import opened RegistryGateways
  import opened RegistryTopics
  import opened RegistryTimeouts
  import opened BeaconManagement

  function Flatten(blocks: seq<seq<Action>>): seq<Action> {
    if blocks == [] then [] else Flatten(Front(blocks)) + Last(blocks)
  }

  /** Block by block, what the machine does for the events, starting from a new registry. */
  ghost predicate Explained(own: Option<Url>, subs: set<string>, events: seq<Event>, blocks: seq<seq<Action>>) {
    |blocks| == |events| && (events == [] ||
      (&& Explained(own, subs, Front(events), Front(blocks))
       && Explains(Last(events), Last(blocks))
       && Taken(Run(own, subs, Flatten(Front(blocks))), Last(blocks))))
  }

  lemma ExplainedAppend(own: Option<Url>, subs: set<string>, events: seq<Event>, blocks: seq<seq<Action>>, e: Event, block: seq<Action>)
    requires Explained(own, subs, events, blocks) && Explains(e, block) && Taken(Run(own, subs, Flatten(blocks)), block)
    ensures Explained(own, subs, events + [e], blocks + [block])
    ensures Run(own, subs, Flatten(blocks + [block])) == RunFrom(Run(own, subs, Flatten(blocks)), block)
  {
    assert Front(events + [e]) == events && Front(blocks + [block]) == blocks;
    RunFromConcat(Init(own, subs), Flatten(blocks), block);
  }

  // ── Conditions on the events ─────────────────────────────────────────────────────────

  /** No sweep is dropped: all its awaits resolve before another branch of the select is ready. */
  ghost predicate NothingDropped(events: seq<Event>) {
    forall i :: 0 <= i < |events| && events[i].TimeoutBranch? ==> !SomeDropped(events[i].awaits)
  }

  predicate HandshakeEvents(events: seq<Event>) {
    forall i :: 0 <= i < |events| && events[i].ChannelReceived? ==>
      HandshakeMade(Register(events[i].now, events[i].channel, events[i].subscribed))
  }

  predicate HasClock(e: Event) {
    e.ChannelReceived? || e.TimeoutBranch? || e.Inbound?
  }

  function EventClock(start: int, events: seq<Event>): int {
    if events == [] then start
    else if HasClock(Last(events)) then Last(events).now
    else EventClock(start, Front(events))
  }

  function LastSweep(start: int, events: seq<Event>): int {
    if events == [] then start
    else if Last(events).TimeoutBranch? then Last(events).now
    else LastSweep(start, Front(events))
  }

  /** The clock does not go back and sweeps begin at most one check interval apart. */
  predicate OnTime(start: int, events: seq<Event>) {
    events == [] ||
    (&& OnTime(start, Front(events))
     && (HasClock(Last(events)) ==>
           EventClock(start, Front(events)) <= Last(events).now <= LastSweep(start, Front(events)) + CHECK_INTERVAL))
  }

  // ── What they imply ──────────────────────────────────────────────────────────────────

  lemma ConditionsOfFront(events: seq<Event>)
    requires events != []
    ensures NothingDropped(events) ==> NothingDropped(Front(events))
    ensures HandshakeEvents(events) ==> HandshakeEvents(Front(events))
  {
    assert forall i :: 0 <= i < |Front(events)| ==> Front(events)[i] == events[i];
  }

  lemma BlockOfEvent(e: Event, block: seq<Action>)
    requires Explains(e, block)
    ensures e.TimeoutBranch? && !SomeDropped(e.awaits) ==> forall i :: 0 <= i < |block| ==> !block[i].Abandon?
    ensures (e.ChannelReceived? ==> HandshakeMade(Register(e.now, e.channel, e.subscribed))) ==> FromHandshakes(block)
  {
  }

  lemma {:induction false} BlocksOfEvents(own: Option<Url>, subs: set<string>, events: seq<Event>, blocks: seq<seq<Action>>)
    requires Explained(own, subs, events, blocks)
    ensures HandshakeEvents(events) ==> FromHandshakes(Flatten(blocks))
    ensures NothingDropped(events) ==> forall i :: 0 <= i < |Flatten(blocks)| ==> !Flatten(blocks)[i].Abandon?
  {
    if events != [] {
      ConditionsOfFront(events);
      BlocksOfEvents(own, subs, Front(events), Front(blocks));
      assert Last(events) == events[|events| - 1];
      BlockOfEvent(Last(events), Last(blocks));
    }
  }

  /** Sweep steps read no clock: they keep a run punctual. */
  lemma {:induction false} UntimedKeepsPunctual(own: Option<Url>, subs: set<string>, start: int, acts: seq<Action>, steps: seq<Action>)
    requires Punctual(own, subs, start, acts) && Taken(Run(own, subs, acts), steps)
    requires forall i :: 0 <= i < |steps| ==> !Timed(steps[i]) && !steps[i].Abandon?
    ensures Punctual(own, subs, start, acts + steps)
    ensures Clock(start, acts + steps) == Clock(start, acts) && LastTick(start, acts + steps) == LastTick(start, acts)
  {
    if steps == [] {
      assert acts + steps == acts;
    } else {
      UntimedKeepsPunctual(own, subs, start, acts, Front(steps));
      RunFromConcat(Init(own, subs), acts, Front(steps));
      assert !Timed(steps[|steps| - 1]);
      PunctualAppend(own, subs, start, acts + Front(steps), Last(steps));
      assert acts + Front(steps) + [Last(steps)] == acts + steps;
    }
  }

  lemma {:induction false} TakenTail(s: State, acts: seq<Action>)
    requires Taken(s, acts) && acts != []
    ensures Enabled(s, acts[0]) && Taken(Step(s, acts[0]), acts[1..])
  {
    if |acts| == 1 {
      assert Front(acts) == [] && RunFrom(s, []) == s;
    } else {
      TakenTail(s, Front(acts));
      assert Front(acts)[1..] == Front(acts[1..]) && Last(acts[1..]) == Last(acts);
      RunOneStep(s, acts[0]);
      RunFromConcat(s, [acts[0]], Front(acts[1..]));
      assert [acts[0]] + Front(acts[1..]) == Front(acts);
    }
  }

  lemma BlockShape(e: Event, block: seq<Action>)
    requires Explains(e, block) && (e.TimeoutBranch? ==> !SomeDropped(e.awaits))
    ensures block != [] && !block[0].Abandon?
    ensures (Timed(block[0]) <==> HasClock(e)) && (HasClock(e) ==> block[0].now == e.now)
    ensures block[0].Tick? <==> e.TimeoutBranch?
    ensures forall i :: 0 <= i < |block[1..]| ==> !Timed(block[1..][i]) && !block[1..][i].Abandon?
  {
    BlockOfEvent(e, block);
    assert forall i :: 0 <= i < |block[1..]| ==> block[1..][i] == block[i + 1];
  }

  lemma BlockKeepsPunctual(own: Option<Url>, subs: set<string>, start: int, acts: seq<Action>, first: Action, rest: seq<Action>)
    requires Punctual(own, subs, start, acts) && Taken(Run(own, subs, acts), [first] + rest)
    requires !first.Abandon? && forall i :: 0 <= i < |rest| ==> !Timed(rest[i]) && !rest[i].Abandon?
    requires Timed(first) ==> Clock(start, acts) <= first.now <= LastTick(start, acts) + CHECK_INTERVAL
    ensures Punctual(own, subs, start, acts + ([first] + rest))
    ensures Clock(start, acts + ([first] + rest)) == if Timed(first) then first.now else Clock(start, acts)
    ensures LastTick(start, acts + ([first] + rest)) == if first.Tick? then first.now else LastTick(start, acts)
  {
    TakenTail(Run(own, subs, acts), [first] + rest);
    assert ([first] + rest)[1..] == rest;
    PunctualAppend(own, subs, start, acts, first);
    UntimedKeepsPunctual(own, subs, start, acts + [first], rest);
    assert acts + [first] + rest == acts + ([first] + rest);
  }

  lemma {:induction false} OnTimeIsPunctual(own: Option<Url>, subs: set<string>, start: int, events: seq<Event>, blocks: seq<seq<Action>>)
    requires Explained(own, subs, events, blocks) && OnTime(start, events) && NothingDropped(events)
    ensures Punctual(own, subs, start, Flatten(blocks))
    ensures Clock(start, Flatten(blocks)) == EventClock(start, events)
    ensures LastTick(start, Flatten(blocks)) == LastSweep(start, events)
  {
    if events != [] {
      ConditionsOfFront(events);
      OnTimeIsPunctual(own, subs, start, Front(events), Front(blocks));
      assert Last(events) == events[|events| - 1];
      var block := Last(blocks);
      BlockShape(Last(events), block);
      assert [block[0]] + block[1..] == block;
      BlockKeepsPunctual(own, subs, start, Flatten(Front(blocks)), block[0], block[1..]);
    }
  }

  /** Up to the instant the next sweep is due, every registered beacon was heard at most 150 s ago. */
  predicate AllHeardRecently(s: State, lastSweep: int) {
    forall id :: id in s.records ==> lastSweep + CHECK_INTERVAL - s.records[id].lastSeen <= 150 * SECOND
  }

  lemma OnTimeHearsAll(own: Option<Url>, subs: set<string>, start: int, events: seq<Event>, blocks: seq<seq<Action>>)
    requires Explained(own, subs, events, blocks) && OnTime(start, events) && NothingDropped(events)
    requires Run(own, subs, Flatten(blocks)).phase.Idle?
    ensures AllHeardRecently(Run(own, subs, Flatten(blocks)), LastSweep(start, events))
  {
    OnTimeIsPunctual(own, subs, start, events, blocks);
    PunctualHeardSince(own, subs, start, Flatten(blocks));
  }

  /** The events the loop gets to see: those before the inbound channel closes. */
  function Served(events: seq<Event>): seq<Event> {
    if events == [] || events[0].InboundClosed? then [] else [events[0]] + Served(events[1..])
  }

  lemma {:induction false} ServedMeans(events: seq<Event>, k: nat)
    requires k <= |events| && forall i :: 0 <= i < k ==> !events[i].InboundClosed?
    requires k < |events| ==> events[k].InboundClosed?
    ensures Served(events) == events[..k]
  {
    if k > 0 {
      ServedMeans(events[1..], k - 1);
      assert events[..k] == [events[0]] + events[1..][..k - 1];
    }
  }

  /** The first `k` events have been served, and the registry is now `view`. */
  ghost predicate Progress(own: Option<Url>, subs: set<string>, events: seq<Event>, k: nat, blocks: seq<seq<Action>>, view: State) {
    && k <= |events| && (forall i :: 0 <= i < k ==> !events[i].InboundClosed?)
    && Explained(own, subs, events[..k], blocks)
    && view == Run(own, subs, Flatten(blocks))
  }

  lemma ProgressBegins(own: Option<Url>, subs: set<string>, events: seq<Event>)
    ensures Progress(own, subs, events, 0, [], Init(own, subs))
  {
    assert events[..0] == [];
  }

  lemma ProgressGoesOn(
      own: Option<Url>, subs: set<string>, events: seq<Event>, k: nat, blocks: seq<seq<Action>>, view: State, block: seq<Action>)
    requires Progress(own, subs, events, k, blocks, view) && k < |events| && !events[k].InboundClosed?
    requires Explains(events[k], block) && Taken(view, block)
    ensures Progress(own, subs, events, k + 1, blocks + [block], RunFrom(view, block))
  {
    ExplainedAppend(own, subs, events[..k], blocks, events[k], block);
    assert events[..k + 1] == events[..k] + [events[k]];
  }

  lemma ProgressEnds(own: Option<Url>, subs: set<string>, events: seq<Event>, k: nat, blocks: seq<seq<Action>>, view: State)
    requires Progress(own, subs, events, k, blocks, view) && (k < |events| ==> events[k].InboundClosed?)
    ensures Explained(own, subs, Served(events), blocks) && view == Run(own, subs, Flatten(blocks))
  {
    ServedMeans(events, k);
  }

  /** The loop itself, on a new registry. */
  method ServeEvents(own: Option<Url>, ghost subscribed: set<string>, events: seq<Event>)
    returns (registry: BeaconRegistry, ghost blocks: seq<seq<Action>>)
    ensures Explained(own, subscribed, Served(events), blocks)
    ensures registry.View() == Run(own, subscribed, Flatten(blocks))
  {
    registry := new BeaconRegistry(own, subscribed);
    blocks := [];
    var k := 0;
    ProgressBegins(own, subscribed, events);
    while k < |events| && !events[k].InboundClosed?
      invariant fresh(registry) && k <= |events|
      invariant Progress(own, subscribed, events, k, blocks, registry.View())
    {
      ghost var before := registry.View();
      ghost var block := registry.Turn(events[k]);
      ProgressGoesOn(own, subscribed, events, k, blocks, before, block);
      blocks := blocks + [block];
      k := k + 1;
    }
    ProgressEnds(own, subscribed, events, k, blocks, registry.View());
  }

  /**
   `run_beacon_message_loop`: the registry it leaves behind is the machine's state after one
   block of actions per event before the first `InboundClosed`. If no sweep is dropped, its
   broadcast list is exact; if moreover sweeps come on time, nobody silent for more than 150 s
   is registered.
   */
  method RunBeaconMessageLoop(own: Option<Url>, ghost subscribed: set<string>, ghost start: int, events: seq<Event>)
    returns (registry: BeaconRegistry, ghost blocks: seq<seq<Action>>)
    ensures Explained(own, subscribed, Served(events), blocks)
    ensures registry.View() == Run(own, subscribed, Flatten(blocks))
    ensures GatewaysOk(own, registry.View())
    ensures HandshakeEvents(Served(events)) && NothingDropped(Served(events)) ==> TopicsExact(registry.View())
    ensures OnTime(start, Served(events)) && NothingDropped(Served(events)) ==>
              AllHeardRecently(registry.View(), LastSweep(start, Served(events)))
  {
    registry, blocks := ServeEvents(own, subscribed, events);
    RunKeepsGateways(own, subscribed, Flatten(blocks));
    LoopOutcome(own, subscribed, start, Served(events), blocks);
  }

  lemma LoopOutcome(own: Option<Url>, subs: set<string>, start: int, events: seq<Event>, blocks: seq<seq<Action>>)
    requires Explained(own, subs, events, blocks) && Run(own, subs, Flatten(blocks)).phase.Idle?
    ensures HandshakeEvents(events) && NothingDropped(events) ==> TopicsExact(Run(own, subs, Flatten(blocks)))
    ensures OnTime(start, events) && NothingDropped(events) ==>
              AllHeardRecently(Run(own, subs, Flatten(blocks)), LastSweep(start, events))
  {
    BlocksOfEvents(own, subs, events, blocks);
    if HandshakeEvents(events) && NothingDropped(events) {
      UninterruptedSweepsKeepTopicsExact(own, subs, Flatten(blocks));
    }
    if OnTime(start, events) && NothingDropped(events) {
      OnTimeHearsAll(own, subs, start, events, blocks);
    }
  }
}
