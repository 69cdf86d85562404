/**
 The registry object and the loop that owns it, in the form the program has them, proved to
 take exactly the steps of the `Registry` state machine.
 */
module BeaconManagement {
  import opened Common
  import opened Registry
  import opened RegistryGateways
  import opened RegistrySweep

  /** What becomes of an await inside the sweep. */
  datatype Await = Resolved(ok: bool) | Dropped(queued: bool)

  class BeaconRegistry {
    var records: map<Id, Record>
    var knownGateways: set<Url>
    var broadcastTopics: seq<string>
    var dialled: seq<Url>
    // Our broker session's subscriptions and the connections whose shutdown sender is still held.
    ghost var subs: set<string>
    ghost var live: set<nat>

    ghost function View(): State
      reads this
    {
      State(records, knownGateways, broadcastTopics, subs, dialled, live, Idle)
    }

    constructor (own: Option<Url>, ghost subscribed: set<string>)
      ensures View() == Init(own, subscribed)
    {
      records, broadcastTopics, dialled := map[], [], [];
      knownGateways := if own.Some? then {own.value} else {};
      subs, live := subscribed, {};
    }

    method RegisterChannel(now: int, channel: TopicChannel, subscribed: bool)
      modifies this
      ensures View() == Registry.RegisterChannel(old(View()), now, channel, subscribed)
    {
      var id := channel.beaconId;
      if id !in records {
        records := records[id := NewRecord(now)];
      }
      match channel.topicType
      case Listen =>
        if subscribed {
          subs := subs + {channel.topic};
          records := records[id := records[id].(listenTopic := channel.topic)];
        }
      case Broadcast =>
        broadcastTopics := broadcastTopics + [channel.topic];
        records := records[id := records[id].(broadcastTopic := channel.topic)];
      case Hybrid =>
        if subscribed {
          subs := subs + {channel.topic};
          broadcastTopics := broadcastTopics + [channel.topic];
          records := records[id := records[id].(listenTopic := channel.topic, broadcastTopic := channel.topic)];
        }
    }

    method UpdateLastSeen(id: Id, now: int)
      modifies this`records
      ensures View() == Registry.UpdateLastSeen(old(View()), id, now)
    {
      if id in records {
        records := records[id := records[id].(lastSeen := now)];
      }
    }

    method IsGatewayKnown(url: Url) returns (known: bool)
      ensures known <==> url in View().known
    {
      known := url in knownGateways;
    }

    /** `insert_gateway`, then `connect_to_gateway`, which hands back the new connection's sender. */
    method InsertAndConnect(url: Url) returns (conn: nat)
      modifies this`knownGateways, this`dialled, this`live
      ensures View() == Dial(old(View()), url) && conn == |old(dialled)|
    {
      knownGateways := knownGateways + {url};
      conn := |dialled|;
      dialled := dialled + [url];
      live := live + {conn};
    }

    method AssociateGateway(id: Id, url: Url, conn: nat)
      modifies this`records, this`live
      ensures View() == Registry.AssociateGateway(old(View()), id, url, conn)
    {
      if id in records {
        DropHeld(records[id].sender);
        records := records[id := records[id].(gatewayUrl := Some(url), sender := Some(conn))];
      } else {
        DropHeld(Some(conn));
      }
    }

    ghost method DropHeld(sender: Option<nat>)
      modifies this`live
      ensures live == old(live) - Senders(sender)
    {
      live := live - Senders(sender);
    }

    /** The keys of the map, in whatever order it yields them. */
    method YieldKeys() returns (ids: seq<Id>)
      ensures Enumerates(ids, records)
    {
      ids := [];
      var todo := records.Keys;
      while todo != {}
        invariant todo <= records.Keys
        invariant Distinct(ids)
        invariant forall id :: id in ids ==> id in records && id !in todo
        invariant forall id :: id in records ==> id in ids || id in todo
        decreases |todo|
      {
        var id :| id in todo;
        ids := ids + [id];
        todo := todo - {id};
      }
    }

    method CollectStale(iteration: seq<Id>, now: int) returns (stale: seq<Id>)
      ensures stale == StaleIds(records, iteration, now)
    {
      stale := [];
      for i := 0 to |iteration|
        invariant stale == StaleIds(records, iteration[..i], now)
      {
        if iteration[i] in records && now - records[iteration[i]].lastSeen > BEACON_TIMEOUT {
          stale := stale + [iteration[i]];
        }
        StaleIdsAppend(records, iteration[..i], iteration[i], now);
        assert iteration[..i + 1] == iteration[..i] + [iteration[i]];
      }
      assert iteration[..|iteration|] == iteration;
    }

    /**
     The sweep's loop body for one stale beacon. `awaits(n)`, `awaits(n + 1)` are the fates of
     the awaits it may reach; if one is dropped, the sweep ends there with its local record.
     */
    method Deregister(id: Id, awaits: nat -> Await, n: nat, ghost rest: seq<Id>)
      returns (completed: bool, n': nat, ghost acked: bool, ghost steps: seq<Action>)
      requires id in records
      modifies this
      ensures completed ==> steps == [Next, Unsubscribe(acked), Retain]
      ensures !completed ==> CutShort(steps) && SomeDropped(awaits)
      ensures var s := old(View()).(phase := Sweeping([id] + rest));
              Taken(s, steps) && RunFrom(s, steps) == View().(phase := if completed then Sweeping(rest) else Idle)
      ensures records == old(records) - {id}
      ensures completed ==> n' == n + Awaits(old(records)[id])
      ensures completed && old(records)[id].listenTopic != "" ==> awaits(n) == Resolved(acked)
      ensures completed && old(records)[id].broadcastTopic != "" ==> awaits(n' - 1).Resolved?
      ensures !completed ==> n < n' <= n + Awaits(old(records)[id]) && awaits(n' - 1).Dropped?
    {
      ghost var s := View().(phase := Sweeping([id] + rest));
      assert ([id] + rest)[1..] == rest;
      n', acked := n, false;
      var record := records[id];
      records := records - {id};
      if record.listenTopic != "" {
        var fate := awaits(n');
        n' := n' + 1;
        if fate.Dropped? {
          if fate.queued {
            subs := subs - {record.listenTopic};
          }
          DropHeld(record.sender);
          steps, completed := [Next, Abandon(fate.queued)], false;
          DroppedAtUnsubscribe(s, id, fate.queued);
          return;
        }
        acked := fate.ok;
        if acked {
          subs := subs - {record.listenTopic};
        }
      }
      completed, n' := Unlist(record, awaits, n');
      if completed {
        steps := [Next, Unsubscribe(acked), Retain];
        EvictionSteps(s, acked);
      } else {
        ghost var queued := awaits(n' - 1).queued;
        steps := [Next, Unsubscribe(acked), Abandon(queued)];
        DroppedAtRetain(s, id, acked, queued);
      }
    }

    /** The rest of the loop body: broadcast list, known gateways, and the record is dropped. */
    method Unlist(record: Record, awaits: nat -> Await, n: nat) returns (completed: bool, n': nat)
      modifies this`broadcastTopics, this`knownGateways, this`live
      ensures completed <==> record.broadcastTopic == "" || awaits(n).Resolved?
      ensures n' == n + if record.broadcastTopic == "" then 0 else 1
      ensures live == old(live) - Senders(record.sender)
      ensures broadcastTopics == if completed && record.broadcastTopic != "" then Without(old(broadcastTopics), record.broadcastTopic)
                                 else old(broadcastTopics)
      ensures knownGateways == if completed then old(knownGateways) - UrlSet(record.gatewayUrl) else old(knownGateways)
    {
      n' := n;
      if record.broadcastTopic != "" {
        var fate := awaits(n);
        n' := n + 1;
        if fate.Dropped? {
          DropHeld(record.sender);
          return false, n';
        }
        broadcastTopics := Without(broadcastTopics, record.broadcastTopic);
      }
      if record.gatewayUrl.Some? {
        knownGateways := knownGateways - {record.gatewayUrl.value};
      }
      DropHeld(record.sender);
      completed := true;
    }

    /**
     The sweep's loop over the stale beacons; `done` of them are fully deregistered. It
     completes exactly if none of the awaits it has to make is dropped.
     */
    method DeregisterAll(stale: seq<Id>, awaits: nat -> Await)
      returns (completed: bool, ghost done: nat, ghost replies: map<Id, bool>, ghost tail: seq<Action>)
      requires Distinct(stale) && forall id :: id in stale ==> id in records
      modifies this
      ensures done <= |stale| && (completed ==> done == |stale| && tail == [Next])
      ensures !completed ==> CutShort(tail)
      ensures completed <==> AllResolve(awaits, AwaitsOf(old(records), stale))
      ensures completed ==> Heeds(awaits, old(records), stale, replies)
      ensures var s, acts := old(View()).(phase := Sweeping(stale)), Evictions(stale[..done], replies) + tail;
              Taken(s, acts) && RunFrom(s, acts) == View()
    {
      ghost var s := View().(phase := Sweeping(stale));
      var n := 0;
      var k := 0;
      replies, completed := map[], true;
      EvictingBegins(s, stale);
      HeedingBegins(awaits, records, stale);
      while k < |stale|
        invariant k <= |stale| && Evicting(s, stale, k, replies, View())
        invariant Heeding(awaits, s.records, stale, k, n, replies, records)
      {
        ghost var acked, steps;
        ghost var before := View();
        ghost var was := n;
        completed, n, acked, steps := Deregister(stale[k], awaits, n, stale[k + 1..]);
        EvictingMore(s, stale, k, replies, before, steps);
        AwaitsAdd(s.records, stale, k);
        if !completed {
          done, tail := k, steps;
          return;
        }
        EvictedOne(s, stale, k, replies, acked, before, View());
        HeededOne(awaits, s.records, stale, k, was, n, replies, acked, before.records);
        replies := replies[stale[k] := acked];
        k := k + 1;
      }
      completed, done, tail := true, k, [Next];
      assert stale[..k] == stale;
      EvictingEnds(s, stale, replies, View());
    }

    /**
     One sweep. It completes exactly if none of its awaits is dropped; then exactly the silent
     beacons are gone, with the unsubscribe replies the awaits gave. Otherwise the actions taken
     end with the abandonment.
     */
    method CheckTimeouts(now: int, awaits: nat -> Await) returns (completed: bool, ghost acts: seq<Action>, ghost replies: map<Id, bool>)
      modifies this
      ensures IsSweep(acts, now) && Taken(old(View()), acts) && View() == RunFrom(old(View()), acts)
      ensures completed <==> !Abandons(acts)
      ensures completed ==> View() == Cleared(old(View()), Silent(old(records), now), replies)
      ensures var order := StaleIds(old(records), acts[0].iteration, now);
              && (completed <==> AllResolve(awaits, AwaitsOf(old(records), order)))
              && (completed ==> Heeds(awaits, old(records), order, replies))
    {
      ghost var s0 := View();
      var iteration := YieldKeys();
      var stale := CollectStale(iteration, now);
      StaleIdsMeans(records, iteration, now);
      ghost var done, tail;
      completed, done, replies, tail := DeregisterAll(stale, awaits);
      acts := SweepRecorded(s0, now, iteration, done, replies, tail, completed, View());
    }

    /** One turn of the loop, for anything but a closed inbound channel. */
    method Turn(e: Event) returns (ghost block: seq<Action>)
      requires !e.InboundClosed?
      modifies this
      ensures Explains(e, block) && Taken(old(View()), block) && View() == RunFrom(old(View()), block)
    {
      ghost var before := View();
      match e
      case ChannelReceived(now, channel, subscribed) =>
        RegisterChannel(now, channel, subscribed);
        block := [Register(now, channel, subscribed)];
        RunOneStep(before, block[0]);
      case TimeoutBranch(now, awaits) =>
        var completed;
        ghost var replies;
        completed, block, replies := CheckTimeouts(now, awaits);
        assert completed || SomeDropped(awaits);
      case Inbound(now, topic, advertised) =>
        ProcessMessage(now, topic, advertised);
        block := [Message(now, topic, advertised)];
        RunOneStep(before, block[0]);
      case SessionDropped =>
        subs := {};
        block := [SessionLost];
        RunOneStep(before, block[0]);
    }

    /** The body of the loop for an inbound message. */
    method ProcessMessage(now: int, topic: string, advertised: Option<Url>)
      modifies this
      ensures View() == Registry.ProcessMessage(old(View()), now, topic, advertised)
    {
      var from := StripRec(topic);
      if from.Some? {
        UpdateLastSeen(from.value, now);
      }
      if advertised.Some? {
        var known := IsGatewayKnown(advertised.value);
        if !known {
          var conn := InsertAndConnect(advertised.value);
          if from.Some? {
            AssociateGateway(from.value, advertised.value, conn);
          } else {
            DropHeld(Some(conn));
          }
        }
      }
    }
  }

  predicate SweepStep(a: Action) {
    a.Next? || a.Unsubscribe? || a.Retain? || a.Abandon?
  }

  /** Sweep steps that end with the sweep being dropped. */
  predicate CutShort(acts: seq<Action>) {
    acts != [] && Last(acts).Abandon? && (forall i :: 0 <= i < |acts| ==> SweepStep(acts[i]))
  }

  predicate IsSweep(acts: seq<Action>, now: int) {
    && acts != [] && acts[0].Tick? && acts[0].now == now
    && (forall i :: 1 <= i < |acts| ==> SweepStep(acts[i]))
  }

  predicate Abandons(acts: seq<Action>) {
    exists i :: 0 <= i < |acts| && acts[i].Abandon?
  }

  /** The select drops the sweep at one of its awaits. */
  ghost predicate SomeDropped(awaits: nat -> Await) {
    exists m: nat :: awaits(m).Dropped?
  }

  lemma {:induction false} StaleIdsAppend(records: map<Id, Record>, ids: seq<Id>, id: Id, now: int)
    ensures StaleIds(records, ids + [id], now)
         == StaleIds(records, ids, now) + (if id in records && IsStale(records[id], now) then [id] else [])
  {
    if ids == [] {
      assert [id][1..] == [];
    } else {
      StaleIdsAppend(records, ids[1..], id, now);
      assert (ids + [id])[1..] == ids[1..] + [id];
    }
  }

  lemma {:induction false} EvictionsAppend(order: seq<Id>, id: Id, replies: map<Id, bool>, ok: bool)
    requires id !in order
    ensures Evictions(order + [id], replies[id := ok]) == Evictions(order, replies) + [Next, Unsubscribe(ok), Retain]
  {
    if order == [] {
      assert [id][1..] == [];
    } else {
      EvictionsAppend(order[1..], id, replies, ok);
      assert (order + [id])[1..] == order[1..] + [id];
    }
  }

  /** How many awaits deregistering a beacon takes. */
  function Awaits(r: Record): nat {
    (if r.listenTopic != "" then 1 else 0) + (if r.broadcastTopic != "" then 1 else 0)
  }

  function AwaitsOf(records: map<Id, Record>, order: seq<Id>): nat {
    if order == [] then 0
    else AwaitsOf(records, Front(order)) + (if Last(order) in records then Awaits(records[Last(order)]) else 0)
  }

  ghost predicate AllResolve(awaits: nat -> Await, n: nat) {
    forall m: nat :: m < n ==> awaits(m).Resolved?
  }

  /** Each reply is what the await of that beacon's unsubscribe request came to. */
  ghost predicate Heeds(awaits: nat -> Await, records: map<Id, Record>, order: seq<Id>, replies: map<Id, bool>) {
    forall k :: 0 <= k < |order| && order[k] in records && records[order[k]].listenTopic != "" ==>
      awaits(AwaitsOf(records, order[..k])) == Resolved(Acked(replies, order[k]))
  }

  lemma {:induction false} AwaitsMonotone(records: map<Id, Record>, order: seq<Id>, k: nat)
    requires k <= |order|
    ensures AwaitsOf(records, order[..k]) <= AwaitsOf(records, order)
  {
    if k == |order| {
      assert order[..k] == order;
    } else {
      AwaitsMonotone(records, Front(order), k);
      assert Front(order)[..k] == order[..k];
    }
  }

  lemma AwaitsAdd(records: map<Id, Record>, order: seq<Id>, k: nat)
    requires k < |order| && order[k] in records
    ensures AwaitsOf(records, order[..k + 1]) == AwaitsOf(records, order[..k]) + Awaits(records[order[k]])
    ensures AwaitsOf(records, order[..k + 1]) <= AwaitsOf(records, order)
  {
    assert Front(order[..k + 1]) == order[..k];
    AwaitsMonotone(records, order, k + 1);
  }

  /** Before beacon `k` of the sweep, `n` awaits have been made, all resolved, with these replies. */
  ghost predicate Heeding(awaits: nat -> Await, records: map<Id, Record>, stale: seq<Id>, k: nat, n: nat,
                          replies: map<Id, bool>, now: map<Id, Record>) {
    && k <= |stale| && n == AwaitsOf(records, stale[..k]) && AllResolve(awaits, n)
    && Heeds(awaits, records, stale[..k], replies)
    && (forall i :: k <= i < |stale| ==> stale[i] in records && stale[i] in now && now[stale[i]] == records[stale[i]])
  }

  lemma HeedingBegins(awaits: nat -> Await, records: map<Id, Record>, stale: seq<Id>)
    requires forall id :: id in stale ==> id in records
    ensures Heeding(awaits, records, stale, 0, 0, map[], records)
  {
  }

  lemma HeededOne(awaits: nat -> Await, records: map<Id, Record>, stale: seq<Id>, k: nat, n: nat, n': nat,
                  replies: map<Id, bool>, acked: bool, now: map<Id, Record>)
    requires Distinct(stale) && Heeding(awaits, records, stale, k, n, replies, now) && k < |stale|
    requires n' == n + Awaits(records[stale[k]])
    requires records[stale[k]].listenTopic != "" ==> awaits(n) == Resolved(acked)
    requires records[stale[k]].broadcastTopic != "" ==> awaits(n' - 1).Resolved?
    ensures Heeding(awaits, records, stale, k + 1, n', replies[stale[k] := acked], now - {stale[k]})
  {
    AwaitsAdd(records, stale, k);
    var more := replies[stale[k] := acked];
    forall i | 0 <= i < k + 1 && stale[i] in records && records[stale[i]].listenTopic != ""
      ensures awaits(AwaitsOf(records, stale[..k + 1][..i])) == Resolved(Acked(more, stale[i]))
    {
      assert stale[..k + 1][..i] == stale[..i];
      if i < k {
        assert stale[..k][i] == stale[i] && stale[..k][..i] == stale[..i];
      }
    }
  }

  /** The first `k` of `stale` have been evicted since `s`, and the registry is now `view`. */
  predicate Evicting(s: State, stale: seq<Id>, k: nat, replies: map<Id, bool>, view: State) {
    && k <= |stale| && Distinct(stale)
    && (forall i :: k <= i < |stale| ==> stale[i] in view.records)
    && Taken(s, Evictions(stale[..k], replies))
    && RunFrom(s, Evictions(stale[..k], replies)) == view.(phase := Sweeping(stale[k..]))
  }

  lemma EvictingBegins(s: State, stale: seq<Id>)
    requires s.phase == Sweeping(stale) && Distinct(stale) && forall id :: id in stale ==> id in s.records
    ensures Evicting(s, stale, 0, map[], s.(phase := Idle))
  {
    assert stale[..0] == [] && stale[0..] == stale;
  }

  /** What the next loop body does comes after the evictions so far. */
  lemma EvictingMore(s: State, stale: seq<Id>, k: nat, replies: map<Id, bool>, view: State, steps: seq<Action>)
    requires Evicting(s, stale, k, replies, view) && k < |stale|
    requires Taken(view.(phase := Sweeping([stale[k]] + stale[k + 1..])), steps)
    ensures Taken(s, Evictions(stale[..k], replies) + steps)
    ensures RunFrom(s, Evictions(stale[..k], replies) + steps) == RunFrom(view.(phase := Sweeping([stale[k]] + stale[k + 1..])), steps)
  {
    assert stale[k..] == [stale[k]] + stale[k + 1..];
    TakenConcat(s, Evictions(stale[..k], replies), steps);
  }

  lemma EvictedOne(s: State, stale: seq<Id>, k: nat, replies: map<Id, bool>, acked: bool, before: State, view: State)
    requires Evicting(s, stale, k, replies, before) && k < |stale| && view.records == before.records - {stale[k]}
    requires var acts := Evictions(stale[..k], replies) + [Next, Unsubscribe(acked), Retain];
             Taken(s, acts) && RunFrom(s, acts) == view.(phase := Sweeping(stale[k + 1..]))
    ensures Evicting(s, stale, k + 1, replies[stale[k] := acked], view)
  {
    assert stale[..k + 1] == stale[..k] + [stale[k]] && stale[k] !in stale[..k];
    EvictionsAppend(stale[..k], stale[k], replies, acked);
  }

  lemma EvictingEnds(s: State, stale: seq<Id>, replies: map<Id, bool>, view: State)
    requires Evicting(s, stale, |stale|, replies, view) && view.phase.Idle?
    ensures var acts := Evictions(stale[..|stale|], replies) + [Next]; Taken(s, acts) && RunFrom(s, acts) == view
  {
    assert stale[|stale|..] == [];
    TakenAppend(s, Evictions(stale[..|stale|], replies), Next);
  }

  lemma {:induction false} EvictionsAreSweepSteps(order: seq<Id>, replies: map<Id, bool>)
    ensures forall a :: a in Evictions(order, replies) ==> SweepStep(a) && !a.Abandon?
  {
    if order != [] {
      EvictionsAreSweepSteps(order[1..], replies);
    }
  }

  lemma SweepShape(now: int, iteration: seq<Id>, rest: seq<Action>)
    requires forall a :: a in rest ==> SweepStep(a)
    ensures IsSweep([Tick(now, iteration)] + rest, now)
    ensures Abandons([Tick(now, iteration)] + rest) <==> Abandons(rest)
  {
    var acts := [Tick(now, iteration)] + rest;
    assert forall i :: 1 <= i < |acts| ==> acts[i] == rest[i - 1] && acts[i] in rest;
    if Abandons(rest) {
      var i :| 0 <= i < |rest| && rest[i].Abandon?;
      assert acts[i + 1].Abandon?;
    }
  }

  lemma EndOfSweep(order: seq<Id>, replies: map<Id, bool>, tail: seq<Action>)
    requires tail == [Next] || CutShort(tail)
    ensures forall a :: a in Evictions(order, replies) + tail ==> SweepStep(a)
    ensures Abandons(Evictions(order, replies) + tail) <==> tail != [Next]
  {
    EvictionsAreSweepSteps(order, replies);
    var rest := Evictions(order, replies) + tail;
    if tail == [Next] {
      assert forall i :: 0 <= i < |rest| ==> rest[i] in Evictions(order, replies) || rest[i] == Next;
    } else {
      assert rest[|rest| - 1] == Last(tail);
    }
  }

  /** A tick, the evictions that were completed, and how the sweep ended. */
  lemma SweepIsRun(s: State, now: int, iteration: seq<Id>, rest: seq<Action>)
    requires s.phase.Idle? && Enumerates(iteration, s.records)
    requires Taken(s.(phase := Sweeping(StaleIds(s.records, iteration, now))), rest)
    ensures Taken(s, [Tick(now, iteration)] + rest)
    ensures RunFrom(s, [Tick(now, iteration)] + rest) == RunFrom(s.(phase := Sweeping(StaleIds(s.records, iteration, now))), rest)
  {
    RunOneStep(s, Tick(now, iteration));
    TakenConcat(s, [Tick(now, iteration)], rest);
  }

  /** The actions of a sweep whose loop went as far as `done` and `tail` say. */
  lemma SweepRecorded(s: State, now: int, iteration: seq<Id>, done: nat, replies: map<Id, bool>, tail: seq<Action>, completed: bool, after: State)
    returns (acts: seq<Action>)
    requires s.phase.Idle? && Enumerates(iteration, s.records)
    requires var stale := StaleIds(s.records, iteration, now);
             && done <= |stale| && (if completed then done == |stale| && tail == [Next] else CutShort(tail))
             && var t, rest := s.(phase := Sweeping(stale)), Evictions(stale[..done], replies) + tail;
                Taken(t, rest) && RunFrom(t, rest) == after
    ensures IsSweep(acts, now) && acts[0] == Tick(now, iteration) && Taken(s, acts) && RunFrom(s, acts) == after
    ensures completed <==> !Abandons(acts)
    ensures completed ==> after == Cleared(s, Silent(s.records, now), replies)
  {
    var stale := StaleIds(s.records, iteration, now);
    var rest := Evictions(stale[..done], replies) + tail;
    acts := [Tick(now, iteration)] + rest;
    EndOfSweep(stale[..done], replies, tail);
    SweepShape(now, iteration, rest);
    SweepIsRun(s, now, iteration, rest);
    if completed {
      assert stale[..done] == stale;
      assert acts == SweepScript(s.records, now, iteration, replies);
      SweepRemovesExactlyTheSilent(s, now, iteration, replies);
    }
  }

  /** The state a dropped sweep leaves: the record and its sender are gone, nothing else is. */
  function AfterDrop(s: State, id: Id, subs: set<string>): State
    requires id in s.records
  {
    State(s.records - {id}, s.known, s.topics, subs, s.dialled, s.live - Senders(s.records[id].sender), Idle)
  }

  lemma DroppedAtUnsubscribe(s: State, id: Id, queued: bool)
    requires s.phase.Sweeping? && s.phase.rest != [] && s.phase.rest[0] == id && id in s.records
    requires s.records[id].listenTopic != ""
    ensures RunFrom(s, [Next, Abandon(queued)])
         == AfterDrop(s, id, if queued then s.subs - {s.records[id].listenTopic} else s.subs)
    ensures Taken(s, [Next, Abandon(queued)])
  {
    RunOneStep(s, Next);
    TakenAppend(s, [Next], Abandon(queued));
    assert [Next] + [Abandon(queued)] == [Next, Abandon(queued)];
  }

  lemma DroppedAtRetain(s: State, id: Id, acked: bool, queued: bool)
    requires s.phase.Sweeping? && s.phase.rest != [] && s.phase.rest[0] == id && id in s.records
    requires s.records[id].broadcastTopic != ""
    ensures var l := s.records[id].listenTopic; (
            RunFrom(s, [Next, Unsubscribe(acked), Abandon(queued)])
         == AfterDrop(s, id, if acked && l != "" then s.subs - {l} else s.subs))
    ensures Taken(s, [Next, Unsubscribe(acked), Abandon(queued)])
  {
    RunOneStep(s, Next);
    TakenAppend(s, [Next], Unsubscribe(acked));
    TakenAppend(s, [Next] + [Unsubscribe(acked)], Abandon(queued));
    assert [Next] + [Unsubscribe(acked)] == [Next, Unsubscribe(acked)];
    assert [Next, Unsubscribe(acked)] + [Abandon(queued)] == [Next, Unsubscribe(acked), Abandon(queued)];
  }

  /**
   What the select yields on one turn of the loop. `SessionDropped` is the broker session being
   lost between two turns; one lost during a sweep leaves what one lost right after it does.
   */
  datatype Event =
    | ChannelReceived(now: int, channel: TopicChannel, subscribed: bool)
    | TimeoutBranch(now: int, awaits: nat -> Await)
    | Inbound(now: int, topic: string, advertised: Option<Url>)
    | SessionDropped
    | InboundClosed

  /** `block` is what the machine does for `e`; it abandons a sweep only if one of its awaits is dropped. */
  ghost predicate Explains(e: Event, block: seq<Action>) {
    match e
    case ChannelReceived(now, channel, subscribed) => block == [Register(now, channel, subscribed)]
    case TimeoutBranch(now, awaits) => IsSweep(block, now) && (Abandons(block) ==> SomeDropped(awaits))
    case Inbound(now, topic, advertised) => block == [Message(now, topic, advertised)]
    case SessionDropped => block == [SessionLost]
    case InboundClosed => false
  }

  lemma RunOneStep(s: State, a: Action)
    ensures RunFrom(s, [a]) == Step(s, a)
    ensures Enabled(s, a) ==> Taken(s, [a])
  {
    assert Front([a]) == [];
    assert RunFrom(s, []) == s;
  }
}
