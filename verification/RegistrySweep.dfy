/**
 An uninterrupted timeout sweep: whatever order the hash map yields its keys in, it removes
 exactly the beacons that have been silent for too long and touches nothing of the others.
 */
module RegistrySweep {
  import opened Common
  import opened Registry
  import opened RegistryGateways
  import opened RegistryTopics

  function AsSet(ids: seq<Id>): set<Id> {
    set id | id in ids
  }

  /** The broker's reply to the unsubscribe request made for `id`. */
  predicate Acked(replies: map<Id, bool>, id: Id) {
    id in replies && replies[id]
  }

  function Evictions(order: seq<Id>, replies: map<Id, bool>): seq<Action> {
    if order == [] then []
    else [Next, Unsubscribe(Acked(replies, order[0])), Retain] + Evictions(order[1..], replies)
  }

  /** The actions of one sweep that is never dropped. */
  function SweepScript(records: map<Id, Record>, now: int, iteration: seq<Id>, replies: map<Id, bool>): seq<Action> {
    [Tick(now, iteration)] + Evictions(StaleIds(records, iteration, now), replies) + [Next]
  }

  function Silent(records: map<Id, Record>, now: int): set<Id> {
    set id | id in records && now - records[id].lastSeen > BEACON_TIMEOUT
  }

  function WithoutAll(topics: seq<string>, gone: set<string>): seq<string> {
    if topics == [] then []
    else
      var rest := WithoutAll(topics[1..], gone);
      if topics[0] in gone then rest else [topics[0]] + rest
  }

  function UrlsOf(records: map<Id, Record>, gone: set<Id>): set<Url> {
    set id | id in gone && id in records && records[id].gatewayUrl.Some? :: records[id].gatewayUrl.value
  }

  function SendersOf(records: map<Id, Record>, gone: set<Id>): set<nat> {
    set id | id in gone && id in records && records[id].sender.Some? :: records[id].sender.value
  }

  function BroadcastsOf(records: map<Id, Record>, gone: set<Id>): set<string> {
    set id | id in gone && id in records && records[id].broadcastTopic != "" :: records[id].broadcastTopic
  }

  function ListensOf(records: map<Id, Record>, gone: set<Id>, replies: map<Id, bool>): set<string> {
    set id | id in gone && id in records && Acked(replies, id) && records[id].listenTopic != "" :: records[id].listenTopic
  }

  /** `s` with the beacons `gone` deregistered: stated without any order. */
  function Cleared(s: State, gone: set<Id>, replies: map<Id, bool>): State {
    State(s.records - gone,
          s.known - UrlsOf(s.records, gone),
          WithoutAll(s.topics, BroadcastsOf(s.records, gone)),
          s.subs - ListensOf(s.records, gone, replies),
          s.dialled,
          s.live - SendersOf(s.records, gone),
          Idle)
  }

  lemma {:induction false} WithoutThenAll(topics: seq<string>, x: string, gone: set<string>)
    ensures WithoutAll(Without(topics, x), gone) == WithoutAll(topics, gone + {x})
  {
    if topics != [] {
      WithoutThenAll(topics[1..], x, gone);
    }
  }

  lemma {:induction false} WithoutNone(topics: seq<string>)
    ensures WithoutAll(topics, {}) == topics
  {
    if topics != [] {
      WithoutNone(topics[1..]);
    }
  }

  lemma {:induction false} WithoutAllMeans(topics: seq<string>, gone: set<string>)
    ensures forall t :: t in WithoutAll(topics, gone) <==> t in topics && t !in gone
  {
    if topics != [] {
      WithoutAllMeans(topics[1..], gone);
      assert topics == [topics[0]] + topics[1..];
    }
  }

  lemma {:induction false} StaleIdsMeans(records: map<Id, Record>, iteration: seq<Id>, now: int)
    requires Distinct(iteration)
    ensures forall id :: id in StaleIds(records, iteration, now)
                    <==> id in iteration && id in records && IsStale(records[id], now)
    ensures Distinct(StaleIds(records, iteration, now))
  {
    if iteration != [] {
      assert iteration[0] !in iteration[1..];
      assert Distinct(iteration[1..]);
      StaleIdsMeans(records, iteration[1..], now);
      var rest := StaleIds(records, iteration[1..], now);
      assert iteration == [iteration[0]] + iteration[1..];
      assert forall i :: 0 <= i < |rest| ==> rest[i] in rest;
    }
  }

  /** One iteration of the sweep's loop body, run to the end. */
  function Evicted(s: State, id: Id, ok: bool): State
    requires s.phase.Sweeping? && s.phase.rest != [] && s.phase.rest[0] == id && id in s.records
  {
    var r := s.records[id];
    State(s.records - {id},
          s.known - UrlSet(r.gatewayUrl),
          if r.broadcastTopic != "" then Without(s.topics, r.broadcastTopic) else s.topics,
          if ok && r.listenTopic != "" then s.subs - {r.listenTopic} else s.subs,
          s.dialled,
          s.live - Senders(r.sender),
          Sweeping(s.phase.rest[1..]))
  }

  lemma EvictionSteps(s: State, ok: bool)
    requires s.phase.Sweeping? && s.phase.rest != [] && s.phase.rest[0] in s.records
    ensures RunFrom(s, [Next, Unsubscribe(ok), Retain]) == Evicted(s, s.phase.rest[0], ok)
    ensures Taken(s, [Next, Unsubscribe(ok), Retain])
  {
    TakenAppend(s, [], Next);
    TakenAppend(s, [] + [Next], Unsubscribe(ok));
    TakenAppend(s, [] + [Next] + [Unsubscribe(ok)], Retain);
    assert [] + [Next] + [Unsubscribe(ok)] + [Retain] == [Next, Unsubscribe(ok), Retain];
  }

  /** Deregistering one beacon and then `gone` is deregistering all of them. */
  lemma ClearedAfterOne(s: State, id: Id, gone: set<Id>, replies: map<Id, bool>)
    requires s.phase.Sweeping? && s.phase.rest != [] && s.phase.rest[0] == id && id in s.records
    requires id !in gone
    ensures Cleared(Evicted(s, id, Acked(replies, id)), gone, replies) == Cleared(s, gone + {id}, replies)
  {
    var t := Evicted(s, id, Acked(replies, id));
    var r := s.records[id];
    assert t.records - gone == s.records - (gone + {id});
    assert UrlsOf(s.records, gone + {id}) == UrlsOf(t.records, gone) + UrlSet(r.gatewayUrl);
    assert SendersOf(s.records, gone + {id}) == SendersOf(t.records, gone) + Senders(r.sender);
    ClearedTopicsAfterOne(s, id, gone);
    ClearedSubsAfterOne(s, id, gone, replies);
  }

  lemma ClearedTopicsAfterOne(s: State, id: Id, gone: set<Id>)
    requires id in s.records && id !in gone
    ensures var b := s.records[id].broadcastTopic; (
            WithoutAll(if b != "" then Without(s.topics, b) else s.topics, BroadcastsOf(s.records - {id}, gone))
         == WithoutAll(s.topics, BroadcastsOf(s.records, gone + {id})))
  {
    var b := s.records[id].broadcastTopic;
    var rest := BroadcastsOf(s.records - {id}, gone);
    if b != "" {
      assert BroadcastsOf(s.records, gone + {id}) == rest + {b};
      WithoutThenAll(s.topics, b, rest);
    } else {
      assert BroadcastsOf(s.records, gone + {id}) == rest;
    }
  }

  lemma ClearedSubsAfterOne(s: State, id: Id, gone: set<Id>, replies: map<Id, bool>)
    requires id in s.records && id !in gone
    ensures var l := s.records[id].listenTopic; (
            (if Acked(replies, id) && l != "" then s.subs - {l} else s.subs) - ListensOf(s.records - {id}, gone, replies)
         == s.subs - ListensOf(s.records, gone + {id}, replies))
  {
    var l := s.records[id].listenTopic;
    assert ListensOf(s.records, gone + {id}, replies)
        == ListensOf(s.records - {id}, gone, replies) + (if Acked(replies, id) && l != "" then {l} else {});
  }

  lemma ClearedNone(s: State, replies: map<Id, bool>)
    ensures Cleared(s, {}, replies) == s.(phase := Idle)
  {
    WithoutNone(s.topics);
    assert BroadcastsOf(s.records, {}) == {} && ListensOf(s.records, {}, replies) == {};
    assert UrlsOf(s.records, {}) == {} && SendersOf(s.records, {}) == {};
    assert s.records - {} == s.records;
  }

  lemma {:induction false} EvictionsClear(s: State, order: seq<Id>, replies: map<Id, bool>)
    requires s.phase == Sweeping(order) && Distinct(order)
    requires forall id :: id in order ==> id in s.records
    ensures RunFrom(s, Evictions(order, replies)) == Cleared(s, AsSet(order), replies).(phase := Sweeping([]))
    decreases order
  {
    if order == [] {
      ClearedNone(s, replies);
      assert AsSet(order) == {};
    } else {
      var id := order[0];
      var t := Evicted(s, id, Acked(replies, id));
      assert id !in order[1..] && Distinct(order[1..]);
      EvictionSteps(s, Acked(replies, id));
      RunFromConcat(s, [Next, Unsubscribe(Acked(replies, id)), Retain], Evictions(order[1..], replies));
      EvictionsClear(t, order[1..], replies);
      ClearedAfterOne(s, id, AsSet(order[1..]), replies);
      assert AsSet(order) == AsSet(order[1..]) + {id};
    }
  }

  /**
   A sweep that is not dropped deregisters exactly the beacons silent for more than the
   timeout; the result does not depend on the order the map yields its keys in.
   */
  lemma SweepRemovesExactlyTheSilent(s: State, now: int, iteration: seq<Id>, replies: map<Id, bool>)
    requires s.phase.Idle? && Enumerates(iteration, s.records)
    ensures RunFrom(s, SweepScript(s.records, now, iteration, replies)) == Cleared(s, Silent(s.records, now), replies)
  {
    var order := StaleIds(s.records, iteration, now);
    StaleIdsMeans(s.records, iteration, now);
    assert AsSet(order) == Silent(s.records, now);
    var t := s.(phase := Sweeping(order));
    var tick := [Tick(now, iteration)];
    assert Front(tick) == [];
    assert RunFrom(s, []) == s;
    assert RunFrom(s, tick) == t;
    EvictionsClear(t, order, replies);
    assert Cleared(t, AsSet(order), replies) == Cleared(s, AsSet(order), replies);
    RunFromConcat(s, tick, Evictions(order, replies));
    RunFromAppend(s, tick + Evictions(order, replies), Next);
  }

  /** What a beacon relies on: its record, its topics, its gateway and its connection. */
  ghost predicate Undisturbed(s: State, t: State, id: Id)
    requires id in s.records
  {
    var r := s.records[id];
    && id in t.records && t.records[id] == r
    && (r.broadcastTopic in s.topics ==> r.broadcastTopic in t.topics)
    && (r.gatewayUrl.Some? ==> r.gatewayUrl.value in t.known)
    && (r.sender.Some? ==> r.sender.value in t.live)
    && (r.listenTopic in s.subs ==> r.listenTopic in t.subs)
  }

  /**
   In every run made of handshakes, a completed sweep disturbs no surviving beacon and no
   subscription outside the `/rec` topics; in particular not the required ones.
   */
  lemma SurvivorsAreUndisturbed(own: Option<Url>, subs: set<string>, acts: seq<Action>, now: int, replies: map<Id, bool>)
    requires FromHandshakes(acts) && Run(own, subs, acts).phase.Idle?
    ensures var s := Run(own, subs, acts);
            var t := Cleared(s, Silent(s.records, now), replies);
            && (forall id :: id in s.records && now - s.records[id].lastSeen <= BEACON_TIMEOUT ==> Undisturbed(s, t, id))
            && (forall x :: x in s.subs && StripRec(x) == None ==> x in t.subs)
            && ("registration" in s.subs ==> "registration" in t.subs)
            && ("key-bridge" in s.subs ==> "key-bridge" in t.subs)
  {
    var s := Run(own, subs, acts);
    var gone := Silent(s.records, now);
    var t := Cleared(s, gone, replies);
    RunKeepsGateways(own, subs, acts);
    RunTopics(own, subs, acts);
    assert Held(s) == s.records;
    forall id | id in s.records && id !in gone ensures Undisturbed(s, t, id) {
      SurvivorUndisturbed(own, s, gone, replies, id);
    }
    forall x | x in s.subs && StripRec(x) == None ensures x in t.subs {
      forall id | id in gone && s.records[id].listenTopic != "" ensures s.records[id].listenTopic != x {
        RecStrips(id);
      }
    }
    assert StripRec("registration") == None && StripRec("key-bridge") == None;
  }

  lemma SurvivorUndisturbed(own: Option<Url>, s: State, gone: set<Id>, replies: map<Id, bool>, id: Id)
    requires GatewaysOk(own, s) && TopicsOk(s) && s.phase.Idle? && id in s.records && id !in gone
    ensures Undisturbed(s, Cleared(s, gone, replies), id)
  {
    var r := s.records[id];
    assert Held(s) == s.records && RecordOk(s, own, Held(s)[id]);
    WithoutAllMeans(s.topics, BroadcastsOf(s.records, gone));
    forall g | g in gone && g in s.records
      ensures s.records[g].broadcastTopic != "" ==> s.records[g].broadcastTopic != r.broadcastTopic
      ensures s.records[g].listenTopic != "" ==> s.records[g].listenTopic != r.listenTopic
      ensures r.gatewayUrl.Some? ==> s.records[g].gatewayUrl != r.gatewayUrl && s.records[g].sender != r.sender
    {
      CastIsInjective(g, id);
      RecStrips(g);
      RecStrips(id);
      assert RecordOk(s, own, Held(s)[g]);
    }
  }

  /** A registered beacon that advertises an unknown gateway gets a live connection of its own. */
  lemma AdvertConnects(s: State, now: int, id: Id, url: Url)
    requires s.phase.Idle? && id in s.records && url !in s.known
    requires s.records[id].sender.Some? ==> s.records[id].sender.value < |s.dialled|
    ensures var t := ProcessMessage(s, now, Rec(id), Some(url)); var c := |s.dialled|;
            && t.dialled == s.dialled + [url] && c in t.live && url in t.known
            && t.records.Keys == s.records.Keys
            && t.records[id].sender == Some(c) && t.records[id].gatewayUrl == Some(url) && t.records[id].lastSeen == now
            && (forall other :: other in s.records && other != id ==> t.records[other] == s.records[other])
  {
    RecStrips(id);
  }

  /**
   Evicting a timed-out beacon's gateway lets a later beacon reconnect through it: after any
   run, a completed sweep makes the URL of a deregistered beacon connectable again.
   */
  lemma EvictedGatewayCanReconnect(
      own: Option<Url>, subs: set<string>, acts: seq<Action>, now: int, replies: map<Id, bool>,
      gone: Id, url: Url, id: Id, later: int)
    requires Run(own, subs, acts).phase.Idle?
    requires var s := Run(own, subs, acts); gone in Silent(s.records, now) && s.records[gone].gatewayUrl == Some(url)
    requires id in Cleared(Run(own, subs, acts), Silent(Run(own, subs, acts).records, now), replies).records
    ensures var s := Run(own, subs, acts);
            var t := Cleared(s, Silent(s.records, now), replies);
            var u := ProcessMessage(t, later, Rec(id), Some(url));
            && url !in t.known && own != Some(url)
            && |t.dialled| in u.live && u.dialled == t.dialled + [url] && u.records[id].sender == Some(|t.dialled|)
  {
    var s := Run(own, subs, acts);
    var t := Cleared(s, Silent(s.records, now), replies);
    RunKeepsGateways(own, subs, acts);
    assert Held(s)[gone] == s.records[gone] && RecordOk(s, own, Held(s)[gone]);
    assert Held(s)[id] == s.records[id] && RecordOk(s, own, Held(s)[id]);
    assert url in UrlsOf(s.records, Silent(s.records, now));
    AdvertConnects(t, later, id, url);
  }
}
