/**
 What registering a channel and processing a message do, field by field, at any point of any
 run at which the loop can take them.
 */
module RegistryOutcomes {
  import opened Common
  import opened Registry
  import opened RegistryGateways
  import opened RegistryTopics
  import opened SessionLoss

  /** No gateway field, connection or known URL differs. */
  predicate SameGateways(s: State, t: State) {
    && t.known == s.known && t.dialled == s.dialled && t.live == s.live
    && (forall id :: id in s.records && id in t.records ==>
          t.records[id].gatewayUrl == s.records[id].gatewayUrl && t.records[id].sender == s.records[id].sender)
  }

  /** The record a channel is registered on: the beacon's, or a new one heard now with nothing in it. */
  function RecordFor(s: State, id: Id, now: int): Record {
    if id in s.records then s.records[id] else Record("", "", now, None, None)
  }

  /**
   Registering a channel, for all three types: a confirmed listening channel is subscribed and
   noted; a broadcasting one is listed and noted; of an existing record nothing else changes, in
   particular not when it was last heard; no other record, and no gateway, is touched.
   */
  lemma RegisterOutcome(own: Option<Url>, subs: set<string>, acts: seq<Action>, now: int, ch: TopicChannel, confirmed: bool)
    requires Run(own, subs, acts).phase.Idle?
    ensures var s, t := Run(own, subs, acts), Run(own, subs, acts + [Register(now, ch, confirmed)]);
            var listens := !ch.topicType.Broadcast? && confirmed;
            var broadcasts := ch.topicType.Broadcast? || (ch.topicType.Hybrid? && confirmed);
            var r := RecordFor(s, ch.beaconId, now);
            && t.records.Keys == s.records.Keys + {ch.beaconId}
            && (forall id :: id in s.records && id != ch.beaconId ==> t.records[id] == s.records[id])
            && t.records[ch.beaconId] == r.(listenTopic := if listens then ch.topic else r.listenTopic,
                                            broadcastTopic := if broadcasts then ch.topic else r.broadcastTopic)
            && t.subs == s.subs + (if listens then {ch.topic} else {})
            && t.topics == s.topics + (if broadcasts then [ch.topic] else [])
            && SameGateways(s, t) && t.phase.Idle?
  {
    RunFromAppend(Init(own, subs), acts, Register(now, ch, confirmed));
  }

  /** Everything but the gateways: only the sender's `lastSeen` moves, to now. */
  predicate OnlyHeard(s: State, t: State, topic: string, now: int) {
    && t.records.Keys == s.records.Keys && t.subs == s.subs && t.topics == s.topics && t.phase == s.phase
    && (forall id :: id in s.records ==>
          && t.records[id].listenTopic == s.records[id].listenTopic
          && t.records[id].broadcastTopic == s.records[id].broadcastTopic
          && t.records[id].lastSeen == if topic == Rec(id) then now else s.records[id].lastSeen)
  }

  /** A new URL is dialled and known, and its connection handed to beacon `id`, whose old one dies. */
  predicate HandsOver(s: State, t: State, id: Id, url: Url)
    requires id in s.records && t.records.Keys == s.records.Keys
  {
    && t.dialled == s.dialled + [url] && t.known == s.known + {url}
    && t.records[id].gatewayUrl == Some(url) && t.records[id].sender == Some(|s.dialled|)
    && t.live == s.live - Senders(s.records[id].sender) + {|s.dialled|}
    && (forall other :: other in s.records && other != id ==>
          t.records[other].gatewayUrl == s.records[other].gatewayUrl && t.records[other].sender == s.records[other].sender)
  }

  lemma TouchOutcome(s: State, topic: string, now: int)
    ensures var t := Touch(s, StripRec(topic), now); OnlyHeard(s, t, topic, now) && SameGateways(s, t)
  {
    forall id | id in s.records ensures StripRec(topic) == Some(id) <==> topic == Rec(id) {
      StripRecMeans(topic, id);
    }
  }

  lemma HandOver(own: Option<Url>, s: State, id: Id, url: Url)
    requires GatewaysOk(own, s) && s.phase.Idle? && id in s.records
    ensures var t := ConnectAdvertised(s, Some(id), url);
            t.records.Keys == s.records.Keys && HandsOver(s, t, id, url)
  {
    assert Held(s)[id] == s.records[id] && RecordOk(s, own, Held(s)[id]);
  }

  lemma DropAtOnce(own: Option<Url>, s: State, from: Option<Id>, url: Url)
    requires GatewaysOk(own, s) && s.phase.Idle? && (from.Some? ==> from.value !in s.records)
    ensures ConnectAdvertised(s, from, url) == s.(known := s.known + {url}, dialled := s.dialled + [url])
  {
    forall c | c in s.live ensures c < |s.dialled| {
      assert Owns(s, c);
      var id :| id in Held(s) && Held(s)[id].sender == Some(c);
      assert RecordOk(s, own, Held(s)[id]);
    }
  }

  lemma ConnectKeepsTheRest(s: State, from: Option<Id>, url: Url)
    ensures var t := ConnectAdvertised(s, from, url);
            && t.records.Keys == s.records.Keys && t.subs == s.subs && t.topics == s.topics && t.phase == s.phase
            && (forall id :: id in s.records ==>
                  && t.records[id].listenTopic == s.records[id].listenTopic
                  && t.records[id].broadcastTopic == s.records[id].broadcastTopic
                  && t.records[id].lastSeen == s.records[id].lastSeen)
  {
  }

  /** A message's sender, if registered, was heard now, whatever the message says; a known URL changes nothing more. */
  lemma MessageOutcome(own: Option<Url>, subs: set<string>, acts: seq<Action>, now: int, topic: string, advertised: Option<Url>)
    requires Run(own, subs, acts).phase.Idle?
    ensures var s, t := Run(own, subs, acts), Run(own, subs, acts + [Message(now, topic, advertised)]);
            && OnlyHeard(s, t, topic, now)
            && (advertised.None? || advertised.value in s.known ==> SameGateways(s, t))
  {
    var s := Run(own, subs, acts);
    RunFromAppend(Init(own, subs), acts, Message(now, topic, advertised));
    TouchOutcome(s, topic, now);
    if advertised.Some? && advertised.value !in s.known {
      ConnectKeepsTheRest(Touch(s, StripRec(topic), now), StripRec(topic), advertised.value);
    }
  }

  /** A new URL from a registered beacon is dialled, becomes known, and its connection is that beacon's. */
  lemma AdvertOutcome(own: Option<Url>, subs: set<string>, acts: seq<Action>, now: int, id: Id, url: Url)
    requires Run(own, subs, acts).phase.Idle? && id in Run(own, subs, acts).records && url !in Run(own, subs, acts).known
    ensures var s, t := Run(own, subs, acts), Run(own, subs, acts + [Message(now, Rec(id), Some(url))]);
            t.records.Keys == s.records.Keys && HandsOver(s, t, id, url)
  {
    var s := Run(own, subs, acts);
    RunFromAppend(Init(own, subs), acts, Message(now, Rec(id), Some(url)));
    RunKeepsGateways(own, subs, acts);
    RecStrips(id);
    TouchLeaksNothing(own, s, Some(id), now);
    HandOver(own, Touch(s, Some(id), now), id, url);
  }

  /** A new URL from anybody else is dialled and becomes known, and its connection is dropped at once. */
  lemma StrayAdvertOutcome(own: Option<Url>, subs: set<string>, acts: seq<Action>, now: int, topic: string, url: Url)
    requires Run(own, subs, acts).phase.Idle? && url !in Run(own, subs, acts).known
    requires forall id :: id in Run(own, subs, acts).records ==> topic != Rec(id)
    ensures var s, t := Run(own, subs, acts), Run(own, subs, acts + [Message(now, topic, Some(url))]);
            t == s.(known := s.known + {url}, dialled := s.dialled + [url])
  {
    var s, from := Run(own, subs, acts), StripRec(topic);
    RunFromAppend(Init(own, subs), acts, Message(now, topic, Some(url)));
    RunKeepsGateways(own, subs, acts);
    if from.Some? {
      StripRecMeans(topic, from.value);
    }
    DropAtOnce(own, s, from, url);
  }

  /** The sweep waits for the reply to its unsubscribe request, or for the lock of the broadcast list. */
  predicate AtAwait(phase: Phase) {
    match phase
    case AtUnsubscribe(_, _, r) => r.listenTopic != ""
    case AtRetain(_, _, r) => r.broadcastTopic != ""
    case _ => false
  }

  /**
   Only at an await can a sweep be dropped. With it goes the record it held, whose connection
   dies; its URL stays known and its topic listed, and its subscription is given up only if the
   request was on its way.
   */
  lemma AbandonOutcome(own: Option<Url>, subs: set<string>, acts: seq<Action>, queued: bool)
    ensures var s, t := Run(own, subs, acts), Run(own, subs, acts + [Abandon(queued)]);
            if !AtAwait(s.phase) then t == s
            else
              && t.phase.Idle? && t.records == s.records
              && t.known == s.known && t.topics == s.topics && t.dialled == s.dialled
              && t.live == s.live - Senders(s.phase.record.sender)
              && t.subs == if s.phase.AtUnsubscribe? && queued then s.subs - {s.phase.record.listenTopic} else s.subs
  {
    RunFromAppend(Init(own, subs), acts, Abandon(queued));
  }
}
