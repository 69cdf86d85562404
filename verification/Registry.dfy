/**
 The beacon registry and the message loop that drives it, as a state machine.

 The loop is a three-way select. Registering a channel and processing an inbound message
 run to completion once chosen. The timeout sweep is itself a select branch, so it may be
 dropped at either of its awaits; it is therefore split into micro steps, with an `Abandon`
 step that is enabled exactly where the sweep is suspended.

 Everything the environment decides (the clock, the order in which the hash map yields its
 keys, replies of the MQTT client, what the beacons publish) is a parameter of an action. The
 MQTT client connects with a clean session and subscribes to nothing again when it reconnects,
 so the broker may forget every subscription at any moment, which is `SessionLost`.
 */
module Registry {
  import opened Common

  type Id = string
  type Url = string

  // Instants are integer nanoseconds.
  const SECOND: int := 1_000_000_000
  const BEACON_TIMEOUT: int := 120 * SECOND
  const CHECK_INTERVAL: int := 30 * SECOND

  /** `sender` is the connection whose one-shot shutdown sender this record owns. */
  datatype Record = Record(
    listenTopic: string,
    broadcastTopic: string,
    lastSeen: int,
    gatewayUrl: Option<Url>,
    sender: Option<nat>)

  datatype TopicType = Listen | Broadcast | Hybrid

  datatype TopicChannel = TopicChannel(beaconId: Id, topic: string, topicType: TopicType)

  /**
   Where the loop is. In the last two phases `record` has left the map and is owned by the
   sweep's local variable.
   */
  datatype Phase =
    | Idle
    | Sweeping(rest: seq<Id>)
    | AtUnsubscribe(rest: seq<Id>, id: Id, record: Record)
    | AtRetain(rest: seq<Id>, id: Id, record: Record)
  {
    predicate InFlight() {
      AtUnsubscribe? || AtRetain?
    }
  }

  /**
   `dialled[c]` is the URL connection `c` was opened for; `live` holds the connections whose
   shutdown sender has not been dropped; `subs` are the subscriptions of our broker session,
   where a request the MQTT client confirmed counts as carried out.
   */
  datatype State = State(
    records: map<Id, Record>,
    known: set<Url>,
    topics: seq<string>,
    subs: set<string>,
    dialled: seq<Url>,
    live: set<nat>,
    phase: Phase)

  datatype Action =
    | Register(now: int, channel: TopicChannel, subscribed: bool)
    | Message(now: int, topic: string, advertised: Option<Url>)
    | Tick(now: int, iteration: seq<Id>)
    | Next
    | Unsubscribe(ok: bool)
    | Retain
    | Abandon(queued: bool)
    | SessionLost

  function UrlSet(url: Option<Url>): set<Url> {
    if url.Some? then {url.value} else {}
  }

  function Init(own: Option<Url>, subs: set<string>): State {
    State(map[], UrlSet(own), [], subs, [], {}, Idle)
  }

  /** `str::strip_suffix("/rec")`. */
  function StripRec(topic: string): Option<Id> {
    if |topic| >= 4 && topic[|topic| - 4..] == "/rec" then Some(topic[..|topic| - 4]) else None
  }

  function NewRecord(now: int): Record {
    Record("", "", now, None, None)
  }

  function Entry(records: map<Id, Record>, id: Id, now: int): (r: map<Id, Record>)
    ensures id in r
  {
    if id in records then records else records[id := NewRecord(now)]
  }

  function RegisterChannel(s: State, now: int, ch: TopicChannel, subscribed: bool): State {
    var recs := Entry(s.records, ch.beaconId, now);
    var r := recs[ch.beaconId];
    match ch.topicType
    case Listen =>
      if subscribed
      then s.(records := recs[ch.beaconId := r.(listenTopic := ch.topic)], subs := s.subs + {ch.topic})
      else s.(records := recs)
    case Broadcast =>
      s.(records := recs[ch.beaconId := r.(broadcastTopic := ch.topic)], topics := s.topics + [ch.topic])
    case Hybrid =>
      if subscribed
      then s.(records := recs[ch.beaconId := r.(listenTopic := ch.topic, broadcastTopic := ch.topic)],
              subs := s.subs + {ch.topic},
              topics := s.topics + [ch.topic])
      else s.(records := recs)
  }

  function UpdateLastSeen(s: State, id: Id, now: int): State {
    if id in s.records
    then s.(records := s.records[id := s.records[id].(lastSeen := now)])
    else s
  }

  function Touch(s: State, from: Option<Id>, now: int): State {
    if from.Some? then UpdateLastSeen(s, from.value, now) else s
  }

  function Senders(sender: Option<nat>): set<nat> {
    if sender.Some? then {sender.value} else {}
  }

  /** Dropping a one-shot sender closes the connection it belongs to. */
  function DropSender(s: State, sender: Option<nat>): State {
    s.(live := s.live - Senders(sender))
  }

  /** Overwriting the record's sender drops the previous one; without a record the new one is dropped. */
  function AssociateGateway(s: State, id: Id, url: Url, conn: nat): State {
    if id in s.records
    then var t := DropSender(s, s.records[id].sender);
         t.(records := s.records[id := s.records[id].(gatewayUrl := Some(url), sender := Some(conn))])
    else DropSender(s, Some(conn))
  }

  /** `insert_gateway` followed by `connect_to_gateway`: connection number |s.dialled| comes alive. */
  function Dial(s: State, url: Url): State {
    s.(known := s.known + {url}, dialled := s.dialled + [url], live := s.live + {|s.dialled|})
  }

  /** A URL not yet known is dialled and tied to the beacon that advertised it, if there is one. */
  function ConnectAdvertised(s: State, from: Option<Id>, url: Url): State {
    if from.Some? then AssociateGateway(Dial(s, url), from.value, url, |s.dialled|)
    else DropSender(Dial(s, url), Some(|s.dialled|))
  }

  function ProcessMessage(s: State, now: int, topic: string, advertised: Option<Url>): State {
    var from := StripRec(topic);
    var s1 := Touch(s, from, now);
    if advertised.None? || advertised.value in s1.known then s1
    else ConnectAdvertised(s1, from, advertised.value)
  }

  predicate IsStale(r: Record, now: int) {
    now - r.lastSeen > BEACON_TIMEOUT
  }

  /** The ids of `iteration` that are stale at `now`, in that order. */
  function StaleIds(records: map<Id, Record>, iteration: seq<Id>, now: int): seq<Id> {
    if iteration == [] then []
    else
      var rest := StaleIds(records, iteration[1..], now);
      if iteration[0] in records && IsStale(records[iteration[0]], now) then [iteration[0]] + rest else rest
  }

  predicate Distinct(ids: seq<string>) {
    forall i, j :: 0 <= i < j < |ids| ==> ids[i] != ids[j]
  }

  /** `ids` is an order in which the hash map may yield its keys. */
  predicate Enumerates(ids: seq<Id>, records: map<Id, Record>) {
    Distinct(ids) && (forall id :: id in ids ==> id in records) && (forall id :: id in records ==> id in ids)
  }

  /** `Vec::retain(|t| t != topic)`. */
  function Without(topics: seq<string>, topic: string): seq<string> {
    if topics == [] then []
    else
      var rest := Without(topics[1..], topic);
      if topics[0] == topic then rest else [topics[0]] + rest
  }

  /** Removes the next stale record from the map, or ends the sweep. */
  function TakeNext(s: State): State
    requires s.phase.Sweeping?
  {
    var rest := s.phase.rest;
    if rest == [] then s.(phase := Idle)
    else if rest[0] !in s.records then s.(phase := Sweeping(rest[1..]))
    else s.(records := s.records - {rest[0]},
            phase := AtUnsubscribe(rest[1..], rest[0], s.records[rest[0]]))
  }

  /** The reply to the unsubscribe request; no request is made for an empty listen topic. */
  function Unsubscribed(s: State, ok: bool): State
    requires s.phase.AtUnsubscribe?
  {
    var r := s.phase.record;
    s.(subs := if ok && r.listenTopic != "" then s.subs - {r.listenTopic} else s.subs,
       phase := AtRetain(s.phase.rest, s.phase.id, r))
  }

  /** The rest of the loop body: broadcast list, known gateways, and the record is dropped. */
  function Retained(s: State): State
    requires s.phase.AtRetain?
  {
    var r := s.phase.record;
    DropSender(s.(topics := if r.broadcastTopic != "" then Without(s.topics, r.broadcastTopic) else s.topics,
                  known := s.known - UrlSet(r.gatewayUrl),
                  phase := Sweeping(s.phase.rest)),
               r.sender)
  }

  /** The sweep is suspended at an await: only there can the select drop it. */
  predicate Suspended(s: State) {
    || (s.phase.AtUnsubscribe? && s.phase.record.listenTopic != "")
    || (s.phase.AtRetain? && s.phase.record.broadcastTopic != "")
  }

  /**
   The sweep future is dropped: its local record goes with it. An unsubscribe request that
   was already queued is still carried out by the MQTT client.
   */
  function Abandoned(s: State, queued: bool): State
    requires Suspended(s)
  {
    var r := s.phase.record;
    DropSender(s.(subs := if s.phase.AtUnsubscribe? && queued then s.subs - {r.listenTopic} else s.subs,
                  phase := Idle),
               r.sender)
  }

  predicate Enabled(s: State, a: Action) {
    match a
    case Register(_, _, _) => s.phase.Idle?
    case Message(_, _, _) => s.phase.Idle?
    case Tick(_, iteration) => s.phase.Idle? && Enumerates(iteration, s.records)
    case Next => s.phase.Sweeping?
    case Unsubscribe(_) => s.phase.AtUnsubscribe?
    case Retain => s.phase.AtRetain?
    case Abandon(_) => Suspended(s)
    case SessionLost => true
  }

  /** An action that is not enabled changes nothing. */
  function Step(s: State, a: Action): State {
    if !Enabled(s, a) then s else
    match a
    case Register(now, ch, subscribed) => RegisterChannel(s, now, ch, subscribed)
    case Message(now, topic, advertised) => ProcessMessage(s, now, topic, advertised)
    case Tick(now, iteration) => s.(phase := Sweeping(StaleIds(s.records, iteration, now)))
    case Next => TakeNext(s)
    case Unsubscribe(ok) => Unsubscribed(s, ok)
    case Retain => Retained(s)
    case Abandon(queued) => Abandoned(s, queued)
    case SessionLost => s.(subs := {})
  }

  function RunFrom(s: State, acts: seq<Action>): State {
    if acts == [] then s else Step(RunFrom(s, Front(acts)), Last(acts))
  }

  function Run(own: Option<Url>, subs: set<string>, acts: seq<Action>): State {
    RunFrom(Init(own, subs), acts)
  }

  lemma RunFromAppend(s: State, acts: seq<Action>, a: Action)
    ensures RunFrom(s, acts + [a]) == Step(RunFrom(s, acts), a)
  {
    assert Front(acts + [a]) == acts;
  }

  lemma {:induction false} RunFromConcat(s: State, xs: seq<Action>, ys: seq<Action>)
    ensures RunFrom(s, xs + ys) == RunFrom(RunFrom(s, xs), ys)
  {
    if ys == [] {
      assert xs + ys == xs;
    } else {
      RunFromConcat(s, xs, Front(ys));
      assert Front(xs + ys) == xs + Front(ys);
    }
  }

  /** Every action of `acts` is enabled when its turn comes. */
  predicate Taken(s: State, acts: seq<Action>) {
    acts == [] || (Taken(s, Front(acts)) && Enabled(RunFrom(s, Front(acts)), Last(acts)))
  }

  lemma TakenAppend(s: State, acts: seq<Action>, a: Action)
    requires Taken(s, acts) && Enabled(RunFrom(s, acts), a)
    ensures Taken(s, acts + [a]) && RunFrom(s, acts + [a]) == Step(RunFrom(s, acts), a)
  {
    assert Front(acts + [a]) == acts;
  }

  lemma {:induction false} TakenConcat(s: State, xs: seq<Action>, ys: seq<Action>)
    requires Taken(s, xs) && Taken(RunFrom(s, xs), ys)
    ensures Taken(s, xs + ys) && RunFrom(s, xs + ys) == RunFrom(RunFrom(s, xs), ys)
  {
    RunFromConcat(s, xs, ys);
    if ys == [] {
      assert xs + ys == xs;
    } else {
      TakenConcat(s, xs, Front(ys));
      assert Front(xs + ys) == xs + Front(ys);
    }
  }

  /** Every record the process still owns: those in the map and the one the sweep holds. */
  function Held(s: State): map<Id, Record> {
    if s.phase.InFlight() then s.records[s.phase.id := s.phase.record] else s.records
  }
}
