/**
 Where registry channels come from: each device handshake draws a fresh id and offers two
 channels to a bounded queue without waiting. Offers of concurrent handshakes and the
 loop's receives may interleave in any way.
 */
module Handshake {
  import opened Common
  import opened Registry
  import opened RegistryTopics

  const CAPACITY: nat := 64

  function ListenChannel(id: Id): TopicChannel { TopicChannel(id, Rec(id), Listen) }
  function CastChannel(id: Id): TopicChannel { TopicChannel(id, Cast(id), Broadcast) }

  datatype Op = OfferListen(id: Id) | OfferCast(id: Id) | Receive

  datatype Queue = Queue(waiting: seq<TopicChannel>, received: seq<TopicChannel>)

  /** `try_send`: a full queue refuses, and the handshake only logs it. */
  function TrySend(waiting: seq<TopicChannel>, ch: TopicChannel): seq<TopicChannel> {
    if |waiting| < CAPACITY then waiting + [ch] else waiting
  }

  function StepQueue(q: Queue, op: Op): Queue {
    match op
    case OfferListen(id) => q.(waiting := TrySend(q.waiting, ListenChannel(id)))
    case OfferCast(id) => q.(waiting := TrySend(q.waiting, CastChannel(id)))
    case Receive => if q.waiting == [] then q else Queue(q.waiting[1..], q.received + [q.waiting[0]])
  }

  function RunQueue(ops: seq<Op>): Queue {
    if ops == [] then Queue([], []) else StepQueue(RunQueue(Front(ops)), Last(ops))
  }

  /** The tail of one handshake: both channels of a new id, the listening one first. */
  method OfferChannels(waiting: seq<TopicChannel>, id: Id) returns (after: seq<TopicChannel>)
    ensures after == TrySend(TrySend(waiting, ListenChannel(id)), CastChannel(id))
    ensures |waiting| + 2 <= CAPACITY ==> after == waiting + [ListenChannel(id), CastChannel(id)]
    ensures |after| <= if |waiting| < CAPACITY then CAPACITY else |waiting|
  {
    after := waiting;
    if |after| < CAPACITY {
      after := after + [ListenChannel(id)];
    }
    if |after| < CAPACITY {
      after := after + [CastChannel(id)];
    }
  }

  /** Ids are fresh: no id's broadcast channel is offered twice. */
  predicate FreshOffers(ops: seq<Op>) {
    forall i, j :: 0 <= i < j < |ops| && ops[i].OfferCast? && ops[j].OfferCast? ==> ops[i].id != ops[j].id
  }

  predicate Made(ch: TopicChannel) {
    ch == ListenChannel(ch.beaconId) || ch == CastChannel(ch.beaconId)
  }

  predicate CastOnce(chs: seq<TopicChannel>) {
    forall i, j :: 0 <= i < j < |chs| && chs[i].topicType.Broadcast? && chs[j].topicType.Broadcast?
      ==> chs[i].beaconId != chs[j].beaconId
  }

  /** Received or still waiting, in order. */
  function Everything(q: Queue): seq<TopicChannel> {
    q.received + q.waiting
  }

  predicate Offered(ops: seq<Op>, id: Id) {
    exists i :: 0 <= i < |ops| && ops[i] == OfferCast(id)
  }

  ghost predicate QueueOk(ops: seq<Op>, q: Queue) {
    var all := Everything(q);
    && (forall i :: 0 <= i < |all| ==> Made(all[i]))
    && (forall i :: 0 <= i < |all| && all[i].topicType.Broadcast? ==> Offered(ops, all[i].beaconId))
    && CastOnce(all)
  }

  lemma OfferedGrows(ops: seq<Op>, id: Id)
    requires ops != [] && Offered(Front(ops), id)
    ensures Offered(ops, id)
  {
    var i :| 0 <= i < |Front(ops)| && Front(ops)[i] == OfferCast(id);
    assert ops[i] == OfferCast(id);
  }

  lemma OfferedOnce(ops: seq<Op>)
    requires ops != [] && FreshOffers(ops) && Last(ops).OfferCast?
    ensures Offered(ops, Last(ops).id) && !Offered(Front(ops), Last(ops).id)
  {
    assert ops[|ops| - 1] == OfferCast(Last(ops).id);
    forall i | 0 <= i < |Front(ops)| ensures Front(ops)[i] != OfferCast(Last(ops).id) {
      assert Front(ops)[i] == ops[i];
    }
  }

  lemma {:induction false} RunQueueOk(ops: seq<Op>)
    requires FreshOffers(ops)
    ensures QueueOk(ops, RunQueue(ops))
  {
    if ops != [] {
      var front := Front(ops);
      assert forall i :: 0 <= i < |front| ==> front[i] == ops[i];
      RunQueueOk(front);
      var before, after := Everything(RunQueue(front)), Everything(RunQueue(ops));
      assert forall i :: 0 <= i < |before| && before[i].topicType.Broadcast? ==> Offered(front, before[i].beaconId);
      forall i | 0 <= i < |before| && before[i].topicType.Broadcast? ensures Offered(ops, before[i].beaconId) {
        OfferedGrows(ops, before[i].beaconId);
      }
      if Last(ops).OfferCast? {
        OfferedOnce(ops);
      }
      EverythingGrows(RunQueue(front), Last(ops));
    }
  }

  lemma EverythingGrows(q: Queue, op: Op)
    ensures var before, after := Everything(q), Everything(StepQueue(q, op));
            || after == before
            || (op.OfferListen? && after == before + [ListenChannel(op.id)])
            || (op.OfferCast? && after == before + [CastChannel(op.id)])
  {
  }

  /** The channels that found the queue, which holds 64, with room, in the order they were offered. */
  function Admitted(ops: seq<Op>): seq<TopicChannel> {
    if ops == [] then []
    else
      var earlier, room := Admitted(Front(ops)), |RunQueue(Front(ops)).waiting| < 64;
      match Last(ops)
      case OfferListen(id) => if room then earlier + [TopicChannel(id, id + "/rec", Listen)] else earlier
      case OfferCast(id) => if room then earlier + [TopicChannel(id, id + "/cast", Broadcast)] else earlier
      case Receive => earlier
  }

  function Receipts(ops: seq<Op>): nat {
    if ops == [] then 0
    else Receipts(Front(ops)) + (if Last(ops).Receive? && RunQueue(Front(ops)).waiting != [] then 1 else 0)
  }

  /** What was admitted is received, first come first served, and nothing is lost or made up. */
  lemma {:induction false} AdmittedAreReceivedInOrder(ops: seq<Op>)
    ensures Receipts(ops) <= |Admitted(ops)|
    ensures RunQueue(ops) == Queue(Admitted(ops)[Receipts(ops)..], Admitted(ops)[..Receipts(ops)])
  {
    if ops != [] {
      AdmittedAreReceivedInOrder(Front(ops));
      var all, r := Admitted(Front(ops)), Receipts(Front(ops));
      if Last(ops).Receive? {
        QueueMovesOn(all, r);
      } else {
        QueueGrows(all, r, if Last(ops).OfferListen? then ListenChannel(Last(ops).id) else CastChannel(Last(ops).id));
      }
    }
  }

  lemma QueueMovesOn(all: seq<TopicChannel>, r: nat)
    requires r <= |all|
    ensures r < |all| ==> all[r..][1..] == all[r + 1..] && all[..r] + [all[r..][0]] == all[..r + 1]
  {
  }

  lemma QueueGrows(all: seq<TopicChannel>, r: nat, ch: TopicChannel)
    requires r <= |all|
    ensures (all + [ch])[r..] == all[r..] + [ch] && (all + [ch])[..r] == all[..r]
  {
  }

  /** The channels the loop registered, in order. */
  function Registered(acts: seq<Action>): seq<TopicChannel> {
    if acts == [] then []
    else Registered(Front(acts)) + (if Last(acts).Register? then [Last(acts).channel] else [])
  }

  lemma {:induction false} RegisteredAt(acts: seq<Action>, j: nat)
    requires j < |acts| && acts[j].Register?
    ensures |Registered(acts[..j])| < |Registered(acts)|
    ensures Registered(acts)[|Registered(acts[..j])|] == acts[j].channel
    decreases |acts|
  {
    if j == |acts| - 1 {
      assert acts[..j] == Front(acts);
    } else {
      RegisteredAt(Front(acts), j);
      assert Front(acts)[..j] == acts[..j];
    }
  }

  /**
   A loop that registers what it received from such a queue runs exactly under the conditions
   the topic results ask for: handshake-made channels, each broadcast channel at most once.
   */
  lemma HandshakesSatisfyRegistry(ops: seq<Op>, acts: seq<Action>)
    requires FreshOffers(ops) && Registered(acts) == RunQueue(ops).received
    ensures FromHandshakes(acts) && FreshIds(acts)
  {
    RunQueueOk(ops);
    var chs := Registered(acts);
    assert forall i :: 0 <= i < |chs| ==> Everything(RunQueue(ops))[i] == chs[i];
    assert CastOnce(chs) && forall i :: 0 <= i < |chs| ==> Made(chs[i]);
    forall j | 0 <= j < |acts| ensures HandshakeMade(acts[j]) {
      if acts[j].Register? {
        RegisteredAt(acts, j);
        assert Made(chs[|Registered(acts[..j])|]);
      }
    }
    forall i, j | 0 <= i < j < |acts| && acts[j].Register? && acts[j].channel.topicType.Broadcast?
      ensures !Broadcasts(acts[i], acts[j].channel.beaconId)
    {
      if acts[i].Register? && acts[i].channel.topicType.Broadcast? {
        RegisteredAt(acts, i);
        RegisteredAt(acts, j);
        RegisteredAt(acts[..j], i);
        assert acts[..j][..i] == acts[..i];
      }
    }
  }
}
