/**
 What the events alone say about the WebSocket task at any point of a run: where it is, how
 long it will wait, what became of each message, and what went over each connection.
 */
module CloudGatewayTrace {
  import opened Common
  import opened Backoff
  import opened CloudGateway

  lemma {:induction false} RunFromAppend<M>(s: State<M>, events: seq<Event<M>>, e: Event<M>)
    requires Wired(s)
    ensures Wired(RunFrom(s, events)) && RunFrom(s, events + [e]) == Step(RunFrom(s, events), e)
    decreases events
  {
    if events == [] {
      assert [e][1..] == [];
      StepWired(s, e);
    } else {
      StepWired(s, events[0]);
      RunFromAppend(Step(s, events[0]), events[1..], e);
      assert (events + [e])[1..] == events[1..] + [e];
    }
  }

  /** The task's state when event `n` arrives. */
  function Before<M>(events: seq<Event<M>>, n: nat): State<M>
    requires n <= |events|
  {
    Run(events[..n])
  }

  lemma BeforeFirst<M>(events: seq<Event<M>>)
    ensures Before(events, 0) == Init()
  {
    assert events[..0] == [];
  }

  lemma BeforeNext<M>(events: seq<Event<M>>, n: nat)
    requires n < |events|
    ensures Wired(Before(events, n)) && Before(events, n + 1) == Step(Before(events, n), events[n])
  {
    RunFromAppend(Init<M>(), events[..n], events[n]);
    assert events[..n + 1] == events[..n] + [events[n]];
  }

  // ── Events that count, by where the task is when they arrive ─────────────────────────

  predicate ConnectedAt<M>(events: seq<Event<M>>, i: nat) {
    i < |events| && events[i].ConnectOk? && Before(events, i).pc.Connecting?
  }

  predicate AttemptAt<M>(events: seq<Event<M>>, i: nat) {
    i < |events| && (events[i].ConnectOk? || events[i].ConnectErr?) && Before(events, i).pc.Connecting?
  }

  predicate WaitAt<M>(events: seq<Event<M>>, i: nat) {
    i < |events| && events[i].Slept? && Before(events, i).pc.Waiting?
  }

  /** The Register frame cannot be sent. */
  predicate RefusalAt<M>(events: seq<Event<M>>, i: nat) {
    i < |events| && events[i].RegisterResult? && !events[i].ok && Before(events, i).pc.Registering?
  }

  /** A message finds room in the queue, which holds 64. */
  predicate AcceptedAt<M>(events: seq<Event<M>>, i: nat) {
    i < |events| && events[i].Enqueue? && !Before(events, i).pc.Stopped? && |Before(events, i).queue| < 64
  }

  predicate DequeuedAt<M>(events: seq<Event<M>>, i: nat) {
    i < |events| && events[i].Dequeue? && Before(events, i).pc.Serving? && Before(events, i).queue != []
  }

  // ── Histories read off the events ────────────────────────────────────────────────────

  function WaitsSince<M>(events: seq<Event<M>>, n: nat): nat {
    if n == 0 || ConnectedAt(events, n - 1) then 0
    else WaitsSince(events, n - 1) + (if WaitAt(events, n - 1) then 1 else 0)
  }

  function Accepted<M>(events: seq<Event<M>>, n: nat): seq<M> {
    if n == 0 then []
    else Accepted(events, n - 1) + (if AcceptedAt(events, n - 1) then [events[n - 1].message] else [])
  }

  function Taken<M>(events: seq<Event<M>>, n: nat): nat {
    if n == 0 then 0 else Taken(events, n - 1) + (if DequeuedAt(events, n - 1) then 1 else 0)
  }

  /** The numbers of the messages whose dequeue had this outcome. */
  function Met<M>(events: seq<Event<M>>, n: nat, outcome: Dequeued): seq<nat> {
    if n == 0 then []
    else Met(events, n - 1, outcome) +
         (if DequeuedAt(events, n - 1) && events[n - 1].outcome == outcome then [Taken(events, n - 1)] else [])
  }

  /** The frames an event puts on the current connection. */
  function Sends<M>(pc: Pc, queue: seq<M>, e: Event<M>): seq<Frame<M>> {
    match pc
    case Registering => (if e.RegisterResult? && e.ok then [RegisterFrame] else [])
    case Serving =>
      (match e
       case Dequeue(outcome) => (if queue != [] && outcome.Sent? then [App(queue[0])] else [])
       case Receive(inbound) => (if inbound.Ping? && inbound.answered then [PongFrame] else [])
       case Shutdown(closeSent) => (if closeSent then [CloseFrame] else [])
       case _ => [])
    case _ => []
  }

  function OnLast<M>(wire: seq<seq<Frame<M>>>, frames: seq<Frame<M>>): seq<seq<Frame<M>>> {
    if wire == [] then [] else Front(wire) + [Last(wire) + frames]
  }

  /** What went over each connection, in the order they were made. */
  function Conversations<M>(events: seq<Event<M>>, n: nat): seq<seq<Frame<M>>>
    requires n <= |events|
  {
    if n == 0 then []
    else if ConnectedAt(events, n - 1) then Conversations(events, n - 1) + [[]]
    else OnLast(Conversations(events, n - 1), Sends(Before(events, n - 1).pc, Before(events, n - 1).queue, events[n - 1]))
  }

  /** Where event `e` takes the task from `pc`, with that many messages queued. */
  predicate Leads<M>(pc: Pc, queued: nat, e: Event<M>, next: Pc) {
    match pc
    case Connecting =>
      next == (match e case ConnectOk => Registering case ConnectErr => Waiting case Shutdown(_) => Stopped case _ => pc)
    case Registering =>
      next == (match e case RegisterResult(ok) => (if ok then Serving else Connecting) case _ => pc)
    case Serving =>
      next == (match e
               case Dequeue(outcome) => (if queued > 0 && outcome.SendFailed? then Waiting else pc)
               case Receive(inbound) => (if inbound.Ended? then Waiting else pc)
               case Shutdown(_) => Stopped
               case _ => pc)
    case Waiting => next == (if e.Slept? then Connecting else pc)
    case Stopped => next == pc
  }

  // ── The task agrees with them ────────────────────────────────────────────────────────

  lemma {:induction false} DelayIsBackoff<M>(events: seq<Event<M>>, n: nat)
    requires n <= |events|
    ensures Before(events, n).delay == DelayAfter(WaitsSince(events, n))
  {
    GrowStep(0);
    if n == 0 {
      BeforeFirst(events);
    } else {
      DelayIsBackoff(events, n - 1);
      BeforeNext(events, n - 1);
      GrowStep(WaitsSince(events, n - 1));
    }
  }

  /** What the histories say of the messages is what the state says. */
  predicate Recorded<M(==)>(events: seq<Event<M>>, n: nat)
    requires n <= |events|
  {
    var s := Before(events, n);
    && s.accepted == Accepted(events, n)
    && s.taken == Taken(events, n)
    && s.delivered == Met(events, n, Sent)
    && s.lost == Met(events, n, SendFailed)
    && s.skipped == Met(events, n, NotSerialised)
  }

  lemma {:induction false} MessagesAreRecorded<M>(events: seq<Event<M>>, n: nat)
    requires n <= |events|
    ensures Recorded(events, n)
  {
    if n == 0 {
      BeforeFirst(events);
    } else {
      MessagesAreRecorded(events, n - 1);
      BeforeNext(events, n - 1);
    }
  }

  lemma EmitIsOnLast<M>(wire: seq<seq<Frame<M>>>, f: Frame<M>)
    requires wire != []
    ensures Emit(wire, f) == OnLast(wire, [f])
  {
  }

  lemma NothingOnLast<M>(wire: seq<seq<Frame<M>>>)
    ensures OnLast(wire, []) == wire
  {
    if wire != [] {
      assert Last(wire) + [] == Last(wire);
    }
  }

  lemma StepSends<M>(s: State<M>, e: Event<M>)
    requires Wired(s) && !(e.ConnectOk? && s.pc.Connecting?)
    ensures Step(s, e).wire == OnLast(s.wire, Sends(s.pc, s.queue, e))
  {
    NothingOnLast(s.wire);
    var frames := Sends(s.pc, s.queue, e);
    if frames != [] {
      EmitIsOnLast(s.wire, frames[0]);
    }
  }

  lemma WireNext<M>(events: seq<Event<M>>, n: nat)
    requires n < |events|
    ensures var s, t := Before(events, n), Before(events, n + 1);
            t.wire == if ConnectedAt(events, n) then s.wire + [[]] else OnLast(s.wire, Sends(s.pc, s.queue, events[n]))
  {
    BeforeNext(events, n);
    if !ConnectedAt(events, n) {
      StepSends(Before(events, n), events[n]);
    }
  }

  lemma {:induction false} WireIsConversations<M>(events: seq<Event<M>>, n: nat)
    requires n <= |events|
    ensures Before(events, n).wire == Conversations(events, n)
  {
    if n == 0 {
      BeforeFirst(events);
    } else {
      WireIsConversations(events, n - 1);
      WireNext(events, n - 1);
    }
  }

  lemma StepLeads<M>(s: State<M>, e: Event<M>)
    requires Wired(s)
    ensures Leads(s.pc, |s.queue|, e, Step(s, e).pc)
  {
  }

  /** Each event leads where the program goes. */
  lemma ControlFollowsEvents<M>(events: seq<Event<M>>, n: nat)
    requires n < |events|
    ensures Leads(Before(events, n).pc, |Before(events, n).queue|, events[n], Before(events, n + 1).pc)
  {
    BeforeNext(events, n);
    StepLeads(Before(events, n), events[n]);
  }

  /** Messages are dequeued in the order they were accepted in. */
  lemma QueueIsRest<M>(events: seq<Event<M>>, n: nat)
    requires n <= |events|
    ensures Taken(events, n) <= |Accepted(events, n)| && Before(events, n).queue == Accepted(events, n)[Taken(events, n)..]
  {
    MessagesAreRecorded(events, n);
    DeliveryGuarantees(events[..n]);
  }

  /**
   Everything about the task follows from its events. It begins connecting, with nothing
   queued; each event leads where the program goes; the next wait is min(2^(k+1), 60) seconds, k
   being the waits since the latest connection; messages are accepted while fewer than 64 are
   queued and dequeued in that order, and each ends as its dequeue says; each connection carries
   exactly the frames its events put on it.
   */
  lemma EventsDecide<M>(events: seq<Event<M>>, n: nat)
    requires n <= |events|
    ensures Before(events, 0).pc.Connecting?
    ensures n < |events| ==> Leads(Before(events, n).pc, |Before(events, n).queue|, events[n], Before(events, n + 1).pc)
    ensures Before(events, n).delay == DelayAfter(WaitsSince(events, n))
    ensures Recorded(events, n)
    ensures Taken(events, n) <= |Accepted(events, n)| && Before(events, n).queue == Accepted(events, n)[Taken(events, n)..]
    ensures Before(events, n).wire == Conversations(events, n)
  {
    BeforeFirst(events);
    DelayIsBackoff(events, n);
    MessagesAreRecorded(events, n);
    WireIsConversations(events, n);
    QueueIsRest(events, n);
    if n < |events| {
      ControlFollowsEvents(events, n);
    }
  }
}
