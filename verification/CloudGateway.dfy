/**
 The WebSocket connection task. Each event is the outcome of one of its awaits; messages may
 be queued at any moment. The log records what went over the wire on each connection and what
 became of each message, numbered in the order the queue accepted them.
 */
module CloudGateway {
  import opened Backoff

  const OUTBOUND_CAPACITY: nat := 64

  datatype Pc = Connecting | Registering | Serving | Waiting | Stopped

  datatype Frame<M> = RegisterFrame | App(message: M) | PongFrame | CloseFrame

  datatype Dequeued = Sent | SendFailed | NotSerialised

  datatype Inbound = Text | Ping(answered: bool) | OtherFrame | Ended

  datatype Event<M> =
    | Enqueue(message: M)
    | Shutdown(closeSent: bool)
    | ConnectOk
    | ConnectErr
    | RegisterResult(ok: bool)
    | Dequeue(outcome: Dequeued)
    | Receive(inbound: Inbound)
    | Slept

  /**
   `accepted[..taken]` has been dequeued and `accepted[taken..]` is still queued.
   `delivered`, `lost` and `skipped` are message numbers.
   */
  datatype State<M> = State(
    pc: Pc,
    delay: nat,
    queue: seq<M>,
    accepted: seq<M>,
    taken: nat,
    wire: seq<seq<Frame<M>>>,
    delivered: seq<nat>,
    lost: seq<nat>,
    skipped: seq<nat>)

  function Init<M>(): State<M> {
    State(Connecting, INITIAL_DELAY, [], [], 0, [], [], [], [])
  }

  /** Appends a frame to the log of the current connection. */
  function Emit<M>(wire: seq<seq<Frame<M>>>, f: Frame<M>): seq<seq<Frame<M>>>
    requires wire != []
  {
    wire[|wire| - 1 := wire[|wire| - 1] + [f]]
  }

  /** The outcomes an await can have, given where the task is and what is queued. */
  predicate EnabledAt<M>(pc: Pc, queued: nat, e: Event<M>) {
    match e
    case Enqueue(_) => !pc.Stopped? && queued < OUTBOUND_CAPACITY
    case Shutdown(_) => pc.Connecting? || pc.Serving?
    case ConnectOk => pc.Connecting?
    case ConnectErr => pc.Connecting?
    case RegisterResult(_) => pc.Registering?
    case Dequeue(_) => pc.Serving? && queued > 0
    case Receive(_) => pc.Serving?
    case Slept => pc.Waiting?
  }

  predicate Enabled<M>(s: State<M>, e: Event<M>) {
    EnabledAt(s.pc, |s.queue|, e)
  }

  predicate Wired<M>(s: State<M>) {
    s.pc.Registering? || s.pc.Serving? ==> s.wire != []
  }

  function TakeOne<M>(s: State<M>, outcome: Dequeued): State<M>
    requires s.queue != [] && s.wire != []
  {
    var t := s.(queue := s.queue[1..], taken := s.taken + 1);
    match outcome
    case Sent => t.(wire := Emit(s.wire, App(s.queue[0])), delivered := s.delivered + [s.taken])
    case SendFailed => t.(lost := s.lost + [s.taken], pc := Waiting)
    case NotSerialised => t.(skipped := s.skipped + [s.taken])
  }

  function OnReceive<M>(s: State<M>, inbound: Inbound): State<M>
    requires s.wire != []
  {
    match inbound
    case Ping(answered) => if answered then s.(wire := Emit(s.wire, PongFrame)) else s
    case Ended => s.(pc := Waiting)
    case _ => s
  }

  /** A Register frame that cannot be sent goes straight back to connecting, without a wait. */
  function Step<M>(s: State<M>, e: Event<M>): State<M>
    requires Wired(s)
  {
    if !Enabled(s, e) then s else
    match e
    case Enqueue(m) => s.(queue := s.queue + [m], accepted := s.accepted + [m])
    case Shutdown(closeSent) =>
      if s.pc.Serving? && closeSent then s.(pc := Stopped, wire := Emit(s.wire, CloseFrame)) else s.(pc := Stopped)
    case ConnectErr => s.(pc := Waiting)
    case ConnectOk => s.(pc := Registering, delay := INITIAL_DELAY, wire := s.wire + [[]])
    case RegisterResult(ok) =>
      if ok then s.(pc := Serving, wire := Emit(s.wire, RegisterFrame))
      else s.(pc := Connecting)
    case Dequeue(outcome) => TakeOne(s, outcome)
    case Receive(inbound) => OnReceive(s, inbound)
    case Slept => s.(pc := Connecting, delay := Grow(s.delay))
  }

  lemma StepWired<M>(s: State<M>, e: Event<M>)
    requires Wired(s)
    ensures Wired(Step(s, e))
  {
  }

  function RunFrom<M>(s: State<M>, events: seq<Event<M>>): State<M>
    requires Wired(s)
    decreases events
  {
    if events == [] then s else StepWired(s, events[0]); RunFrom(Step(s, events[0]), events[1..])
  }

  function Run<M>(events: seq<Event<M>>): State<M> {
    RunFrom(Init(), events)
  }

  // ── What holds of every run ──────────────────────────────────────────────────────────

  function AppFrames<M>(frames: seq<Frame<M>>): seq<M> {
    if frames == [] then []
    else AppFrames(frames[..|frames| - 1]) +
         (if frames[|frames| - 1].App? then [frames[|frames| - 1].message] else [])
  }

  /** Everything the application had delivered, over all connections, in wire order. */
  function AllAppFrames<M>(wire: seq<seq<Frame<M>>>): seq<M> {
    if wire == [] then [] else AllAppFrames(wire[..|wire| - 1]) + AppFrames(wire[|wire| - 1])
  }

  predicate Increasing(xs: seq<nat>) {
    forall i, j :: 0 <= i < j < |xs| ==> xs[i] < xs[j]
  }

  predicate Below(xs: seq<nat>, bound: nat) {
    forall i :: 0 <= i < |xs| ==> xs[i] < bound
  }

  predicate OneFate<M>(s: State<M>, i: nat) {
    || (i in s.delivered && i !in s.lost && i !in s.skipped)
    || (i !in s.delivered && i in s.lost && i !in s.skipped)
    || (i !in s.delivered && i !in s.lost && i in s.skipped)
  }

  /** The delivered application frames are the accepted messages numbered in `delivered`. */
  predicate Matches<M(==)>(s: State<M>) {
    var frames := AllAppFrames(s.wire);
    && |frames| == |s.delivered|
    && Below(s.delivered, |s.accepted|)
    && (forall i :: 0 <= i < |frames| ==> frames[i] == s.accepted[s.delivered[i]])
  }

  predicate RegisterFirst<M>(s: State<M>) {
    && (forall c :: 0 <= c < |s.wire| && s.wire[c] != [] ==> s.wire[c][0] == RegisterFrame)
    && (s.pc.Serving? ==> s.wire != [] && s.wire[|s.wire| - 1] != [])
    && (s.pc.Registering? ==> s.wire != [] && s.wire[|s.wire| - 1] == [])
  }

  predicate QueueOk<M(==)>(s: State<M>) {
    s.taken <= |s.accepted| && s.queue == s.accepted[s.taken..] && |s.queue| <= OUTBOUND_CAPACITY
  }

  predicate FatesOk<M>(s: State<M>) {
    && Increasing(s.delivered) && Increasing(s.lost) && Increasing(s.skipped)
    && Below(s.delivered, s.taken) && Below(s.lost, s.taken) && Below(s.skipped, s.taken)
    && (forall i :: 0 <= i < s.taken ==> OneFate(s, i))
  }

  /** A connection loses at most one message to a failed send, because it ends there. */
  predicate LossesOk<M>(s: State<M>) {
    |s.lost| + (if s.pc.Serving? || s.pc.Registering? then 1 else 0) <= |s.wire|
  }

  predicate Good<M(==)>(s: State<M>) {
    QueueOk(s) && FatesOk(s) && Matches(s) && RegisterFirst(s) && LossesOk(s)
  }

  lemma EmitFrames<M>(wire: seq<seq<Frame<M>>>, f: Frame<M>)
    requires wire != []
    ensures AllAppFrames(Emit(wire, f)) == AllAppFrames(wire) + (if f.App? then [f.message] else [])
  {
    var n := |wire| - 1;
    var t := Emit(wire, f);
    assert t[..n] == wire[..n];
    assert t[n][..|t[n]| - 1] == wire[n];
  }

  lemma NewConnectionFrames<M>(wire: seq<seq<Frame<M>>>)
    ensures AllAppFrames(wire + [[]]) == AllAppFrames(wire)
  {
    assert (wire + [[]])[..|wire|] == wire;
  }

  lemma SameFramesMatch<M>(s: State<M>, t: State<M>)
    requires Matches(s) && AllAppFrames(t.wire) == AllAppFrames(s.wire)
    requires t.delivered == s.delivered && s.accepted <= t.accepted
    ensures Matches(t)
  {
  }

  lemma SentMatches<M>(s: State<M>)
    requires Good(s) && s.queue != [] && s.wire != []
    ensures Matches(TakeOne(s, Sent))
  {
    EmitFrames(s.wire, App(s.queue[0]));
    assert s.queue[0] == s.accepted[s.taken];
  }

  /** No event but a successful dequeue changes what the application has on the wire. */
  lemma OtherFrames<M>(s: State<M>, e: Event<M>)
    requires Wired(s) && Enabled(s, e) && e != Dequeue(Sent)
    ensures AllAppFrames(Step(s, e).wire) == AllAppFrames(s.wire)
  {
    NewConnectionFrames(s.wire);
    if s.wire != [] {
      if e.RegisterResult? {
        EmitFrames(s.wire, RegisterFrame);
      } else if e.Receive? {
        EmitFrames(s.wire, PongFrame);
      } else if e.Shutdown? {
        EmitFrames(s.wire, CloseFrame);
      }
    }
  }

  lemma StepMatches<M>(s: State<M>, e: Event<M>)
    requires Good(s)
    ensures Wired(s) && Matches(Step(s, e))
  {
    if Enabled(s, e) {
      if e == Dequeue(Sent) {
        SentMatches(s);
      } else {
        OtherFrames(s, e);
        SameFramesMatch(s, Step(s, e));
      }
    }
  }

  /** The message taken from the queue meets its fate; those taken before keep theirs. */
  lemma TakenFates<M>(s: State<M>, outcome: Dequeued, i: nat)
    requires s.queue != [] && s.wire != [] && FatesOk(s) && i <= s.taken
    ensures OneFate(TakeOne(s, outcome), i)
  {
    var t := TakeOne(s, outcome);
    if i < s.taken {
      assert OneFate(s, i);
    } else {
      assert i !in s.delivered && i !in s.lost && i !in s.skipped;
      assert outcome.Sent? ==> t.delivered[|s.delivered|] == i;
      assert outcome.SendFailed? ==> t.lost[|s.lost|] == i;
      assert outcome.NotSerialised? ==> t.skipped[|s.skipped|] == i;
    }
  }

  lemma TakeOneFates<M>(s: State<M>, outcome: Dequeued)
    requires s.queue != [] && s.wire != [] && FatesOk(s)
    ensures FatesOk(TakeOne(s, outcome))
  {
    forall i | 0 <= i < s.taken + 1 ensures OneFate(TakeOne(s, outcome), i) {
      TakenFates(s, outcome, i);
    }
  }

  lemma SameFates<M>(s: State<M>, t: State<M>)
    requires FatesOk(s) && t.taken == s.taken && t.delivered == s.delivered && t.lost == s.lost && t.skipped == s.skipped
    ensures FatesOk(t)
  {
    forall i | 0 <= i < t.taken ensures OneFate(t, i) {
      assert OneFate(s, i);
    }
  }

  lemma StepFates<M>(s: State<M>, e: Event<M>)
    requires Wired(s) && FatesOk(s)
    ensures FatesOk(Step(s, e))
  {
    if Enabled(s, e) && e.Dequeue? {
      TakeOneFates(s, e.outcome);
    } else {
      SameFates(s, Step(s, e));
    }
  }

  lemma StepGood<M>(s: State<M>, e: Event<M>)
    requires Good(s)
    ensures Wired(s) && Good(Step(s, e))
  {
    StepMatches(s, e);
    StepFates(s, e);
    StepRegisterFirst(s, e);
    StepQueue(s, e);
  }

  lemma StepRegisterFirst<M>(s: State<M>, e: Event<M>)
    requires Wired(s) && RegisterFirst(s)
    ensures RegisterFirst(Step(s, e))
  {
  }

  lemma StepQueue<M>(s: State<M>, e: Event<M>)
    requires Wired(s) && QueueOk(s) && LossesOk(s)
    ensures QueueOk(Step(s, e)) && LossesOk(Step(s, e))
  {
  }

  lemma {:induction false} RunGood<M>(s: State<M>, events: seq<Event<M>>)
    requires Good(s)
    ensures Wired(s) && Good(RunFrom(s, events))
    decreases events
  {
    if events != [] {
      StepGood(s, events[0]);
      RunGood(Step(s, events[0]), events[1..]);
    }
  }

  /**
   Over any number of reconnects: every connection's first frame is Register; the application
   frames on the wire are accepted messages in queue order, none twice; every dequeued message
   was delivered, lost in a failed send, or not serialisable, exactly one of these; and failed
   sends lost no more messages than there were connections.
   */
  lemma DeliveryGuarantees<M>(events: seq<Event<M>>)
    ensures var s := Run(events); var frames := AllAppFrames(s.wire);
            && (forall c :: 0 <= c < |s.wire| && s.wire[c] != [] ==> s.wire[c][0] == RegisterFrame)
            && s.taken <= |s.accepted| && |frames| == |s.delivered| && Increasing(s.delivered)
            && (forall i :: 0 <= i < |frames| ==> s.delivered[i] < s.taken && frames[i] == s.accepted[s.delivered[i]])
            && (forall i :: 0 <= i < s.taken ==> OneFate(s, i))
            && s.queue == s.accepted[s.taken..]
            && Increasing(s.lost) && |s.lost| <= |s.wire|
  {
    InitGood<M>();
    RunGood(Init(), events);
  }

  lemma InitGood<M>()
    ensures Good(Init<M>())
  {
  }

  lemma {:induction false} StoppedStays<M>(s: State<M>, events: seq<Event<M>>)
    requires s.pc.Stopped?
    ensures RunFrom(s, events) == s
    decreases events
  {
    if events != [] {
      assert Step(s, events[0]) == s;
      StoppedStays(s, events[1..]);
    }
  }
}
