/** The WebSocket task as the program has it: a reconnect loop around a serving loop. */
module CloudGatewayTask {
  import opened Common
  import opened Backoff
  import opened CloudGateway

  lemma Unfold<M>(s: State<M>, events: seq<Event<M>>, k: nat)
    requires Wired(s) && k < |events|
    ensures Wired(Step(s, events[k])) && RunFrom(s, events[k..]) == RunFrom(Step(s, events[k]), events[k + 1..])
  {
    StepWired(s, events[k]);
    assert events[k..][1..] == events[k + 1..];
  }

  /** `events` gives the outcome of every await, in order; messages are queued in between. */
  class ConnectionTask<M(==)> {
    const events: seq<Event<M>>
    var k: nat
    var delay: nat
    var queue: seq<M>
    var wire: seq<seq<Frame<M>>>
    ghost var log: State<M>

    /** The variables are those of the machine, which has consumed the first `k` events. */
    ghost predicate Valid()
      reads this
    {
      && k <= |events|
      && delay == log.delay && queue == log.queue && wire == log.wire
      && Wired(log)
      && RunFrom(log, events[k..]) == CloudGateway.Run(events)
    }

    constructor (events: seq<Event<M>>)
      ensures Valid() && log == Init() && this.events == events
    {
      this.events, k, delay, queue, wire := events, 0, INITIAL_DELAY, [], [];
      log := Init();
      new;
      assert events[0..] == events;
    }

    /** Advances the machine over the current event. */
    ghost method Follow()
      requires Wired(log) && k < |events| && RunFrom(log, events[k..]) == CloudGateway.Run(events)
      modifies this`log
      ensures log == Step(old(log), events[k]) && Wired(log)
      ensures RunFrom(log, events[k + 1..]) == CloudGateway.Run(events)
    {
      Unfold(log, events, k);
      log := Step(log, events[k]);
    }

    /**
     Suspends until an outcome arrives that the await at `pc` can have. Meanwhile the queue
     fills; `None` means the events are used up.
     */
    method Await(pc: Pc) returns (e: Option<Event<M>>)
      requires Valid() && log.pc == pc
      modifies this`k, this`queue, this`log
      ensures Valid() && log.pc == pc && old(k) <= k
      ensures e.None? ==> k == |events|
      ensures e.Some? ==> k < |events| && e.value == events[k] && Enabled(log, e.value) && !e.value.Enqueue?
    {
      while k < |events|
        invariant Valid() && log.pc == pc && old(k) <= k
      {
        if EnabledAt(pc, |queue|, events[k]) {
          if !events[k].Enqueue? {
            return Some(events[k]);
          }
          queue := queue + [events[k].message];
        }
        Follow();
        k := k + 1;
      }
      e := None;
    }

    /** `sink.send(frame)` on the current connection, when it succeeds. */
    method Put(f: Frame<M>)
      requires wire != []
      modifies this`wire
      ensures wire == Emit(old(wire), f)
    {
      wire := wire[|wire| - 1 := wire[|wire| - 1] + [f]];
    }

    /** `tokio::time::sleep(delay)`, after which the delay has grown. */
    method Sleep() returns (woke: bool)
      requires Valid() && log.pc.Waiting?
      modifies this
      ensures Valid() && old(k) <= k
      ensures if woke then log.pc.Connecting? else k == |events|
    {
      var e := Await(Waiting);
      if e.None? {
        return false;
      }
      Follow();
      k := k + 1;
      delay := Grow(delay);
      woke := true;
    }

    /**
     The serving loop. It ends stopped, or waiting to reconnect after a failed send or the end
     of the stream; a message whose send fails is gone.
     */
    method Serve() returns (broken: bool)
      requires Valid() && log.pc.Serving?
      modifies this
      ensures Valid() && old(k) <= k
      ensures if broken then log.pc.Waiting? else log.pc.Stopped? || k == |events|
    {
      while true
        invariant Valid() && log.pc.Serving? && old(k) <= k
        decreases |events| - k
      {
        var e := Await(Serving);
        if e.None? {
          return false;
        }
        Follow();
        k := k + 1;
        match e.value {
          case Shutdown(closeSent) =>
            if closeSent {
              Put(CloseFrame);
            }
            return false;
          case Dequeue(outcome) =>
            var message := queue[0];
            queue := queue[1..];
            match outcome {
              case Sent => Put(App(message));
              case SendFailed => return true;
              case NotSerialised =>
            }
          case Receive(inbound) =>
            match inbound {
              case Ping(answered) =>
                if answered {
                  Put(PongFrame);
                }
              case Ended => return true;
              case _ =>
            }
        }
      }
    }

    /** Sends the Register frame; `Some(false)` is a failed send, after which the loop reconnects at once. */
    method Announce() returns (sent: Option<bool>)
      requires Valid() && log.pc.Registering?
      modifies this
      ensures Valid() && old(k) <= k
      ensures sent.None? ==> k == |events|
      ensures sent.Some? ==> if sent.value then log.pc.Serving? else log.pc.Connecting?
    {
      var e := Await(Registering);
      if e.None? {
        return None;
      }
      Follow();
      k := k + 1;
      if e.value.ok {
        Put(RegisterFrame);
      }
      sent := Some(e.value.ok);
    }

    /** One turn of the reconnect loop; the result tells whether there may be another. */
    method Reconnect() returns (again: bool)
      requires Valid() && log.pc.Connecting?
      modifies this
      ensures Valid() && old(k) <= k
      ensures if again then log.pc.Connecting? && old(k) < k else log.pc.Stopped? || k == |events|
    {
      again := false;
      var e := Await(Connecting);
      if e.None? {
        return;
      }
      Follow();
      k := k + 1;
      if e.value.Shutdown? {
        return;
      }
      if e.value.ConnectErr? {
        again := Sleep();
        return;
      }
      delay := INITIAL_DELAY;
      wire := wire + [[]];
      var announced := Announce();
      if announced.None? {
        return;
      }
      if !announced.value {
        return true;
      }
      var broken := Serve();
      if broken {
        again := Sleep();
      }
    }

    /** The whole task: it ends where the machine does, having sent what the machine sent. */
    method Run()
      requires Valid() && log == Init()
      modifies this
      ensures log == CloudGateway.Run(events) && wire == log.wire && queue == log.queue && delay == log.delay
    {
      var again := true;
      while again
        invariant Valid()
        invariant if again then log.pc.Connecting? else log.pc.Stopped? || k == |events|
        decreases again, |events| - k
      {
        again := Reconnect();
      }
      if k == |events| {
        assert events[k..] == [];
      } else {
        StoppedStays(log, events[k..]);
      }
    }
  }
}
