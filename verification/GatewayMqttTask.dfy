/** The MQTT gateway task as the program has it, with its `backoff` helper. */
module GatewayMqttTask {
  import opened Common
  import opened Backoff
  import opened GatewayMqtt

  lemma Unfold<R>(s: State<R>, events: seq<Event<R>>, k: nat)
    requires k < |events|
    ensures RunFrom(s, events[k..]) == RunFrom(Step(s, events[k]), events[k + 1..])
  {
    assert events[k..][1..] == events[k + 1..];
  }

  lemma {:induction false} StoppedStays<R>(s: State<R>, events: seq<Event<R>>)
    requires s.pc.Stopped?
    ensures RunFrom(s, events) == s
    decreases events
  {
    if events != [] {
      StoppedStays(s, events[1..]);
    }
  }

  /** `events` gives the outcome of every await, in order; `did` is what the task has done. */
  class ConnectionTask<R(==)> {
    const events: seq<Event<R>>
    var k: nat
    var delay: nat
    var cached: Option<R>
    var did: seq<Entry<R>>
    ghost var now: State<R>

    /** The variables are those of the machine, which has consumed the first `k` events. */
    ghost predicate Valid()
      reads this
    {
      && k <= |events|
      && delay == now.delay && cached == now.cached && did == now.log
      && RunFrom(now, events[k..]) == GatewayMqtt.Run(events)
    }

    constructor (events: seq<Event<R>>)
      ensures this.events == events && k == 0 && delay == INITIAL_DELAY && cached == None && did == []
      ensures now == Init()
    {
      this.events, k, delay, cached, did := events, 0, INITIAL_DELAY, None, [];
      now := Init();
    }

    /** Suspends until an outcome arrives that the await at `pc` can have; `None` if there is none. */
    method Await(pc: Pc<R>) returns (e: Option<Event<R>>)
      requires Valid() && now.pc == pc
      modifies this`k
      ensures Valid() && now == old(now) && old(k) <= k
      ensures e.None? ==> k == |events|
      ensures e.Some? ==> k < |events| && e.value == events[k] && EnabledAt(pc, e.value)
    {
      while k < |events|
        invariant Valid() && old(k) <= k
      {
        if EnabledAt(pc, events[k]) {
          return Some(events[k]);
        }
        Unfold(now, events, k);
        k := k + 1;
      }
      e := None;
    }

    /** Advances the machine over the current event. */
    ghost method Follow()
      requires k < |events| && RunFrom(now, events[k..]) == GatewayMqtt.Run(events)
      modifies this`now
      ensures now == Step(old(now), events[k]) && RunFrom(now, events[k + 1..]) == GatewayMqtt.Run(events)
    {
      Unfold(now, events, k);
      now := Step(now, events[k]);
    }

    /** About to begin a round: the machine has already entered it. */
    ghost predicate AtTop()
      reads this
    {
      && k <= |events|
      && RunFrom(now, events[k..]) == GatewayMqtt.Run(events)
      && now == Enter(State(Stopped, delay, cached, did))
    }

    /** About to call `backoff`: the machine has already begun the wait. */
    ghost predicate AtBackOff()
      reads this
    {
      && k <= |events|
      && RunFrom(now, events[k..]) == GatewayMqtt.Run(events)
      && now.pc.BackingOff? && delay == now.delay && cached == now.cached && now.log == did + [Wait(delay)]
    }

    /**
     `backoff`: waits for the current delay or a shutdown, and grows the delay either way.
     The result tells whether the loop goes round again.
     */
    method BackOff() returns (again: bool)
      requires AtBackOff()
      modifies this
      ensures again ==> AtTop() && old(k) < k
      ensures !again ==> Valid() && old(k) <= k && (now.pc.Stopped? || k == |events|)
    {
      did := did + [Wait(delay)];
      var e := Await(BackingOff);
      if e.None? {
        return false;
      }
      Follow();
      k := k + 1;
      delay := Grow(delay);
      again := e.value.BackoffElapsed?;
    }

    /** The inbound/outbound loop; `true` if it broke off and a backoff is due. */
    method Poll(creds: R) returns (broken: bool)
      requires Valid() && now.pc == Polling(creds)
      modifies this
      ensures old(k) <= k
      ensures broken ==> AtBackOff()
      ensures !broken ==> Valid() && (now.pc.Stopped? || k == |events|)
    {
      while true
        invariant Valid() && now.pc == Polling(creds) && old(k) <= k
        decreases |events| - k
      {
        var e := Await(Polling(creds));
        if e.None? {
          return false;
        }
        Follow();
        k := k + 1;
        if e.value.Shutdown? {
          return false;
        }
        if e.value.Polled? {
          match e.value.poll {
            case ConnAck =>
              delay := INITIAL_DELAY;
              did := did + [Ack];
            case Refused =>
              cached := None;
              did := did + [Refusal];
              return true;
            case Broken =>
              return true;
            case _ =>
          }
        }
      }
    }

    /** Logs in; `None` when shut down or out of events, otherwise the response or a failure. */
    method LogIn() returns (r: Option<Option<R>>)
      requires Valid() && now.pc.LoggingIn?
      modifies this
      ensures old(k) <= k
      ensures r.None? ==> Valid() && (now.pc.Stopped? || k == |events|)
      ensures r.Some? && r.value.Some? ==> Valid() && now.pc == Building(r.value.value)
      ensures r == Some(None) ==> AtBackOff()
    {
      var e := Await(LoggingIn);
      if e.None? {
        return None;
      }
      Follow();
      k := k + 1;
      match e.value {
        case Shutdown =>
          r := None;
        case LoginOk(response) =>
          cached := Some(response);
          did := did + [LoggedIn(response)];
          r := Some(Some(response));
        case LoginFailed(_) =>
          r := Some(None);
      }
    }

    /** One turn of the reconnect loop. */
    method Round() returns (again: bool)
      requires AtTop()
      modifies this
      ensures again ==> AtTop() && old(k) < k
      ensures !again ==> Valid() && (now.pc.Stopped? || k == |events|)
    {
      again := false;
      var creds: R;
      if cached.Some? {
        did := did + [GatewayMqtt.Round];
        creds := cached.value;
      } else {
        did := did + [GatewayMqtt.Round, LoginAttempt];
        var login := LogIn();
        if login.None? {
          return;
        }
        if login.value.None? {
          again := BackOff();
          return;
        }
        creds := login.value.value;
      }
      var e := Await(Building(creds));
      if e.None? {
        return;
      }
      Follow();
      k := k + 1;
      if !e.value.ok {
        again := BackOff();
        return;
      }
      did := did + [Connect(creds)];
      var broken := Poll(creds);
      if broken {
        again := BackOff();
      }
    }

    /** The whole task: what it did is what the machine did. */
    method Run()
      requires k == 0 && delay == INITIAL_DELAY && cached == None && did == [] && now == Init()
      modifies this
      ensures now == GatewayMqtt.Run(events) && did == now.log && delay == now.delay && cached == now.cached
    {
      assert events[0..] == events;
      assert now == Enter(State(Stopped, delay, cached, did));
      var again := true;
      while again
        invariant if again then AtTop() else Valid() && (now.pc.Stopped? || k == |events|)
        decreases again, |events| - k
      {
        again := Round();
      }
      if k == |events| {
        assert events[k..] == [];
      } else {
        StoppedStays(now, events[k..]);
      }
    }
  }
}
