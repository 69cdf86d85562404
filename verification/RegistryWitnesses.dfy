/**
 Concrete runs of the message loop that show the provisos of the exactness results are
 needed: each leaves a URL known but unconnected, a topic listed but unserved, or a
 subscription nobody needs or that is missing.
 */
module RegistryWitnesses {
  import opened Common
  import opened Registry
  import opened RegistryGateways
  import opened RegistryTopics
  import opened RegistrySubscriptions

  const LISTEN := Register(0, TopicChannel("b", "b/rec", Listen), true)
  const CAST := Register(0, TopicChannel("b", "b/cast", Broadcast), true)
  const LATE: int := 121 * SECOND

  function Advertise(topic: string, url: Url): Action {
    Message(0, topic, Some(url))
  }

  lemma {:induction false} RunOne(own: Option<Url>, subs: set<string>, a: Action)
    ensures Run(own, subs, [a]) == Step(Init(own, subs), a)
  {
    assert Front([a]) == [];
    assert Run(own, subs, []) == Init(own, subs);
  }

  lemma RunMore(own: Option<Url>, subs: set<string>, acts: seq<Action>, a: Action)
    ensures Run(own, subs, acts + [a]) == Step(Run(own, subs, acts), a)
  {
    RunFromAppend(Init(own, subs), acts, a);
  }

  lemma RecTopicOfB()
    ensures StripRec("b/rec") == Some("b")
  {
    RecStrips("b");
    assert Rec("b") == "b/rec";
  }

  /** A gateway advertised on the shared registration topic: dialled, then dropped at once. */
  lemma OffTopicAdvertLeaks()
    ensures var s := Run(None, {}, [Advertise("registration", "g")]);
            s.phase.Idle? && s.known == {"g"} && s.live == {} && !KnownExact(None, s)
  {
    var a := Advertise("registration", "g");
    RunOne(None, {}, a);
    var s := Run(None, {}, [a]);
    assert StripRec("registration") == None;
    assert "g" in s.known && !Holds(s, "g");
  }

  /** A beacon that advertises a second new gateway: the first connection dies, its URL stays known. */
  lemma SecondAdvertLeaks()
    ensures var s := Run(None, {}, [LISTEN, Advertise("b/rec", "g"), Advertise("b/rec", "h")]);
            s.phase.Idle? && s.known == {"g", "h"} && s.live == {1} && !KnownExact(None, s)
  {
    var acts := [LISTEN, Advertise("b/rec", "g"), Advertise("b/rec", "h")];
    RunOne(None, {}, LISTEN);
    RunMore(None, {}, [LISTEN], acts[1]);
    RunMore(None, {}, [LISTEN, acts[1]], acts[2]);
    assert acts == [LISTEN, acts[1]] + [acts[2]] && [LISTEN, acts[1]] == [LISTEN] + [acts[1]];
    RecTopicOfB();
    var s := Run(None, {}, acts);
    assert s.records.Keys == {"b"} && s.records["b"].gatewayUrl == Some("h");
    assert "g" in s.known && !Holds(s, "g");
  }

  /** An abandoned sweep: the connection dies with the record, its URL stays known. */
  lemma AbandonedSweepLeaks()
    ensures var s := Run(None, {}, [LISTEN, Advertise("b/rec", "g"), Tick(LATE, ["b"]), Next, Abandon(false)]);
            s.phase.Idle? && s.records == map[] && s.known == {"g"} && s.live == {} && !KnownExact(None, s)
  {
    var x := [LISTEN, Advertise("b/rec", "g")];
    RunOne(None, {}, LISTEN);
    RunMore(None, {}, [LISTEN], x[1]);
    assert x == [LISTEN] + [x[1]];
    RecTopicOfB();
    var s := Run(None, {}, x);
    assert s.records == map["b" := Record("b/rec", "", 0, Some("g"), Some(0))];
    var end := SweepAbandoned(None, {}, x, s.records["b"]);
    assert x + [Tick(LATE, ["b"]), Next, Abandon(false)]
        == [LISTEN, Advertise("b/rec", "g"), Tick(LATE, ["b"]), Next, Abandon(false)];
    assert !Holds(end, "g") && "g" in end.known;
  }

  /** A sweep begins, after a run that left one stale beacon, and takes it out of the map. */
  lemma SweepBegun(own: Option<Url>, subs: set<string>, x: seq<Action>, r: Record) returns (acts: seq<Action>)
    requires Run(own, subs, x).phase.Idle? && Run(own, subs, x).records == map["b" := r] && r.lastSeen == 0
    ensures acts == x + [Tick(LATE, ["b"]), Next]
    ensures Run(own, subs, acts) == Run(own, subs, x).(records := map[], phase := AtUnsubscribe([], "b", r))
  {
    var s := Run(own, subs, x);
    var tick := Tick(LATE, ["b"]);
    assert Enumerates(["b"], s.records);
    assert StaleIds(s.records, ["b"], LATE) == ["b"] by {
      assert ["b"][1..] == [];
      assert IsStale(r, LATE);
    }
    RunMore(own, subs, x, tick);
    RunMore(own, subs, x + [tick], Next);
    acts := x + [tick] + [Next];
    assert map["b" := r] - {"b"} == map[];
  }

  /** Dropping a sweep at the unsubscribe await, after a run that left one stale beacon. */
  lemma SweepAbandoned(own: Option<Url>, subs: set<string>, x: seq<Action>, r: Record) returns (end: State)
    requires Run(own, subs, x).phase.Idle? && Run(own, subs, x).records == map["b" := r]
    requires r.lastSeen == 0 && r.listenTopic != ""
    ensures end == Run(own, subs, x + [Tick(LATE, ["b"]), Next, Abandon(false)])
    ensures var s := Run(own, subs, x);
            && end.phase.Idle? && end.records == map[] && end.known == s.known && end.topics == s.topics
            && end.live == s.live - Senders(r.sender)
  {
    var acts := SweepBegun(own, subs, x, r);
    RunMore(own, subs, acts, Abandon(false));
    assert acts + [Abandon(false)] == x + [Tick(LATE, ["b"]), Next, Abandon(false)];
    end := Run(own, subs, acts + [Abandon(false)]);
  }

  lemma ListenAndCast()
    ensures var s := Run(None, {}, [LISTEN, CAST]);
            && FromHandshakes([LISTEN, CAST]) && FreshIds([LISTEN, CAST])
            && s.phase.Idle? && s.subs == {"b/rec"} && s.topics == ["b/cast"]
            && s.records == map["b" := Record("b/rec", "b/cast", 0, None, None)]
  {
    RunOne(None, {}, LISTEN);
    RunMore(None, {}, [LISTEN], CAST);
    assert [LISTEN, CAST] == [LISTEN] + [CAST];
  }

  /** An abandoned sweep leaves a broadcast topic nobody serves: exactness is lost, and only that. */
  lemma AbandonedSweepOrphansTopic()
    ensures var acts := [LISTEN, CAST, Tick(LATE, ["b"]), Next, Abandon(false)];
            var s := Run(None, {}, acts);
            && FromHandshakes(acts) && FreshIds(acts)
            && s.phase.Idle? && s.records == map[] && s.topics == ["b/cast"] && !TopicsExact(s)
  {
    ListenAndCast();
    var end := SweepAbandoned(None, {}, [LISTEN, CAST], Record("b/rec", "b/cast", 0, None, None));
    assert [LISTEN, CAST] + [Tick(LATE, ["b"]), Next, Abandon(false)] == [LISTEN, CAST, Tick(LATE, ["b"]), Next, Abandon(false)];
    assert "b/cast" in end.topics && !Served(end, "b/cast");
  }

  /** Dropped at the second await the topic stays listed too, although the beacon was unsubscribed. */
  lemma AbandonedAtRetainOrphansTopic()
    ensures var acts := [LISTEN, CAST, Tick(LATE, ["b"]), Next, Unsubscribe(true), Abandon(false)];
            var s := Run(None, {}, acts);
            && FromHandshakes(acts) && FreshIds(acts)
            && s.phase.Idle? && s.records == map[] && s.subs == {} && s.topics == ["b/cast"] && !TopicsExact(s)
  {
    ListenAndCast();
    var x := SweepBegun(None, {}, [LISTEN, CAST], Record("b/rec", "b/cast", 0, None, None));
    RunMore(None, {}, x, Unsubscribe(true));
    RunMore(None, {}, x + [Unsubscribe(true)], Abandon(false));
    var acts := [LISTEN, CAST, Tick(LATE, ["b"]), Next, Unsubscribe(true), Abandon(false)];
    assert x + [Unsubscribe(true)] + [Abandon(false)] == acts;
    var end := Run(None, {}, acts);
    assert "b/cast" in end.topics && !Served(end, "b/cast");
  }

  const REQUIRED: set<string> := {"registration"}

  lemma ListenOnly()
    ensures HandshakeMade(LISTEN)
    ensures var s := Run(None, REQUIRED, [LISTEN]);
            && s.phase.Idle? && s.subs == {"registration", "b/rec"}
            && s.records == map["b" := Record("b/rec", "", 0, None, None)]
  {
    RunOne(None, REQUIRED, LISTEN);
    assert Rec("b") == "b/rec";
  }

  /** The session is lost: the beacon stays registered, and neither it nor the node's own topic is subscribed. */
  lemma LostSessionUnsubscribes()
    ensures var acts := [LISTEN, SessionLost];
            var s := Run(None, REQUIRED, acts);
            && FromHandshakes(acts) && NoBeaconTopics(REQUIRED)
            && "b" in s.records && s.records["b"].listenTopic == "b/rec" && s.subs == {} && !SubsExact(s, REQUIRED)
  {
    ListenOnly();
    RunMore(None, REQUIRED, [LISTEN], SessionLost);
    assert [LISTEN] + [SessionLost] == [LISTEN, SessionLost];
    assert StripRec("registration") == None;
  }

  /** The broker refuses to unsubscribe: the sweep completes and the topic of nobody stays subscribed. */
  lemma FailedUnsubscribeLeavesTopic()
    ensures var acts := [LISTEN, Tick(LATE, ["b"]), Next, Unsubscribe(false), Retain];
            var s := Run(None, REQUIRED, acts);
            && FromHandshakes(acts) && NoBeaconTopics(REQUIRED) && NeverLost(acts)
            && s.records == map[] && s.subs == {"registration", "b/rec"} && !SubsExact(s, REQUIRED)
  {
    ListenOnly();
    var x := SweepBegun(None, REQUIRED, [LISTEN], Record("b/rec", "", 0, None, None));
    RunMore(None, REQUIRED, x, Unsubscribe(false));
    RunMore(None, REQUIRED, x + [Unsubscribe(false)], Retain);
    var acts := [LISTEN, Tick(LATE, ["b"]), Next, Unsubscribe(false), Retain];
    assert x + [Unsubscribe(false)] + [Retain] == acts;
    assert StripRec("registration") == None;
    var end := Run(None, REQUIRED, acts);
    assert "b/rec" in end.subs && !Wanted(end, "b/rec");
  }
}
