/**
 The shared list of broadcast topics, over runs whose channels come from the device
 handshake: beacon `id` listens on `id/rec` and is broadcast to on `id/cast`.
 */
module RegistryTopics {
  import opened Common
  import opened Registry
  import opened RegistryGateways

  // Names shared with the handshake.
  function Cast(id: Id): string { id + "/cast" }
  function Rec(id: Id): string { id + "/rec" }

  predicate HandshakeMade(a: Action) {
    a.Register? ==>
      match a.channel.topicType
      case Listen => a.channel.topic == Rec(a.channel.beaconId)
      case Broadcast => a.channel.topic == Cast(a.channel.beaconId)
      case Hybrid => false
  }

  predicate FromHandshakes(acts: seq<Action>) {
    forall i :: 0 <= i < |acts| ==> HandshakeMade(acts[i])
  }

  lemma CastIsInjective(id: Id, id': Id)
    ensures Cast(id) == Cast(id') <==> id == id'
    ensures Cast(id) != ""
  {
    if Cast(id) == Cast(id') {
      assert id == Cast(id)[..|Cast(id)| - 5] == Cast(id')[..|Cast(id')| - 5] == id';
    }
  }

  lemma RecStrips(id: Id)
    ensures StripRec(Rec(id)) == Some(id)
  {
    assert Rec(id)[|Rec(id)| - 4..] == "/rec";
    assert Rec(id)[..|Rec(id)| - 4] == id;
  }

  /** `retain` keeps exactly the other topics, and keeps a duplicate-free list duplicate-free. */
  lemma {:induction false} WithoutMeans(topics: seq<string>, topic: string)
    ensures forall t :: t in Without(topics, topic) <==> t in topics && t != topic
    ensures Distinct(topics) ==> Distinct(Without(topics, topic))
  {
    if topics != [] {
      WithoutMeans(topics[1..], topic);
      var rest := Without(topics[1..], topic);
      assert topics == [topics[0]] + topics[1..];
      if Distinct(topics) {
        assert topics[0] !in topics[1..];
        assert Distinct(topics[1..]);
        assert forall i :: 0 <= i < |rest| ==> rest[i] in rest;
      }
    }
  }

  /** `t` is the broadcast topic of a record that is still owned. */
  ghost predicate Served(s: State, t: string) {
    exists id :: id in Held(s) && Held(s)[id].broadcastTopic == t
  }

  ghost predicate TopicsOk(s: State) {
    && (s.phase.InFlight() ==> s.phase.id !in s.records)
    && (forall id :: id in Held(s) ==> Held(s)[id].broadcastTopic in {"", Cast(id)})
    && (forall id :: id in Held(s) ==> Held(s)[id].listenTopic in {"", Rec(id)})
    && (forall id :: id in Held(s) && Held(s)[id].broadcastTopic != "" ==> Held(s)[id].broadcastTopic in s.topics)
    && "" !in s.topics
  }

  /** Listed topics that no registered beacon has. */
  ghost function Orphans(s: State): set<string> {
    set t | t in s.topics && !Served(s, t)
  }

  ghost predicate TopicsExact(s: State) {
    forall t :: t in s.topics <==> t != "" && Served(s, t)
  }

  lemma ExactMeansNoOrphan(s: State)
    requires TopicsOk(s)
    ensures TopicsExact(s) <==> Orphans(s) == {}
  {
    if Orphans(s) == {} {
      forall t ensures t in s.topics <==> t != "" && Served(s, t) {
        assert t !in Orphans(s);
      }
    }
  }

  /** Abandoning the sweep of a beacon that has a broadcast topic leaves that topic behind. */
  function StepOrphans(s: State, a: Action): set<string> {
    if a.Abandon? && Enabled(s, a) && s.phase.record.broadcastTopic != ""
    then {s.phase.record.broadcastTopic} else {}
  }

  /** Registering a beacon's broadcast channel again gives its topic an owner again. */
  function Adopted(s: State, a: Action): set<string> {
    if a.Register? && a.channel.topicType.Broadcast? && Enabled(s, a) then {a.channel.topic} else {}
  }

  function RunOrphans(own: Option<Url>, subs: set<string>, acts: seq<Action>): set<string> {
    if acts == [] then {}
    else
      var s := Run(own, subs, Front(acts));
      RunOrphans(own, subs, Front(acts)) + StepOrphans(s, Last(acts)) - Adopted(s, Last(acts))
  }

  /** Steps after which the same records are held with the same topics, under the same list. */
  lemma SameTopics(s: State, t: State)
    requires TopicsOk(s) && t.topics == s.topics
    requires t.phase.InFlight() ==> t.phase.id !in t.records
    requires Held(t).Keys == Held(s).Keys
    requires forall id :: id in Held(s) ==> Held(t)[id].broadcastTopic == Held(s)[id].broadcastTopic
    requires forall id :: id in Held(s) ==> Held(t)[id].listenTopic == Held(s)[id].listenTopic
    ensures TopicsOk(t) && Orphans(t) == Orphans(s)
  {
    forall x ensures Served(t, x) <==> Served(s, x) {
      if Served(s, x) {
        var id :| id in Held(s) && Held(s)[id].broadcastTopic == x;
        assert id in Held(t) && Held(t)[id].broadcastTopic == x;
      }
      if Served(t, x) {
        var id :| id in Held(t) && Held(t)[id].broadcastTopic == x;
        assert id in Held(s) && Held(s)[id].broadcastTopic == x;
      }
    }
  }

  /** Registering serves what was served before, and the topic it announces. */
  lemma RegisterServed(s: State, a: Action, x: string)
    requires TopicsOk(s) && a.Register? && HandshakeMade(a) && Enabled(s, a) && x != ""
    ensures Served(Step(s, a), x) <==> Served(s, x) || x in Adopted(s, a)
  {
    var t := Step(s, a);
    var b := a.channel.beaconId;
    if Served(s, x) {
      var id :| id in Held(s) && Held(s)[id].broadcastTopic == x;
      assert id in Held(t) && Held(t)[id].broadcastTopic == x;
    }
    if Served(t, x) && x !in Adopted(s, a) {
      var id :| id in Held(t) && Held(t)[id].broadcastTopic == x;
      assert id in Held(s) && Held(s)[id].broadcastTopic == x;
    }
    if x in Adopted(s, a) {
      assert b in Held(t) && Held(t)[b].broadcastTopic == x;
    }
  }

  lemma RegisterTopics(s: State, a: Action)
    requires TopicsOk(s) && a.Register? && HandshakeMade(a) && Enabled(s, a)
    ensures TopicsOk(Step(s, a)) && Orphans(Step(s, a)) == Orphans(s) - Adopted(s, a)
  {
    var t := Step(s, a);
    CastIsInjective(a.channel.beaconId, a.channel.beaconId);
    forall x | x != "" ensures Served(t, x) <==> Served(s, x) || x in Adopted(s, a) {
      RegisterServed(s, a, x);
    }
  }

  /** After a record is released its own topic is served by nobody else. */
  lemma ReleaseServed(s: State, t: State, x: string)
    requires TopicsOk(s) && s.phase.InFlight() && !t.phase.InFlight() && t.records == s.records && x != ""
    ensures Served(t, x) <==> Served(s, x) && x != s.phase.record.broadcastTopic
  {
    var b := s.phase.id;
    assert b in Held(s) && Held(s)[b] == s.phase.record;
    if Served(t, x) {
      var id :| id in Held(t) && Held(t)[id].broadcastTopic == x;
      assert id != b && id in Held(s) && Held(s)[id].broadcastTopic == x;
      CastIsInjective(id, b);
    }
    if Served(s, x) && x != s.phase.record.broadcastTopic {
      var id :| id in Held(s) && Held(s)[id].broadcastTopic == x;
      assert id in Held(t) && Held(t)[id].broadcastTopic == x;
    }
  }

  lemma ReleaseTopics(s: State, a: Action)
    requires TopicsOk(s) && (a.Retain? || a.Abandon?) && Enabled(s, a)
    ensures TopicsOk(Step(s, a)) && Orphans(Step(s, a)) == Orphans(s) + StepOrphans(s, a)
  {
    var t := Step(s, a);
    var gone := s.phase.record.broadcastTopic;
    WithoutMeans(s.topics, gone);
    assert s.phase.id in Held(s) && Held(s)[s.phase.id].broadcastTopic == gone;
    assert Served(s, gone);
    forall id | id in Held(t) && Held(t)[id].broadcastTopic != "" ensures Held(t)[id].broadcastTopic in t.topics {
      assert id in Held(s) && Held(s)[id] == Held(t)[id];
      assert Served(t, Held(t)[id].broadcastTopic);
      ReleaseServed(s, t, Held(t)[id].broadcastTopic);
    }
    assert TopicsOk(t);
    forall x ensures x in Orphans(t) <==> x in Orphans(s) || x in StepOrphans(s, a) {
      if x != "" {
        ReleaseServed(s, t, x);
      }
    }
  }

  lemma MessageTopics(s: State, a: Action)
    requires TopicsOk(s) && a.Message? && Enabled(s, a)
    ensures TopicsOk(Step(s, a)) && Orphans(Step(s, a)) == Orphans(s)
  {
    SameTopics(s, Step(s, a));
  }

  lemma MoveTopics(s: State, a: Action)
    requires TopicsOk(s) && Moves(a) && Enabled(s, a)
    ensures TopicsOk(Step(s, a)) && Orphans(Step(s, a)) == Orphans(s)
  {
    MovesKeepHeld(s, a);
    SameTopics(s, Step(s, a));
  }

  lemma StepTopics(s: State, a: Action)
    requires TopicsOk(s) && HandshakeMade(a)
    ensures TopicsOk(Step(s, a))
    ensures Orphans(Step(s, a)) == Orphans(s) + StepOrphans(s, a) - Adopted(s, a)
  {
    if Enabled(s, a) {
      if a.Register? {
        RegisterTopics(s, a);
      } else if a.Retain? || a.Abandon? {
        ReleaseTopics(s, a);
      } else if a.Message? {
        MessageTopics(s, a);
      } else {
        MoveTopics(s, a);
      }
    }
  }

  lemma {:induction false} RunTopics(own: Option<Url>, subs: set<string>, acts: seq<Action>)
    requires FromHandshakes(acts)
    ensures TopicsOk(Run(own, subs, acts))
    ensures Orphans(Run(own, subs, acts)) == RunOrphans(own, subs, acts)
  {
    if acts != [] {
      RunTopics(own, subs, Front(acts));
      StepTopics(Run(own, subs, Front(acts)), Last(acts));
    }
  }

  /** Abandoned sweeps or not, every registered beacon's broadcast topic is in the list. */
  lemma RegisteredTopicsAreListed(own: Option<Url>, subs: set<string>, acts: seq<Action>, id: Id)
    requires FromHandshakes(acts)
    requires id in Run(own, subs, acts).records
    ensures var s := Run(own, subs, acts); var t := s.records[id].broadcastTopic;
            t == "" || (t == Cast(id) && t in s.topics)
  {
    RunTopics(own, subs, acts);
    var s := Run(own, subs, acts);
    assert Held(s)[id] == s.records[id];
  }

  /** The list is exactly the registered beacons' topics, iff no abandoned topic is still unclaimed. */
  lemma TopicsExactIffNoOrphans(own: Option<Url>, subs: set<string>, acts: seq<Action>)
    requires FromHandshakes(acts)
    ensures TopicsExact(Run(own, subs, acts)) <==> RunOrphans(own, subs, acts) == {}
  {
    RunTopics(own, subs, acts);
    ExactMeansNoOrphan(Run(own, subs, acts));
  }

  /** When no sweep is abandoned the list is exact at every instant. */
  lemma {:induction false} UninterruptedSweepsKeepTopicsExact(own: Option<Url>, subs: set<string>, acts: seq<Action>)
    requires FromHandshakes(acts)
    requires forall i :: 0 <= i < |acts| ==> !acts[i].Abandon?
    ensures TopicsExact(Run(own, subs, acts))
  {
    NoAbandonNoOrphans(own, subs, acts);
    TopicsExactIffNoOrphans(own, subs, acts);
  }

  lemma {:induction false} NoAbandonNoOrphans(own: Option<Url>, subs: set<string>, acts: seq<Action>)
    requires forall i :: 0 <= i < |acts| ==> !acts[i].Abandon?
    ensures RunOrphans(own, subs, acts) == {}
  {
    if acts != [] {
      NoAbandonNoOrphans(own, subs, Front(acts));
    }
  }

  // ── One broadcast channel per handshake id ───────────────────────────────────────────

  predicate Broadcasts(a: Action, id: Id) {
    a.Register? && a.channel.topicType.Broadcast? && a.channel.beaconId == id
  }

  /** Handshake ids are fresh, so each id's broadcast channel is delivered at most once. */
  predicate FreshIds(acts: seq<Action>) {
    forall i, j :: 0 <= i < j < |acts| && acts[j].Register? && acts[j].channel.topicType.Broadcast?
      ==> !Broadcasts(acts[i], acts[j].channel.beaconId)
  }

  ghost predicate Announced(acts: seq<Action>, t: string) {
    exists i :: 0 <= i < |acts| && acts[i].Register? && acts[i].channel.topicType.Broadcast? && acts[i].channel.topic == t
  }

  lemma {:induction false} ListedWasAnnounced(own: Option<Url>, subs: set<string>, acts: seq<Action>)
    requires FromHandshakes(acts)
    ensures forall t :: t in Run(own, subs, acts).topics ==> Announced(acts, t)
  {
    if acts != [] {
      var front := Front(acts);
      var s := Run(own, subs, front);
      ListedWasAnnounced(own, subs, front);
      if s.phase.AtRetain? {
        WithoutMeans(s.topics, s.phase.record.broadcastTopic);
      }
      forall t | t in Run(own, subs, acts).topics ensures Announced(acts, t) {
        if t in s.topics {
          assert Announced(front, t);
          var i :| 0 <= i < |front| && front[i].Register? && front[i].channel.topicType.Broadcast? && front[i].channel.topic == t;
          assert acts[i] == front[i];
        } else {
          assert Last(acts) == acts[|acts| - 1];
        }
      }
    }
  }

  /** A fresh id's topic is not yet in the list. */
  lemma FreshTopicIsNew(own: Option<Url>, subs: set<string>, acts: seq<Action>)
    requires FromHandshakes(acts) && FreshIds(acts) && acts != []
    requires Last(acts).Register? && Last(acts).channel.topicType.Broadcast?
    ensures Last(acts).channel.topic !in Run(own, subs, Front(acts)).topics
  {
    var front := Front(acts);
    var b := Last(acts).channel.beaconId;
    ListedWasAnnounced(own, subs, front);
    forall i | 0 <= i < |front| && front[i].Register? && front[i].channel.topicType.Broadcast?
      ensures front[i].channel.topic != Cast(b)
    {
      assert acts[i] == front[i] && HandshakeMade(acts[i]) && !Broadcasts(acts[i], b);
      CastIsInjective(front[i].channel.beaconId, b);
    }
    assert HandshakeMade(acts[|acts| - 1]);
  }

  /** With fresh ids each topic is listed once, so a cycle publishes to each beacon once. */
  lemma {:induction false} FreshIdsListTopicsOnce(own: Option<Url>, subs: set<string>, acts: seq<Action>)
    requires FromHandshakes(acts) && FreshIds(acts)
    ensures Distinct(Run(own, subs, acts).topics)
  {
    if acts != [] {
      var s := Run(own, subs, Front(acts));
      FreshIdsListTopicsOnce(own, subs, Front(acts));
      if s.phase.AtRetain? {
        WithoutMeans(s.topics, s.phase.record.broadcastTopic);
      }
      var a := Last(acts);
      if a.Register? && a.channel.topicType.Broadcast? {
        FreshTopicIsNew(own, subs, acts);
      }
      assert HandshakeMade(acts[|acts| - 1]);
    }
  }

  /** Every topic orphaned so far, whether or not it was adopted since. */
  function EverOrphaned(own: Option<Url>, subs: set<string>, acts: seq<Action>): set<string> {
    if acts == [] then {}
    else EverOrphaned(own, subs, Front(acts)) + StepOrphans(Run(own, subs, Front(acts)), Last(acts))
  }

  /** With fresh ids no orphan is ever adopted. */
  lemma {:induction false} FreshOrphansStay(own: Option<Url>, subs: set<string>, acts: seq<Action>)
    requires FromHandshakes(acts) && FreshIds(acts)
    ensures RunOrphans(own, subs, acts) == EverOrphaned(own, subs, acts)
  {
    if acts != [] {
      var front, a := Front(acts), Last(acts);
      FreshOrphansStay(own, subs, front);
      RunTopics(own, subs, front);
      if a.Register? && a.channel.topicType.Broadcast? {
        FreshTopicIsNew(own, subs, acts);
      }
    }
  }

  /** Action `i` of the run orphans no topic. */
  predicate OrphansNothing(own: Option<Url>, subs: set<string>, acts: seq<Action>, i: nat) {
    i < |acts| ==> StepOrphans(Run(own, subs, acts[..i]), acts[i]) == {}
  }

  lemma {:induction false} NeverOrphanedMeans(own: Option<Url>, subs: set<string>, acts: seq<Action>)
    ensures EverOrphaned(own, subs, acts) == {} <==> forall i: nat :: i < |acts| ==> OrphansNothing(own, subs, acts, i)
  {
    if acts != [] {
      var front, n := Front(acts), |acts| - 1;
      NeverOrphanedMeans(own, subs, front);
      forall i: nat | i < n ensures OrphansNothing(own, subs, acts, i) <==> OrphansNothing(own, subs, front, i) {
        assert acts[i] == front[i] && acts[..i] == front[..i];
      }
      assert acts[..n] == front && acts[n] == Last(acts);
      assert OrphansNothing(own, subs, acts, n) <==> StepOrphans(Run(own, subs, front), Last(acts)) == {};
    }
  }

  /**
   With fresh ids an orphaned topic is never claimed again: the list is exact if and only if
   no abandoned sweep ever held a beacon with a broadcast topic.
   */
  lemma FreshTopicsExactIffNoStepOrphans(own: Option<Url>, subs: set<string>, acts: seq<Action>)
    requires FromHandshakes(acts) && FreshIds(acts)
    ensures TopicsExact(Run(own, subs, acts)) <==> forall i: nat :: i < |acts| ==> OrphansNothing(own, subs, acts, i)
  {
    TopicsExactIffNoOrphans(own, subs, acts);
    FreshOrphansStay(own, subs, acts);
    NeverOrphanedMeans(own, subs, acts);
  }
}
