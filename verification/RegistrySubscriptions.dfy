/**
 The broker subscriptions behind the beacons' listen topics, over runs made of handshakes: when
 a registered beacon can be heard, and an exact account of what is subscribed.
 */
module RegistrySubscriptions {
  import opened Common
  import opened Registry
  import opened RegistryGateways
  import opened RegistryTopics

  /** The records whose listen topic has not been given up: the sweep's record, until it unsubscribed. */
  function Listening(s: State): map<Id, Record> {
    if s.phase.AtUnsubscribe? then s.records[s.phase.id := s.phase.record] else s.records
  }

  /** `x` is the topic some record listens on. */
  ghost predicate Wanted(s: State, x: string) {
    exists id :: id in Listening(s) && Listening(s)[id].listenTopic == x
  }

  ghost predicate ListenersOk(s: State) {
    && (s.phase.AtUnsubscribe? ==> s.phase.id !in s.records)
    && (forall id :: id in Listening(s) ==> Listening(s)[id].listenTopic in {"", Rec(id)})
    && "" !in s.subs
  }

  /** Subscriptions that nobody registered needs any more. */
  ghost function LeftBehind(s: State, initial: set<string>): set<string> {
    set x | x in s.subs && x !in initial && !Wanted(s, x)
  }

  /** We are subscribed to what we began with and to the registered beacons' topics, and no more. */
  ghost predicate SubsExact(s: State, initial: set<string>) {
    forall x :: x in s.subs <==> x in initial || (x != "" && Wanted(s, x))
  }

  /** The topic a step subscribes to for a beacon. */
  function Subscribed(s: State, a: Action): set<string> {
    if Enabled(s, a) && a.Register? && a.channel.topicType.Listen? && a.subscribed then {a.channel.topic} else {}
  }

  /** The topic whose record ceases to listen, whether or not the broker is told. */
  function GivenUp(s: State, a: Action): set<string> {
    if s.phase.AtUnsubscribe? && Enabled(s, a) && !a.SessionLost? && s.phase.record.listenTopic != ""
    then {s.phase.record.listenTopic} else {}
  }

  /** A failed unsubscribe, or a sweep dropped before its request was queued, leaves the topic subscribed. */
  function StepLeavesBehind(s: State, a: Action): set<string> {
    if (a.Unsubscribe? && !a.ok) || (a.Abandon? && !a.queued) then GivenUp(s, a) * s.subs else {}
  }

  function RunLeavesBehind(own: Option<Url>, subs: set<string>, acts: seq<Action>): set<string> {
    if acts == [] || Last(acts).SessionLost? then {}
    else
      var s := Run(own, subs, Front(acts));
      RunLeavesBehind(own, subs, Front(acts)) + StepLeavesBehind(s, Last(acts)) - Subscribed(s, Last(acts))
  }

  /** The topics subscribed to since the session was last lost. */
  function Linked(own: Option<Url>, subs: set<string>, acts: seq<Action>): set<string> {
    if acts == [] || Last(acts).SessionLost? then {}
    else Linked(own, subs, Front(acts)) + Subscribed(Run(own, subs, Front(acts)), Last(acts))
  }

  predicate NeverLost(acts: seq<Action>) {
    forall i :: 0 <= i < |acts| ==> !acts[i].SessionLost?
  }

  /** The subscriptions made at start-up are not beacon topics. */
  predicate NoBeaconTopics(initial: set<string>) {
    forall x :: x in initial ==> x != "" && StripRec(x) == None
  }

  lemma RecIsInjective(id: Id, id': Id)
    ensures Rec(id) == Rec(id') <==> id == id'
    ensures Rec(id) != ""
  {
    RecStrips(id);
    RecStrips(id');
  }

  // ── One step ─────────────────────────────────────────────────────────────────────────

  /** What is wanted after `a`, in terms of what was wanted before. */
  ghost predicate WantedAfter(s: State, a: Action, x: string) {
    Wanted(Step(s, a), x) <==> (Wanted(s, x) && x !in GivenUp(s, a)) || x in Subscribed(s, a)
  }

  lemma SameListeners(s: State, t: State, x: string)
    requires Listening(t).Keys == Listening(s).Keys
    requires forall id :: id in Listening(s) ==> Listening(t)[id].listenTopic == Listening(s)[id].listenTopic
    ensures Wanted(t, x) <==> Wanted(s, x)
  {
    if Wanted(s, x) {
      var id :| id in Listening(s) && Listening(s)[id].listenTopic == x;
      assert id in Listening(t) && Listening(t)[id].listenTopic == x;
    }
    if Wanted(t, x) {
      var id :| id in Listening(t) && Listening(t)[id].listenTopic == x;
      assert id in Listening(s) && Listening(s)[id].listenTopic == x;
    }
  }

  lemma RegisterWanted(s: State, a: Action, x: string)
    requires ListenersOk(s) && a.Register? && HandshakeMade(a) && Enabled(s, a) && x != ""
    ensures WantedAfter(s, a, x)
  {
    var t := Step(s, a);
    if Wanted(s, x) {
      var id :| id in Listening(s) && Listening(s)[id].listenTopic == x;
      assert id in Listening(t) && Listening(t)[id].listenTopic == x;
    }
    if Wanted(t, x) && x !in Subscribed(s, a) {
      var id :| id in Listening(t) && Listening(t)[id].listenTopic == x;
      assert id in Listening(s) && Listening(s)[id].listenTopic == x;
    }
    if x in Subscribed(s, a) {
      assert a.channel.beaconId in Listening(t) && Listening(t)[a.channel.beaconId].listenTopic == x;
    }
  }

  /** Once its topic is given up, the record in flight is not listening, and nobody else had it. */
  lemma GiveUpWanted(s: State, a: Action, x: string)
    requires ListenersOk(s) && s.phase.AtUnsubscribe? && (a.Unsubscribe? || a.Abandon?) && Enabled(s, a) && x != ""
    ensures WantedAfter(s, a, x)
  {
    var t := Step(s, a);
    var b := s.phase.id;
    assert b in Listening(s) && Listening(s)[b] == s.phase.record;
    if Wanted(t, x) {
      var id :| id in Listening(t) && Listening(t)[id].listenTopic == x;
      assert id != b && id in Listening(s) && Listening(s)[id].listenTopic == x;
      RecIsInjective(id, b);
    }
    if Wanted(s, x) && x !in GivenUp(s, a) {
      var id :| id in Listening(s) && Listening(s)[id].listenTopic == x;
      assert id in Listening(t) && Listening(t)[id].listenTopic == x;
    }
  }

  lemma OtherWanted(s: State, a: Action, x: string)
    requires ListenersOk(s) && Enabled(s, a) && !a.Register? && (a.SessionLost? || !s.phase.AtUnsubscribe?)
    ensures ListenersOk(Step(s, a)) && WantedAfter(s, a, x)
  {
    if a.Next? {
      MovesKeepHeld(s, a);
    }
    SameListeners(s, Step(s, a), x);
  }

  lemma StepWanted(s: State, a: Action, x: string)
    requires ListenersOk(s) && HandshakeMade(a) && x != ""
    ensures ListenersOk(Step(s, a)) && WantedAfter(s, a, x)
  {
    if Enabled(s, a) {
      if a.Register? {
        RecIsInjective(a.channel.beaconId, a.channel.beaconId);
        RegisterWanted(s, a, x);
      } else if a.Unsubscribe? || (a.Abandon? && s.phase.AtUnsubscribe?) {
        GiveUpWanted(s, a, x);
      } else {
        OtherWanted(s, a, x);
      }
    }
  }

  lemma StepSubs(s: State, a: Action)
    requires HandshakeMade(a)
    ensures a.SessionLost? ==> Step(s, a).subs == {}
    ensures !a.SessionLost? ==> Step(s, a).subs == s.subs + Subscribed(s, a) - (GivenUp(s, a) - StepLeavesBehind(s, a))
  {
  }

  /** A topic given up was wanted, and is no start-up subscription. */
  lemma GivenUpWasWanted(s: State, a: Action, initial: set<string>)
    requires ListenersOk(s) && NoBeaconTopics(initial)
    ensures forall x :: x in GivenUp(s, a) ==> x != "" && Wanted(s, x) && x !in initial
  {
    if s.phase.AtUnsubscribe? {
      assert s.phase.id in Listening(s) && Listening(s)[s.phase.id] == s.phase.record;
      RecStrips(s.phase.id);
    }
  }

  // ── Every run ────────────────────────────────────────────────────────────────────────

  /** A wanted topic is subscribed exactly if it is linked; all are linked if no session was lost. */
  ghost predicate Synced(s: State, linked: set<string>, neverLost: bool) {
    forall x :: x != "" && Wanted(s, x) ==> (x in s.subs <==> x in linked) && (neverLost ==> x in linked)
  }

  /** `t` wants and is subscribed to what `s` is, plus `added`, without `dropped`; of that `left` stays subscribed. */
  ghost predicate Shifts(s: State, t: State, added: set<string>, dropped: set<string>, left: set<string>) {
    && added !! dropped && left <= dropped * s.subs
    && (forall x :: x != "" ==> (Wanted(t, x) <==> (Wanted(s, x) && x !in dropped) || x in added))
    && t.subs == s.subs + added - (dropped - left)
  }

  lemma ShiftKeepsSynced(s: State, t: State, added: set<string>, dropped: set<string>, left: set<string>,
                         linked: set<string>, neverLost: bool)
    requires Shifts(s, t, added, dropped, left) && Synced(s, linked, neverLost)
    ensures Synced(t, linked + added, neverLost)
  {
  }

  lemma ShiftLeavesBehind(s: State, t: State, added: set<string>, dropped: set<string>, left: set<string>, initial: set<string>)
    requires Shifts(s, t, added, dropped, left) && "" !in s.subs && "" !in added
    requires forall x :: x in dropped ==> x != "" && Wanted(s, x) && x !in initial
    ensures LeftBehind(t, initial) == LeftBehind(s, initial) + left - added
  {
  }

  lemma StepShifts(s: State, a: Action)
    requires ListenersOk(s) && HandshakeMade(a) && !a.SessionLost?
    ensures Shifts(s, Step(s, a), Subscribed(s, a), GivenUp(s, a), StepLeavesBehind(s, a))
  {
    StepSubs(s, a);
    forall x | x != ""
      ensures Wanted(Step(s, a), x) <==> (Wanted(s, x) && x !in GivenUp(s, a)) || x in Subscribed(s, a)
    {
      StepWanted(s, a, x);
    }
  }

  lemma LossSynced(s: State)
    requires ListenersOk(s)
    ensures ListenersOk(Step(s, SessionLost)) && Synced(Step(s, SessionLost), {}, false)
  {
  }

  lemma StepSynced(s: State, a: Action, linked: set<string>, neverLost: bool, initial: set<string>)
    requires ListenersOk(s) && HandshakeMade(a) && !a.SessionLost? && Synced(s, linked, neverLost) && NoBeaconTopics(initial)
    ensures ListenersOk(Step(s, a)) && Synced(Step(s, a), linked + Subscribed(s, a), neverLost)
    ensures LeftBehind(Step(s, a), initial) == LeftBehind(s, initial) + StepLeavesBehind(s, a) - Subscribed(s, a)
  {
    StepWanted(s, a, "x");
    StepShifts(s, a);
    ShiftKeepsSynced(s, Step(s, a), Subscribed(s, a), GivenUp(s, a), StepLeavesBehind(s, a), linked, neverLost);
    GivenUpWasWanted(s, a, initial);
    SubscribedIsNew(a, initial);
    ShiftLeavesBehind(s, Step(s, a), Subscribed(s, a), GivenUp(s, a), StepLeavesBehind(s, a), initial);
  }

  lemma SubscribedIsNew(a: Action, initial: set<string>)
    requires HandshakeMade(a) && NoBeaconTopics(initial)
    ensures a.Register? && a.channel.topicType.Listen? ==> a.channel.topic !in initial && a.channel.topic != ""
  {
    if a.Register? {
      RecStrips(a.channel.beaconId);
    }
  }

  lemma {:induction false} RunSubs(own: Option<Url>, subs: set<string>, acts: seq<Action>)
    requires FromHandshakes(acts) && NoBeaconTopics(subs)
    ensures ListenersOk(Run(own, subs, acts))
    ensures Synced(Run(own, subs, acts), Linked(own, subs, acts), NeverLost(acts))
    ensures LeftBehind(Run(own, subs, acts), subs) == RunLeavesBehind(own, subs, acts)
    ensures forall x :: x in subs ==> (x in Run(own, subs, acts).subs <==> NeverLost(acts))
  {
    if acts != [] {
      var front, a := Front(acts), Last(acts);
      var s := Run(own, subs, front);
      RunSubs(own, subs, front);
      assert NeverLost(acts) <==> NeverLost(front) && !a.SessionLost? by {
        assert a == acts[|front|] && forall i :: 0 <= i < |front| ==> front[i] == acts[i];
      }
      if a.SessionLost? {
        LossSynced(s);
      } else {
        StepSynced(s, a, Linked(own, subs, front), NeverLost(front), subs);
        StepSubs(s, a);
        GivenUpWasWanted(s, a, subs);
        SubscribedIsNew(a, subs);
      }
    }
  }

  /** Action `j` subscribes to the listen topic of `id`. */
  predicate SubscribesAt(own: Option<Url>, subs: set<string>, acts: seq<Action>, j: nat, id: Id) {
    j < |acts| && acts[j].Register? && acts[j].channel.topicType.Listen? && acts[j].subscribed
    && acts[j].channel.beaconId == id && Run(own, subs, acts[..j]).phase.Idle?
  }

  /** `id` was subscribed to, and the session has not been lost since. */
  ghost predicate SubscribedSinceLoss(own: Option<Url>, subs: set<string>, acts: seq<Action>, id: Id) {
    exists j: nat :: SubscribesAt(own, subs, acts, j, id) && forall m :: j < m < |acts| ==> !acts[m].SessionLost?
  }

  lemma SubscribedSinceLossStep(own: Option<Url>, subs: set<string>, acts: seq<Action>, id: Id)
    requires acts != []
    ensures SubscribedSinceLoss(own, subs, acts, id) <==>
            || SubscribesAt(own, subs, acts, |acts| - 1, id)
            || (SubscribedSinceLoss(own, subs, Front(acts), id) && !Last(acts).SessionLost?)
  {
    var front, n := Front(acts), |acts| - 1;
    forall j: nat | j < n ensures SubscribesAt(own, subs, acts, j, id) <==> SubscribesAt(own, subs, front, j, id) {
      assert acts[..j] == front[..j];
    }
    if SubscribedSinceLoss(own, subs, front, id) && !Last(acts).SessionLost? {
      var j: nat :| SubscribesAt(own, subs, front, j, id) && forall m :: j < m < n ==> !front[m].SessionLost?;
      assert SubscribesAt(own, subs, acts, j, id) && forall m :: j < m < n ==> acts[m] == front[m];
    }
    if SubscribedSinceLoss(own, subs, acts, id) && !SubscribesAt(own, subs, acts, n, id) {
      var j: nat :| SubscribesAt(own, subs, acts, j, id) && forall m :: j < m < |acts| ==> !acts[m].SessionLost?;
      assert SubscribesAt(own, subs, front, j, id) && forall m :: j < m < n ==> acts[m] == front[m];
    }
  }

  lemma {:induction false} LinkedMeans(own: Option<Url>, subs: set<string>, acts: seq<Action>, id: Id)
    requires FromHandshakes(acts)
    ensures Rec(id) in Linked(own, subs, acts) <==> SubscribedSinceLoss(own, subs, acts, id)
  {
    if acts != [] {
      var n := |acts| - 1;
      LinkedMeans(own, subs, Front(acts), id);
      SubscribedSinceLossStep(own, subs, acts, id);
      assert acts[..n] == Front(acts) && HandshakeMade(acts[n]);
      if acts[n].Register? {
        RecIsInjective(acts[n].channel.beaconId, id);
      }
    }
  }

  /**
   In every run a registered beacon whose listen topic was confirmed is subscribed to if and
   only if the session has not been lost since that subscription. Nothing else unsubscribes it.
   */
  lemma SubscribedIffSessionKept(own: Option<Url>, subs: set<string>, acts: seq<Action>, id: Id)
    requires FromHandshakes(acts) && NoBeaconTopics(subs) && id in Run(own, subs, acts).records
    ensures var s := Run(own, subs, acts); var l := s.records[id].listenTopic;
            l == "" || (l == Rec(id) && (l in s.subs <==> SubscribedSinceLoss(own, subs, acts, id)))
  {
    RunSubs(own, subs, acts);
    LinkedMeans(own, subs, acts, id);
    var s := Run(own, subs, acts);
    assert id in Listening(s) && Listening(s)[id] == s.records[id];
    assert Wanted(s, s.records[id].listenTopic);
  }

  /** A start-up subscription is there if and only if no session was ever lost: it is never made again. */
  lemma RequiredIffNeverLost(own: Option<Url>, subs: set<string>, acts: seq<Action>, x: string)
    requires FromHandshakes(acts) && NoBeaconTopics(subs) && x in subs
    ensures x in Run(own, subs, acts).subs <==> NeverLost(acts)
  {
    RunSubs(own, subs, acts);
  }

  /** Every registered beacon has been subscribed to since the session was last lost. */
  ghost predicate AllRelinked(own: Option<Url>, subs: set<string>, acts: seq<Action>) {
    forall id :: id in Listening(Run(own, subs, acts)) && Listening(Run(own, subs, acts))[id].listenTopic != ""
      ==> SubscribedSinceLoss(own, subs, acts, id)
  }

  /**
   The subscriptions are exactly the initial ones and the registered beacons' topics, if and
   only if nothing a failed or dropped unsubscribe left behind is still there, and either no
   session was ever lost, or there was nothing initial to lose and every registered beacon has
   been subscribed to since.
   */
  lemma SubsExactIffNothingLeftOrLost(own: Option<Url>, subs: set<string>, acts: seq<Action>)
    requires FromHandshakes(acts) && NoBeaconTopics(subs)
    ensures SubsExact(Run(own, subs, acts), subs) <==>
            && RunLeavesBehind(own, subs, acts) == {}
            && (NeverLost(acts) || (subs == {} && AllRelinked(own, subs, acts)))
  {
    RunSubs(own, subs, acts);
    var s := Run(own, subs, acts);
    forall id | id in Listening(s) && Listening(s)[id].listenTopic != ""
      ensures Wanted(s, Rec(id)) && (Rec(id) in s.subs <==> SubscribedSinceLoss(own, subs, acts, id))
      ensures Listening(s)[id].listenTopic == Rec(id)
    {
      assert Wanted(s, Listening(s)[id].listenTopic);
      RecIsInjective(id, id);
      LinkedMeans(own, subs, acts, id);
    }
    if SubsExact(s, subs) {
      assert LeftBehind(s, subs) == {};
    } else if LeftBehind(s, subs) == {} {
      var x :| !(x in s.subs <==> x in subs || (x != "" && Wanted(s, x)));
      assert x !in LeftBehind(s, subs);
      if x !in subs {
        var id :| id in Listening(s) && Listening(s)[id].listenTopic == x;
      }
    }
  }
}
