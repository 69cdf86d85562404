/**
 Gateway connections in every run of the message loop, including runs in which a sweep is
 dropped at an await: at most one live connection per URL, each owned by exactly one record,
 and an exact account of the URLs that stay known although nothing is connected to them.
 */
module RegistryGateways {
  import opened Common
  import opened Registry

  ghost predicate Holds(s: State, url: Url) {
    exists id :: id in Held(s) && Held(s)[id].gatewayUrl == Some(url)
  }

  ghost predicate Owns(s: State, conn: nat) {
    exists id :: id in Held(s) && Held(s)[id].sender == Some(conn)
  }

  predicate RecordOk(s: State, own: Option<Url>, r: Record) {
    && (r.gatewayUrl.Some? <==> r.sender.Some?)
    && (r.sender.Some? ==>
          && r.sender.value in s.live
          && r.sender.value < |s.dialled|
          && s.dialled[r.sender.value] == r.gatewayUrl.value
          && r.gatewayUrl.value in s.known
          && own != r.gatewayUrl)
  }

  /**
   The mutual invariant: record URLs are known, pairwise distinct and never the own URL,
   and the live connections are exactly those owned by a record.
   */
  ghost predicate GatewaysOk(own: Option<Url>, s: State) {
    && (s.phase.InFlight() ==> s.phase.id !in s.records)
    && (forall id :: id in Held(s) ==> RecordOk(s, own, Held(s)[id]))
    && (forall id, id' :: id in Held(s) && id' in Held(s) && id != id' && Held(s)[id].gatewayUrl.Some?
          ==> Held(s)[id].gatewayUrl != Held(s)[id'].gatewayUrl)
    && (forall c :: c in s.live ==> Owns(s, c))
    && UrlSet(own) <= s.known
    && (own.Some? ==> own.value !in s.dialled)
  }

  /** From `s` to `t` no gateway field changes; records may appear, without a gateway. */
  ghost predicate Quiet(s: State, t: State) {
    && s.phase.Idle? && t.phase.Idle?
    && t.known == s.known && t.dialled == s.dialled && t.live == s.live
    && (forall id :: id in s.records ==> id in t.records)
    && (forall id :: id in t.records ==>
          if id in s.records
          then t.records[id].sender == s.records[id].sender && t.records[id].gatewayUrl == s.records[id].gatewayUrl
          else t.records[id].sender == None && t.records[id].gatewayUrl == None)
  }

  lemma TouchIsQuiet(s: State, from: Option<Id>, now: int)
    requires s.phase.Idle?
    ensures Quiet(s, Touch(s, from, now))
  {
  }

  lemma QuietKeepsGateways(own: Option<Url>, s: State, t: State)
    requires GatewaysOk(own, s) && Quiet(s, t)
    ensures GatewaysOk(own, t)
  {
    assert Held(s) == s.records && Held(t) == t.records;
    forall id | id in t.records ensures RecordOk(t, own, t.records[id]) {
      assert id in s.records ==> RecordOk(s, own, Held(s)[id]);
    }
    forall id, id' | id in t.records && id' in t.records && id != id' && t.records[id].gatewayUrl.Some?
      ensures t.records[id].gatewayUrl != t.records[id'].gatewayUrl
    {
      assert id in s.records;
      assert id' in s.records ==> Held(s)[id].gatewayUrl != Held(s)[id'].gatewayUrl;
    }
    forall c | c in t.live ensures Owns(t, c) {
      assert Owns(s, c);
      var id :| id in Held(s) && Held(s)[id].sender == Some(c);
      assert id in Held(t) && Held(t)[id].sender == Some(c);
    }
  }

  lemma QuietKeepsHeldUrls(s: State, t: State, u: Url)
    requires Quiet(s, t)
    ensures Holds(t, u) <==> Holds(s, u)
  {
    if Holds(s, u) {
      var id :| id in Held(s) && Held(s)[id].gatewayUrl == Some(u);
      assert id in Held(t) && Held(t)[id].gatewayUrl == Some(u);
    }
    if Holds(t, u) {
      var id :| id in Held(t) && Held(t)[id].gatewayUrl == Some(u);
      assert id in Held(s) && Held(s)[id].gatewayUrl == Some(u);
    }
  }

  lemma AssociateKeepsGateways(own: Option<Url>, s: State, id: Id, url: Url)
    requires GatewaysOk(own, s) && s.phase.Idle? && url !in s.known
    ensures GatewaysOk(own, AssociateGateway(Dial(s, url), id, url, |s.dialled|))
  {
    var t := AssociateGateway(Dial(s, url), id, url, |s.dialled|);
    assert Held(s) == s.records && Held(t) == t.records;
    forall c | c in t.live ensures Owns(t, c) {
      if c == |s.dialled| {
        assert id in Held(t) && Held(t)[id].sender == Some(c);
      } else {
        assert Owns(s, c);
        var i :| i in Held(s) && Held(s)[i].sender == Some(c);
        assert i != id && i in Held(t) && Held(t)[i] == Held(s)[i];
      }
    }
    forall i | i in t.records ensures RecordOk(t, own, t.records[i]) {
      if i != id {
        assert RecordOk(s, own, s.records[i]);
        if id in s.records {
          assert RecordOk(s, own, s.records[id]);
        }
      }
    }
  }

  /** A connection nobody owns is dropped at once; its URL stays known. */
  lemma DialAndDropKeepsGateways(own: Option<Url>, s: State, url: Url)
    requires GatewaysOk(own, s) && s.phase.Idle? && url !in s.known
    ensures GatewaysOk(own, DropSender(Dial(s, url), Some(|s.dialled|)))
  {
    var t := DropSender(Dial(s, url), Some(|s.dialled|));
    assert Held(t) == Held(s);
    forall id | id in Held(t) ensures RecordOk(t, own, Held(t)[id]) {
      assert RecordOk(s, own, Held(s)[id]);
    }
    forall c | c in t.live ensures Owns(t, c) {
      assert Owns(s, c);
      var id :| id in Held(s) && Held(s)[id].sender == Some(c);
      assert Held(t)[id].sender == Some(c);
    }
  }

  lemma MessageKeepsGateways(own: Option<Url>, s: State, now: int, topic: string, advertised: Option<Url>)
    requires GatewaysOk(own, s) && s.phase.Idle?
    ensures GatewaysOk(own, ProcessMessage(s, now, topic, advertised))
  {
    var from := StripRec(topic);
    var s1 := Touch(s, from, now);
    TouchIsQuiet(s, from, now);
    QuietKeepsGateways(own, s, s1);
    if advertised.Some? && advertised.value !in s1.known {
      if from.Some? {
        AssociateKeepsGateways(own, s1, from.value, advertised.value);
      } else {
        DialAndDropKeepsGateways(own, s1, advertised.value);
      }
    }
  }

  /** The record the sweep holds is dropped; its URL may or may not leave `known`. */
  lemma ReleaseKeepsGateways(own: Option<Url>, s: State, t: State)
    requires GatewaysOk(own, s) && s.phase.InFlight() && !t.phase.InFlight()
    requires t.records == s.records && t.dialled == s.dialled
    requires t.live == s.live - Senders(s.phase.record.sender)
    requires s.known - UrlSet(s.phase.record.gatewayUrl) <= t.known <= s.known
    ensures GatewaysOk(own, t)
  {
    var gone := s.phase.id;
    assert RecordOk(s, own, Held(s)[gone]);
    forall id | id in Held(t) ensures RecordOk(t, own, Held(t)[id]) {
      assert id != gone && Held(t)[id] == Held(s)[id] && RecordOk(s, own, Held(s)[id]);
    }
    forall id, id' | id in Held(t) && id' in Held(t) && id != id' && Held(t)[id].gatewayUrl.Some?
      ensures Held(t)[id].gatewayUrl != Held(t)[id'].gatewayUrl
    {
      assert Held(s)[id].gatewayUrl != Held(s)[id'].gatewayUrl;
    }
    forall c | c in t.live ensures Owns(t, c) {
      assert Owns(s, c);
      var i :| i in Held(s) && Held(s)[i].sender == Some(c);
      assert i in Held(t) && Held(t)[i] == Held(s)[i];
    }
  }

  /** Moving between the map and the sweep's hands changes nothing about gateways. */
  lemma SameHeldKeepsGateways(own: Option<Url>, s: State, t: State)
    requires GatewaysOk(own, s) && Held(t) == Held(s)
    requires t.phase.InFlight() ==> t.phase.id !in t.records
    requires t.dialled == s.dialled && t.live == s.live && t.known == s.known
    ensures GatewaysOk(own, t)
  {
    forall c | c in t.live ensures Owns(t, c) {
      assert Owns(s, c);
    }
  }

  predicate Moves(a: Action) {
    a.Tick? || a.Next? || a.Unsubscribe? || a.SessionLost?
  }

  /** Ticking, taking a record, unsubscribing and a lost session leave ownership and all gateway state alone. */
  lemma MovesKeepHeld(s: State, a: Action)
    requires Moves(a) && Enabled(s, a)
    ensures var t := Step(s, a);
            && Held(t) == Held(s)
            && t.dialled == s.dialled && t.live == s.live && t.known == s.known && t.topics == s.topics
            && (t.phase.InFlight() ==> t.phase.id !in t.records || s.phase.InFlight())
  {
    if a.Next? && s.phase.rest != [] && s.phase.rest[0] in s.records {
      assert Held(Step(s, a)) == s.records;
    }
  }

  lemma SweepStepKeepsGateways(own: Option<Url>, s: State, a: Action)
    requires GatewaysOk(own, s) && Enabled(s, a) && !a.Register? && !a.Message?
    ensures GatewaysOk(own, Step(s, a))
  {
    if Moves(a) {
      MovesKeepHeld(s, a);
      SameHeldKeepsGateways(own, s, Step(s, a));
    } else {
      ReleaseKeepsGateways(own, s, Step(s, a));
    }
  }

  lemma RegisterIsQuiet(s: State, now: int, ch: TopicChannel, ok: bool)
    requires s.phase.Idle?
    ensures Quiet(s, RegisterChannel(s, now, ch, ok))
  {
  }

  lemma StepKeepsGateways(own: Option<Url>, s: State, a: Action)
    requires GatewaysOk(own, s)
    ensures GatewaysOk(own, Step(s, a))
  {
    if Enabled(s, a) {
      match a
      case Register(now, ch, ok) =>
        RegisterIsQuiet(s, now, ch, ok);
        QuietKeepsGateways(own, s, Step(s, a));
      case Message(now, topic, gw) =>
        MessageKeepsGateways(own, s, now, topic, gw);
      case _ =>
        SweepStepKeepsGateways(own, s, a);
    }
  }

  lemma {:induction false} RunKeepsGateways(own: Option<Url>, subs: set<string>, acts: seq<Action>)
    ensures GatewaysOk(own, Run(own, subs, acts))
  {
    if acts != [] {
      RunKeepsGateways(own, subs, Front(acts));
      StepKeepsGateways(own, Run(own, subs, Front(acts)), Last(acts));
    }
  }

  /** Exactly one record owns the sender of connection `c`, and it carries that connection's URL. */
  ghost predicate OwnedByOne(s: State, c: nat)
    requires c < |s.dialled|
  {
    exists id :: (
      && id in Held(s)
      && Held(s)[id].sender == Some(c)
      && Held(s)[id].gatewayUrl == Some(s.dialled[c])
      && (forall id' :: id' in Held(s) && Held(s)[id'].sender == Some(c) ==> id' == id))
  }

  /**
   At every instant of every run, two live connections were dialled for different URLs, and
   each is owned by exactly one record, which carries that URL, which is known.
   */
  lemma OneLiveConnectionPerUrl(own: Option<Url>, subs: set<string>, acts: seq<Action>)
    ensures var s := Run(own, subs, acts);
            && (forall c :: c in s.live ==> c < |s.dialled| && s.dialled[c] in s.known && OwnedByOne(s, c))
            && (forall c, d :: c in s.live && d in s.live && s.dialled[c] == s.dialled[d] ==> c == d)
            && (forall id :: id in Held(s) && Held(s)[id].sender.Some? ==> Held(s)[id].sender.value in s.live)
  {
    RunKeepsGateways(own, subs, acts);
    var s := Run(own, subs, acts);
    forall c | c in s.live
      ensures c < |s.dialled| && s.dialled[c] in s.known && OwnedByOne(s, c)
    {
      assert Owns(s, c);
      var id :| id in Held(s) && Held(s)[id].sender == Some(c);
      assert RecordOk(s, own, Held(s)[id]);
      forall id' | id' in Held(s) && Held(s)[id'].sender == Some(c) ensures id' == id {
        assert RecordOk(s, own, Held(s)[id']);
      }
    }
    forall c, d | c in s.live && d in s.live && s.dialled[c] == s.dialled[d]
      ensures c == d
    {
      assert Owns(s, c) && Owns(s, d);
      var i :| i in Held(s) && Held(s)[i].sender == Some(c);
      var j :| j in Held(s) && Held(s)[j].sender == Some(d);
      assert RecordOk(s, own, Held(s)[i]) && RecordOk(s, own, Held(s)[j]);
    }
  }

  /** The node's own gateway URL is known at every instant and is never dialled. */
  lemma OwnUrlKnownAndNeverDialled(own: Url, subs: set<string>, acts: seq<Action>)
    ensures var s := Run(Some(own), subs, acts); own in s.known && own !in s.dialled
  {
    RunKeepsGateways(Some(own), subs, acts);
  }

  // ── URLs that stay known with no connection behind them ──────────────────────────────

  /** Known, not our own, and carried by no record. */
  ghost function Leaked(own: Option<Url>, s: State): set<Url> {
    set u | u in s.known && u !in UrlSet(own) && !Holds(s, u)
  }

  /** `known_gateways` is what its documentation says: our own URL and those we are connected to. */
  ghost predicate KnownExact(own: Option<Url>, s: State) {
    forall u :: u in s.known <==> (u in UrlSet(own) || Holds(s, u))
  }

  lemma HeldUrlsAreKnown(own: Option<Url>, s: State)
    requires GatewaysOk(own, s)
    ensures forall u :: Holds(s, u) ==> u in s.known && u !in UrlSet(own)
  {
    forall u | Holds(s, u) ensures u in s.known && u !in UrlSet(own) {
      var id :| id in Held(s) && Held(s)[id].gatewayUrl == Some(u);
      assert RecordOk(s, own, Held(s)[id]);
    }
  }

  lemma ExactMeansNoLeak(own: Option<Url>, s: State)
    requires GatewaysOk(own, s)
    ensures KnownExact(own, s) <==> Leaked(own, s) == {}
  {
    HeldUrlsAreKnown(own, s);
    if Leaked(own, s) == {} {
      forall u ensures u in s.known <==> (u in UrlSet(own) || Holds(s, u)) {
        assert u !in Leaked(own, s);
      }
    }
  }

  function AdvertLeaks(s: State, from: Option<Id>, url: Url): set<Url> {
    if from.Some? && from.value in s.records then UrlSet(s.records[from.value].gatewayUrl) else {url}
  }

  /**
   The URLs a step leaks, read off its guards: a new URL advertised on anything but a
   registered beacon's `/rec` topic, the previous URL of a beacon that advertises a second
   new one, and the URL of a record whose sweep is abandoned.
   */
  function StepLeaks(s: State, a: Action): set<Url> {
    if !Enabled(s, a) then {} else
    match a
    case Message(_, topic, Some(url)) =>
      if url in s.known then {}
      else AdvertLeaks(s, StripRec(topic), url)
    case Abandon(_) => UrlSet(s.phase.record.gatewayUrl)
    case _ => {}
  }

  function RunLeaks(own: Option<Url>, subs: set<string>, acts: seq<Action>): set<Url> {
    if acts == [] then {}
    else RunLeaks(own, subs, Front(acts)) + StepLeaks(Run(own, subs, Front(acts)), Last(acts))
  }

  lemma HeldUrlsAfterAssociate(own: Option<Url>, s: State, id: Id, url: Url, u: Url)
    requires GatewaysOk(own, s) && s.phase.Idle? && url !in s.known && id in s.records
    ensures Holds(AssociateGateway(Dial(s, url), id, url, |s.dialled|), u)
       <==> u == url || (Holds(s, u) && s.records[id].gatewayUrl != Some(u))
  {
    var t := AssociateGateway(Dial(s, url), id, url, |s.dialled|);
    assert id in Held(t) && Held(t)[id].gatewayUrl == Some(url);
    if Holds(s, u) && s.records[id].gatewayUrl != Some(u) {
      var i :| i in Held(s) && Held(s)[i].gatewayUrl == Some(u);
      assert i in Held(t) && Held(t)[i].gatewayUrl == Some(u);
    }
    if Holds(t, u) && u != url {
      var i :| i in Held(t) && Held(t)[i].gatewayUrl == Some(u);
      assert i != id && i in Held(s) && Held(s)[i].gatewayUrl == Some(u);
      assert s.records[id].gatewayUrl.Some? ==> Held(s)[i].gatewayUrl != Held(s)[id].gatewayUrl;
    }
  }

  lemma HeldUrlsAfterRelease(own: Option<Url>, s: State, t: State, u: Url)
    requires GatewaysOk(own, s) && s.phase.InFlight() && !t.phase.InFlight() && t.records == s.records
    ensures Holds(t, u) <==> Holds(s, u) && s.phase.record.gatewayUrl != Some(u)
  {
    var gone := s.phase.id;
    assert gone in Held(s) && Held(s)[gone] == s.phase.record;
    if Holds(s, u) && s.phase.record.gatewayUrl != Some(u) {
      var i :| i in Held(s) && Held(s)[i].gatewayUrl == Some(u);
      assert i in Held(t) && Held(t)[i].gatewayUrl == Some(u);
    }
    if Holds(t, u) {
      var i :| i in Held(t) && Held(t)[i].gatewayUrl == Some(u);
      assert i != gone && i in Held(s) && Held(s)[i].gatewayUrl == Some(u);
      assert Held(s)[i].gatewayUrl != Held(s)[gone].gatewayUrl;
    }
  }

  lemma DialLeaks(own: Option<Url>, s: State, from: Option<Id>, url: Url)
    requires GatewaysOk(own, s) && s.phase.Idle? && url !in s.known
    ensures Leaked(own, ConnectAdvertised(s, from, url)) == Leaked(own, s) + AdvertLeaks(s, from, url)
  {
    var t := ConnectAdvertised(s, from, url);
    if from.Some? && from.value in s.records {
      var r := s.records[from.value];
      assert from.value in Held(s) && Held(s)[from.value] == r && RecordOk(s, own, r);
      forall u ensures u in Leaked(own, t) <==> u in Leaked(own, s) || r.gatewayUrl == Some(u) {
        HeldUrlsAfterAssociate(own, s, from.value, url, u);
      }
    } else {
      assert Held(t) == Held(s);
      HeldUrlsAreKnown(own, s);
      forall u ensures u in Leaked(own, t) <==> u in Leaked(own, s) || u == url {
        assert Holds(t, u) <==> Holds(s, u);
      }
    }
  }

  lemma QuietKeepsLeaked(own: Option<Url>, s: State, t: State)
    requires Quiet(s, t)
    ensures Leaked(own, t) == Leaked(own, s)
  {
    forall u ensures u in Leaked(own, t) <==> u in Leaked(own, s) {
      QuietKeepsHeldUrls(s, t, u);
    }
  }

  lemma TouchLeaksNothing(own: Option<Url>, s: State, from: Option<Id>, now: int)
    requires GatewaysOk(own, s) && s.phase.Idle?
    ensures var s1 := Touch(s, from, now);
            GatewaysOk(own, s1) && Leaked(own, s1) == Leaked(own, s) && s1.known == s.known && s1.phase.Idle?
  {
    TouchIsQuiet(s, from, now);
    QuietKeepsGateways(own, s, Touch(s, from, now));
    QuietKeepsLeaked(own, s, Touch(s, from, now));
  }

  lemma TouchKeepsAdvertLeaks(s: State, from: Option<Id>, now: int, url: Url)
    ensures AdvertLeaks(Touch(s, from, now), from, url) == AdvertLeaks(s, from, url)
  {
  }

  lemma MessageLeaks(own: Option<Url>, s: State, now: int, topic: string, advertised: Option<Url>)
    requires GatewaysOk(own, s) && s.phase.Idle?
    ensures Leaked(own, ProcessMessage(s, now, topic, advertised))
         == Leaked(own, s) + StepLeaks(s, Message(now, topic, advertised))
  {
    var from := StripRec(topic);
    var s1 := Touch(s, from, now);
    TouchLeaksNothing(own, s, from, now);
    if advertised.Some? && advertised.value !in s1.known {
      TouchKeepsAdvertLeaks(s, from, now, advertised.value);
      DialLeaks(own, s1, from, advertised.value);
    }
  }

  lemma StepLeaksAreNew(own: Option<Url>, s: State, a: Action)
    requires GatewaysOk(own, s)
    ensures Leaked(own, s) !! StepLeaks(s, a)
  {
    forall u | u in StepLeaks(s, a) ensures u !in s.known || Holds(s, u) {
      if a.Message? && u in s.known {
        var id := StripRec(a.topic).value;
        assert id in Held(s) && Held(s)[id].gatewayUrl == Some(u);
      } else if a.Abandon? {
        var id := s.phase.id;
        assert id in Held(s) && Held(s)[id].gatewayUrl == Some(u);
      }
    }
  }

  /** A step adds exactly its own leaks: nothing that has leaked is ever recovered. */
  lemma StepLeaksExactly(own: Option<Url>, s: State, a: Action)
    requires GatewaysOk(own, s)
    ensures Leaked(own, Step(s, a)) == Leaked(own, s) + StepLeaks(s, a)
    ensures Leaked(own, s) !! StepLeaks(s, a)
  {
    StepLeaksAreNew(own, s, a);
    if Enabled(s, a) {
      match a
      case Message(now, topic, gw) =>
        MessageLeaks(own, s, now, topic, gw);
      case Register(now, ch, ok) =>
        RegisterIsQuiet(s, now, ch, ok);
        QuietKeepsLeaked(own, s, Step(s, a));
      case Retain =>
        ReleaseLeaks(own, s, Step(s, a), {});
      case Abandon(_) =>
        ReleaseLeaks(own, s, Step(s, a), UrlSet(s.phase.record.gatewayUrl));
      case _ =>
        MovesKeepHeld(s, a);
        SameHeldKeepsLeaked(own, s, Step(s, a));
    }
  }

  lemma SameHeldKeepsLeaked(own: Option<Url>, s: State, t: State)
    requires Held(t) == Held(s) && t.known == s.known
    ensures Leaked(own, t) == Leaked(own, s)
  {
    forall u ensures Holds(t, u) <==> Holds(s, u) {}
  }

  lemma ReleaseLeaks(own: Option<Url>, s: State, t: State, leak: set<Url>)
    requires GatewaysOk(own, s) && s.phase.InFlight() && !t.phase.InFlight() && t.records == s.records
    requires leak <= UrlSet(s.phase.record.gatewayUrl)
    requires t.known == s.known - (UrlSet(s.phase.record.gatewayUrl) - leak)
    ensures Leaked(own, t) == Leaked(own, s) + leak
  {
    var r := s.phase.record;
    assert Held(s)[s.phase.id] == r && RecordOk(s, own, r);
    assert r.gatewayUrl.Some? ==> Holds(s, r.gatewayUrl.value);
    forall u ensures u in Leaked(own, t) <==> u in Leaked(own, s) || u in leak {
      HeldUrlsAfterRelease(own, s, t, u);
    }
  }

  lemma {:induction false} RunLeaksExactly(own: Option<Url>, subs: set<string>, acts: seq<Action>)
    ensures Leaked(own, Run(own, subs, acts)) == RunLeaks(own, subs, acts)
  {
    if acts != [] {
      var s := Run(own, subs, Front(acts));
      RunLeaksExactly(own, subs, Front(acts));
      RunKeepsGateways(own, subs, Front(acts));
      StepLeaksExactly(own, s, Last(acts));
    }
  }

  /**
   `known_gateways` is the own URL plus the connected URLs if and only if no step so far
   advertised a new URL off a registered beacon's topic, replaced a beacon's URL, or
   abandoned the sweep of a beacon that had one.
   */
  lemma {:induction false} KnownExactIffNoStepLeaks(own: Option<Url>, subs: set<string>, acts: seq<Action>)
    ensures KnownExact(own, Run(own, subs, acts)) <==> RunLeaks(own, subs, acts) == {}
  {
    RunLeaksExactly(own, subs, acts);
    RunKeepsGateways(own, subs, acts);
    ExactMeansNoLeak(own, Run(own, subs, acts));
  }

  /**
   A leaked URL is lost for good: however the run goes on, it stays known, no connection to
   it is live and it is never dialled again.
   */
  lemma {:induction false} LeakIsPermanent(own: Option<Url>, subs: set<string>, acts: seq<Action>, more: seq<Action>, u: Url)
    requires u in Leaked(own, Run(own, subs, acts))
    ensures u in Leaked(own, Run(own, subs, acts + more))
    ensures var s := Run(own, subs, acts); var t := Run(own, subs, acts + more);
            && |s.dialled| <= |t.dialled|
            && (forall c :: |s.dialled| <= c < |t.dialled| ==> t.dialled[c] != u)
            && (forall c :: c in t.live && c < |t.dialled| ==> t.dialled[c] != u)
  {
    if more == [] {
      assert acts + more == acts;
    } else {
      var before := acts + Front(more);
      LeakIsPermanent(own, subs, acts, Front(more), u);
      assert acts + more == before + [Last(more)];
      RunFromAppend(Init(own, subs), before, Last(more));
      RunKeepsGateways(own, subs, before);
      StepLeaksExactly(own, Run(own, subs, before), Last(more));
      StepDialsUnknown(Run(own, subs, before), Last(more));
    }
    NoLiveConnectionToLeaked(own, subs, acts + more, u);
  }

  /** Only URLs that were not known get dialled, one at most per step. */
  lemma StepDialsUnknown(s: State, a: Action)
    ensures var t := Step(s, a);
            t.dialled == s.dialled || (|t.dialled| == |s.dialled| + 1 && t.dialled[..|s.dialled|] == s.dialled
                                       && t.dialled[|s.dialled|] !in s.known)
  {
  }

  lemma NoLiveConnectionToLeaked(own: Option<Url>, subs: set<string>, acts: seq<Action>, u: Url)
    requires u in Leaked(own, Run(own, subs, acts))
    ensures var s := Run(own, subs, acts); forall c :: c in s.live && c < |s.dialled| ==> s.dialled[c] != u
  {
    var s := Run(own, subs, acts);
    RunKeepsGateways(own, subs, acts);
    forall c | c in s.live && c < |s.dialled| ensures s.dialled[c] != u {
      assert Owns(s, c);
      var id :| id in Held(s) && Held(s)[id].sender == Some(c);
      assert RecordOk(s, own, Held(s)[id]);
      assert Holds(s, s.dialled[c]);
    }
  }
}
