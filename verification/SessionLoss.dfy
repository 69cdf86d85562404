/**
 What a lost broker session does to the beacons: nothing subscribes to their topics again, so
 they fall silent for the registry and are deregistered although they may still be talking.
 */
module SessionLoss {
  import opened Common
  import opened Registry
  import opened RegistryTopics
  import opened RegistrySubscriptions
  import opened RegistryTimeouts

  lemma ConnectIgnoresSubs(s: State, from: Option<Id>, url: Url)
    ensures ConnectAdvertised(s.(subs := {}), from, url) == ConnectAdvertised(s, from, url).(subs := {})
  {
  }

  lemma MessageIgnoresSubs(s: State, now: int, topic: string, advertised: Option<Url>)
    ensures ProcessMessage(s.(subs := {}), now, topic, advertised) == ProcessMessage(s, now, topic, advertised).(subs := {})
  {
    var from := StripRec(topic);
    var s1 := Touch(s, from, now);
    assert Touch(s.(subs := {}), from, now) == s1.(subs := {});
    if advertised.Some? {
      ConnectIgnoresSubs(s1, from, advertised.value);
    }
  }

  lemma SweepIgnoresSubs(s: State, a: Action)
    requires !a.Register? && !a.Message? && Enabled(s, a)
    ensures Step(s.(subs := {}), a) == Step(s, a).(subs := {})
  {
  }

  /** Only a registration subscribes, so a loss amid other steps shows no earlier than after them. */
  lemma LossCommutes(s: State, a: Action)
    requires !a.Register?
    ensures Step(Step(s, SessionLost), a) == Step(Step(s, a), SessionLost)
  {
    var lost := s.(subs := {});
    assert Enabled(lost, a) <==> Enabled(s, a);
    if Enabled(s, a) {
      if a.Message? {
        MessageIgnoresSubs(s, a.now, a.topic, a.advertised);
      } else {
        SweepIgnoresSubs(s, a);
      }
    }
  }

  lemma {:induction false} LossAmidSteps(s: State, acts: seq<Action>)
    requires forall i :: 0 <= i < |acts| ==> !acts[i].Register?
    ensures RunFrom(Step(s, SessionLost), acts) == Step(RunFrom(s, acts), SessionLost)
  {
    if acts != [] {
      LossAmidSteps(s, Front(acts));
      LossCommutes(RunFrom(s, Front(acts)), Last(acts));
    }
  }

  /**
   A session lost at any point of a sweep leaves what the same sweep leaves when the session is
   lost right after it.
   */
  lemma LossMidSweepIsLossAfter(s: State, before: seq<Action>, after: seq<Action>)
    requires forall i :: 0 <= i < |after| ==> !after[i].Register?
    ensures RunFrom(s, before + [SessionLost] + after) == RunFrom(s, before + after + [SessionLost])
  {
    RunFromConcat(s, before + [SessionLost], after);
    RunFromAppend(s, before, SessionLost);
    LossAmidSteps(RunFrom(s, before), after);
    RunFromConcat(s, before, after);
    RunFromAppend(s, before + after, SessionLost);
  }

  lemma StripRecMeans(topic: string, id: Id)
    ensures StripRec(topic) == Some(id) <==> topic == Rec(id)
  {
    RecStrips(id);
    if StripRec(topic) == Some(id) {
      assert topic == topic[..|topic| - 4] + topic[|topic| - 4..];
    }
  }

  /** From action `d` on, what is processed came in on a topic subscribed to: the inbound queue is drained. */
  ghost predicate OnlySubscribed(own: Option<Url>, subs: set<string>, acts: seq<Action>, d: nat) {
    forall i :: d <= i < |acts| && acts[i].Message? ==> acts[i].topic in Run(own, subs, acts[..i]).subs
  }

  predicate NotRegisteredFrom(acts: seq<Action>, k: nat, id: Id) {
    forall i :: k <= i < |acts| && acts[i].Register? ==> acts[i].channel.beaconId != id
  }

  lemma StepStaysUnsubscribed(s: State, a: Action, id: Id)
    requires HandshakeMade(a) && Rec(id) !in s.subs && (a.Register? ==> a.channel.beaconId != id)
    ensures Rec(id) !in Step(s, a).subs
  {
    if a.Register? {
      RecIsInjective(a.channel.beaconId, id);
    }
  }

  lemma ConnectRefreshesNobody(s: State, from: Option<Id>, url: Url, id: Id)
    ensures id in ConnectAdvertised(s, from, url).records <==> id in s.records
    ensures id in s.records ==> ConnectAdvertised(s, from, url).records[id].lastSeen == s.records[id].lastSeen
  {
  }

  /** A message refreshes nobody but the beacon whose topic it came in on. */
  lemma MessageRefreshesSender(s: State, now: int, topic: string, advertised: Option<Url>, id: Id)
    requires StripRec(topic) != Some(id) && id in ProcessMessage(s, now, topic, advertised).records
    ensures id in s.records && ProcessMessage(s, now, topic, advertised).records[id].lastSeen == s.records[id].lastSeen
  {
    if advertised.Some? {
      ConnectRefreshesNobody(Touch(s, StripRec(topic), now), StripRec(topic), advertised.value, id);
    }
  }

  lemma MessageOfOther(s: State, a: Action, id: Id)
    requires a.Message? && a.topic != Rec(id)
    ensures id in Step(s, a).records ==> id in s.records && Step(s, a).records[id].lastSeen == s.records[id].lastSeen
  {
    StripRecMeans(a.topic, id);
    if Enabled(s, a) && id in Step(s, a).records {
      MessageRefreshesSender(s, a.now, a.topic, a.advertised, id);
    }
  }

  lemma StepStaysUnheard(s: State, a: Action, id: Id)
    requires Rec(id) !in s.subs && (a.Register? ==> a.channel.beaconId != id) && (a.Message? ==> a.topic in s.subs)
    ensures id in Step(s, a).records ==> id in s.records && Step(s, a).records[id].lastSeen == s.records[id].lastSeen
  {
    if a.Message? {
      MessageOfOther(s, a, id);
    }
  }

  lemma {:induction false} StaysUnsubscribed(own: Option<Url>, subs: set<string>, acts: seq<Action>, k: nat, id: Id)
    requires FromHandshakes(acts) && k < |acts| && acts[k].SessionLost? && NotRegisteredFrom(acts, k, id)
    ensures Rec(id) !in Run(own, subs, acts).subs
  {
    var front := Front(acts);
    assert forall i :: 0 <= i < |front| ==> front[i] == acts[i];
    assert Last(acts) == acts[|acts| - 1] && HandshakeMade(acts[|acts| - 1]);
    if k < |front| {
      StaysUnsubscribed(own, subs, front, k, id);
      StepStaysUnsubscribed(Run(own, subs, front), Last(acts), id);
    }
  }

  lemma {:induction false} StaysUnheard(own: Option<Url>, subs: set<string>, acts: seq<Action>, k: nat, d: nat, id: Id)
    requires FromHandshakes(acts) && k < d <= |acts| && acts[k].SessionLost? && NotRegisteredFrom(acts, k, id)
    requires OnlySubscribed(own, subs, acts, d)
    ensures var s, t := Run(own, subs, acts[..d]), Run(own, subs, acts);
            id in t.records ==> id in s.records && t.records[id].lastSeen == s.records[id].lastSeen
  {
    if |acts| == d {
      assert acts[..d] == acts;
    } else {
      var front := Front(acts);
      assert forall i :: 0 <= i < |front| ==> front[i] == acts[i] && front[..i] == acts[..i];
      assert front[..d] == acts[..d] && acts[..|front|] == front;
      StaysUnheard(own, subs, front, k, d, id);
      StaysUnsubscribed(own, subs, front, k, id);
      StepStaysUnheard(Run(own, subs, front), Last(acts), id);
    }
  }

  /**
   After the session is lost at `k` and what had come in before is processed at `d`, a beacon
   that is not registered anew (each handshake draws a new id) is never heard again: it is
   gone 150 s after it was last heard, or 180 s after if the sweep has yet to visit it, and in
   any case 180 s after `d`.
   */
  lemma LostBeaconIsDeregistered(own: Option<Url>, subs: set<string>, start: int, acts: seq<Action>, k: nat, d: nat, now: int, id: Id)
    requires Punctual(own, subs, start, acts) && FromHandshakes(acts)
    requires k < d <= |acts| && acts[k].SessionLost? && NotRegisteredFrom(acts, k, id) && OnlySubscribed(own, subs, acts, d)
    requires now <= LastTick(start, acts) + CHECK_INTERVAL
    ensures var s, t := Run(own, subs, acts[..d]), Run(own, subs, acts);
            && (id !in s.records ==> id !in t.records)
            && (id in s.records && now - s.records[id].lastSeen > 150 * SECOND ==> id !in t.records || id in Pending(t.phase))
            && (id in s.records && now - s.records[id].lastSeen > 180 * SECOND ==> id !in t.records)
            && (now - Clock(start, acts[..d]) > 180 * SECOND ==> id !in t.records)
  {
    StaysUnheard(own, subs, acts, k, d, id);
    if id in Run(own, subs, acts).records {
      RegisteredWasHeardRecently(own, subs, start, acts, now, id);
      LegalPrefix(own, subs, start, acts, d);
      SeenBeforeClock(own, subs, start, acts[..d]);
    }
  }

  lemma {:induction false} LegalPrefix(own: Option<Url>, subs: set<string>, start: int, acts: seq<Action>, n: nat)
    requires Legal(own, subs, start, acts) && n <= |acts|
    ensures Legal(own, subs, start, acts[..n])
  {
    if n == |acts| {
      assert acts[..n] == acts;
    } else {
      LegalPrefix(own, subs, start, Front(acts), n);
      assert Front(acts)[..n] == acts[..n];
    }
  }
}
