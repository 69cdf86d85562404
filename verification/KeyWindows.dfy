/** Calls within one rotation window, and how tight the retention margin is. */
module KeyWindows {
  import opened Common
  import opened KeyTable

  /** The table holds `k` as an active row. */
  ghost predicate ActiveKey(rows: seq<Row>, k: BroadcastKey) {
    exists r :: r in rows && r.active && Load(r) == Ok(k)
  }

  /** With at most one active row, the current key is found whenever it is still current. */
  lemma LookupFindsActive(rows: seq<Row>, k: BroadcastKey, now: int)
    requires OneActive(rows) && ActiveKey(rows, k) && now < k.rotates
    ensures Lookup(rows, now).Some? && Load(Lookup(rows, now).value) == Ok(k)
  {
    var r :| r in rows && r.active && Load(r) == Ok(k);
    assert Current(r, now);
    var found := Lookup(rows, now).value;
    var i :| 0 <= i < |rows| && rows[i] == r;
    var j :| 0 <= j < |rows| && rows[j] == found;
    assert i == j;
  }

  lemma StepKeepsActive(cfg: Config, rows: seq<Row>, a: Action, k: BroadcastKey)
    requires cfg.expiry >= cfg.rotation && OneActive(rows) && ActiveKey(rows, k)
    requires k.expires == k.rotates + cfg.expiry - cfg.rotation && a.now < k.rotates
    ensures ActiveKey(Step(cfg, rows, a), k)
  {
    var r :| r in rows && r.active && Load(r) == Ok(k);
    if a.Get? {
      LookupFindsActive(rows, k, a.now);
      assert Step(cfg, rows, a) == rows;
    } else {
      assert r in Step(cfg, rows, a);
    }
  }

  lemma ReturnedIsActive(cfg: Config, acts: seq<Action>, i: nat)
    requires Ordered(acts) && i < |acts| && acts[i].Get? && Returned(cfg, acts, i).Ok?
    ensures ActiveKey(Run(cfg, acts[..i + 1]), Returned(cfg, acts, i).value)
    ensures var k := Returned(cfg, acts, i).value; k.expires == k.rotates + cfg.expiry - cfg.rotation
  {
    var before := acts[..i];
    OrderedPrefix(acts, i);
    RunKeepsTable(cfg, before, if before == [] then 0 else before[0].now);
    assert Front(acts[..i + 1]) == before;
    var found := Lookup(Run(cfg, before), acts[i].now);
    var t := Run(cfg, acts[..i + 1]);
    if found.Some? {
      assert found.value in t;
    } else {
      assert NewRow(cfg, acts[i].rotation) in t;
    }
  }

  /** As long as no clock reading reaches `rotates`, the key stays the active one. */
  lemma {:induction false} KeyStaysActive(cfg: Config, acts: seq<Action>, i: nat)
    requires cfg.expiry >= cfg.rotation && Ordered(acts)
    requires i < |acts| && acts[i].Get? && Returned(cfg, acts, i).Ok?
    requires forall j :: i < j < |acts| ==> acts[j].now < Returned(cfg, acts, i).value.rotates
    ensures ActiveKey(Run(cfg, acts), Returned(cfg, acts, i).value)
    decreases |acts|
  {
    ReturnedIsActive(cfg, acts, i);
    if |acts| == i + 1 {
      assert acts[..i + 1] == acts;
    } else {
      var front := Front(acts);
      OrderedFront(acts);
      assert front[..i] == acts[..i];
      assert forall j :: 0 <= j < |front| ==> front[j] == acts[j];
      KeyStaysActive(cfg, front, i);
      RunKeepsTable(cfg, front, front[0].now);
      StepKeepsActive(cfg, Run(cfg, front), Last(acts), Returned(cfg, acts, i).value);
    }
  }

  /** Calls `i` and `j` both succeed, `j` still inside the window of the key that `i` returned. */
  ghost predicate SameWindow(cfg: Config, acts: seq<Action>, i: nat, j: nat) {
    && Ordered(acts) && i < j < |acts| && acts[i].Get? && acts[j].Get?
    && Returned(cfg, acts, i).Ok? && Returned(cfg, acts, j).Ok?
    && acts[j].now < Returned(cfg, acts, i).value.rotates
  }

  /** All calls within one rotation window return the same key, in every run. */
  ghost predicate WindowsAreStable(cfg: Config) {
    forall acts: seq<Action>, i: nat, j: nat ::
      SameWindow(cfg, acts, i, j) ==> Returned(cfg, acts, j) == Returned(cfg, acts, i)
  }

  lemma StableWithin(cfg: Config, acts: seq<Action>, i: nat, j: nat)
    requires cfg.expiry >= cfg.rotation && SameWindow(cfg, acts, i, j)
    ensures Returned(cfg, acts, j) == Returned(cfg, acts, i)
  {
    var before := acts[..j];
    OrderedPrefix(acts, j);
    assert before[..i] == acts[..i];
    forall m | i < m < |before| ensures before[m].now < Returned(cfg, acts, i).value.rotates {
      assert End(acts[m]) <= acts[j].now;
    }
    KeyStaysActive(cfg, before, i);
    RunKeepsTable(cfg, before, before[0].now);
    LookupFindsActive(Run(cfg, before), Returned(cfg, acts, i).value, acts[j].now);
  }

  const ID0: KeyId := [0, 0, 0, 0]
  const ID1: KeyId := [0, 0, 0, 1]
  const ZEROS: KeyMaterial := [0, 0, 0, 0, 0, 0, 0, 0, 0, 0, 0, 0, 0, 0, 0, 0]

  function GetAt(now: int, id: KeyId): Action {
    Get(now, true, Rotation(now, id, ZEROS, true, true))
  }

  lemma RunFirst(cfg: Config, a: Action)
    ensures Run(cfg, [a]) == Step(cfg, [], a)
  {
    assert Front([a]) == [];
    assert Run(cfg, []) == [];
  }

  /** Configured with expiry < rotation, the active key itself is swept and its window cut short. */
  lemma ShortExpiryCutsWindow(cfg: Config)
    requires cfg.expiry < cfg.rotation
    ensures var acts := [GetAt(0, ID0), Sweep(cfg.expiry, true), GetAt(cfg.expiry, ID1)];
            && Ordered(acts)
            && Returned(cfg, acts, 0) == Ok(BroadcastKey(ID0, ZEROS, cfg.rotation, cfg.expiry))
            && acts[2].now < cfg.rotation
            && Returned(cfg, acts, 2) == Ok(BroadcastKey(ID1, ZEROS, cfg.expiry + cfg.rotation, 2 * cfg.expiry))
  {
    var acts := [GetAt(0, ID0), Sweep(cfg.expiry, true), GetAt(cfg.expiry, ID1)];
    assert acts[..0] == [] && Run(cfg, []) == [];
    RunFirst(cfg, acts[0]);
    assert acts[..1] == [acts[0]] && acts[..2] == [acts[0], acts[1]] && Front(acts[..2]) == acts[..1];
    var row := NewRow(cfg, acts[0].rotation);
    assert Retired([]) == [];
    assert Run(cfg, acts[..1]) == [row];
    assert Kept([row], cfg.expiry) == [] by {
      assert [row][1..] == [];
    }
    assert Run(cfg, acts[..2]) == [];
  }

  /** Exactly the configurations with expiry >= rotation keep one key for a whole window. */
  lemma StableIffExpiryCoversRotation(cfg: Config)
    ensures WindowsAreStable(cfg) <==> cfg.expiry >= cfg.rotation
  {
    if cfg.expiry >= cfg.rotation {
      forall acts: seq<Action>, i: nat, j: nat | SameWindow(cfg, acts, i, j)
        ensures Returned(cfg, acts, j) == Returned(cfg, acts, i)
      {
        StableWithin(cfg, acts, i, j);
      }
    } else {
      ShortExpiryCutsWindow(cfg);
      var acts := [GetAt(0, ID0), Sweep(cfg.expiry, true), GetAt(cfg.expiry, ID1)];
      assert SameWindow(cfg, acts, 0, 2) && Returned(cfg, acts, 2) != Returned(cfg, acts, 0);
    }
  }

  /**
   The retention margin cannot be improved: a key handed out at t, one second before it
   rotates, is deleted by a sweep at t + (expiry - rotation) + 1.
   */
  lemma RetentionMarginIsTight(cfg: Config)
    requires cfg.rotation >= 1 && cfg.expiry >= cfg.rotation
    ensures var t := cfg.rotation - 1;
            var acts := [GetAt(0, ID0), GetAt(t, ID1), Sweep(t + (cfg.expiry - cfg.rotation) + 1, true)];
            && Ordered(acts)
            && Returned(cfg, acts, 1).Ok? && HandedOutAt(cfg, acts, 1) == t
            && !Stored(Run(cfg, acts), Returned(cfg, acts, 1).value)
  {
    var t := cfg.rotation - 1;
    var acts := [GetAt(0, ID0), GetAt(t, ID1), Sweep(t + (cfg.expiry - cfg.rotation) + 1, true)];
    var row := NewRow(cfg, acts[0].rotation);
    RunFirst(cfg, acts[0]);
    assert Retired([]) == [];
    assert Run(cfg, [acts[0]]) == [row];
    assert acts[..1] == [acts[0]] && acts[..2] == [acts[0], acts[1]] && Front(acts[..2]) == acts[..1] && Front(acts) == acts[..2];
    assert Current(row, t) && row in [row];
    assert Lookup([row], t) == Some(row);
    assert Run(cfg, acts[..2]) == [row];
    assert Kept([row], acts[2].now) == [] by {
      assert [row][1..] == [];
    }
  }

  predicate DistinctKeyIds(ids: seq<KeyId>) {
    forall i, j :: 0 <= i < j < |ids| ==> ids[i] != ids[j]
  }

  /** When the first `n` rotation windows after 0 are over. */
  function WindowsEnd(cfg: Config, n: nat): nat {
    if n == 0 then 0 else WindowsEnd(cfg, n - 1) + cfg.rotation
  }

  lemma {:induction false} WindowsEndAt(cfg: Config, n: nat)
    ensures WindowsEnd(cfg, n) == n * cfg.rotation
  {
    if n > 0 {
      WindowsEndAt(cfg, n - 1);
      assert n * cfg.rotation == (n - 1) * cfg.rotation + cfg.rotation;
    }
  }

  /** The rows left by rotating as soon as the previous key's window is over: one per id, none current at `now`, none created before 0. */
  predicate RotationRows(cfg: Config, ids: seq<KeyId>, rows: seq<Row>, now: int) {
    |rows| == |ids| && forall r :: r in rows ==> r.keyId in ids && r.rotates <= now && r.expires >= cfg.expiry
  }

  /** At the end of the last window no row is current, so the next call rotates. */
  lemma NextRotation(cfg: Config, ids: seq<KeyId>, rows: seq<Row>, now: nat, id: KeyId)
    requires RotationRows(cfg, ids, rows, now) && id !in ids
    ensures RotationRows(cfg, ids + [id], Step(cfg, rows, GetAt(now, id)), now + cfg.rotation)
  {
    forall x | x in Retired(rows) ensures x.keyId in ids && x.rotates <= now && x.expires >= cfg.expiry {
      var i :| 0 <= i < |rows| && Retired(rows)[i] == x;
      assert rows[i] in rows;
    }
    assert Lookup(rows, now).None? && !Collides(Retired(rows), id);
  }

  /** `acts` has rotated once for each of `ids`, and the last key's window ends at `now`. */
  predicate Rotated(cfg: Config, ids: seq<KeyId>, acts: seq<Action>, now: nat) {
    && RotationRows(cfg, ids, Run(cfg, acts), now)
    && Ordered(acts) && forall a :: a in acts ==> End(a) + cfg.rotation <= now
  }

  lemma RotatedAgain(cfg: Config, ids: seq<KeyId>, before: seq<Action>, now: nat) returns (acts: seq<Action>)
    requires ids != [] && Last(ids) !in Front(ids) && Rotated(cfg, Front(ids), before, now)
    ensures Rotated(cfg, ids, acts, now + cfg.rotation)
  {
    var a := GetAt(now, Last(ids));
    acts := before + [a];
    assert Front(acts) == before && Front(ids) + [Last(ids)] == ids;
    NextRotation(cfg, Front(ids), Run(cfg, before), now, Last(ids));
    OrderedAppend(before, a, now);
  }

  lemma {:induction false} RotateForEach(cfg: Config, ids: seq<KeyId>) returns (acts: seq<Action>, now: nat)
    requires DistinctKeyIds(ids)
    ensures Rotated(cfg, ids, acts, now) && now == WindowsEnd(cfg, |ids|)
  {
    if ids == [] {
      acts, now := [], 0;
    } else {
      acts, now := RotateForEach(cfg, Front(ids));
      acts := RotatedAgain(cfg, ids, acts, now);
      now := now + cfg.rotation;
    }
  }

  lemma {:induction false} KeptAll(rows: seq<Row>, now: int)
    requires forall r :: r in rows ==> r.expires > now
    ensures Kept(rows, now) == rows
  {
    if rows != [] {
      assert rows == [rows[0]] + rows[1..] && rows[0] in rows;
      KeptAll(rows[1..], now);
    }
  }

  /** The last of ceil(expiry / rotation) creations comes before the first one expires. */
  lemma LastFitsExpiry(cfg: Config)
    requires cfg.rotation >= 1 && CeilDiv(cfg.expiry, cfg.rotation) > 0
    ensures WindowsEnd(cfg, CeilDiv(cfg.expiry, cfg.rotation) - 1) < cfg.expiry
  {
    var q, r := CeilDiv(cfg.expiry, cfg.rotation), cfg.rotation;
    WindowsEndAt(cfg, q - 1);
    assert q * r <= cfg.expiry + r - 1;
    assert q * r == (q - 1) * r + r;
  }

  /** A sweep at the instant of the last rotation, before anything expires, keeps all rows. */
  lemma SweepAfterRotations(cfg: Config, ids: seq<KeyId>, gets: seq<Action>, last: nat)
    requires Rotated(cfg, ids, gets, last + cfg.rotation) && (ids == [] || last < cfg.expiry)
    ensures Ordered(gets + [Sweep(last, true)]) && |Run(cfg, gets + [Sweep(last, true)])| == |ids|
  {
    var rows := Run(cfg, gets);
    OrderedAppend(gets, Sweep(last, true), last);
    assert Front(gets + [Sweep(last, true)]) == gets;
    assert ids == [] ==> rows == [];
    KeptAll(rows, last);
  }

  /**
   The bound on the table is reached by every configuration: given that many key ids, there is
   a run that ends in a sweep which leaves ceil(expiry / rotation) rows.
   */
  lemma TableBoundIsReached(cfg: Config, ids: seq<KeyId>) returns (acts: seq<Action>)
    requires cfg.rotation >= 1 && |ids| == CeilDiv(cfg.expiry, cfg.rotation) && DistinctKeyIds(ids)
    ensures Ordered(acts) && acts != [] && Last(acts).Sweep? && Last(acts).ok
    ensures |Run(cfg, acts)| == CeilDiv(cfg.expiry, cfg.rotation)
  {
    if ids == [] {
      acts := [Sweep(0, true)];
      assert Front(acts) == [];
    } else {
      var last, end := WindowsEnd(cfg, |ids| - 1), 0;
      acts, end := RotateForEach(cfg, ids);
      LastFitsExpiry(cfg);
      SweepAfterRotations(cfg, ids, acts, last);
      acts := acts + [Sweep(last, true)];
    }
  }

  /** Two keys, for the default configuration (3600 s and 7200 s) and all like it. */
  lemma DefaultBoundIsReached(cfg: Config) returns (acts: seq<Action>)
    requires cfg.rotation < cfg.expiry <= 2 * cfg.rotation
    ensures Ordered(acts) && acts != [] && Last(acts).Sweep? && Last(acts).ok
    ensures |Run(cfg, acts)| == 2 == CeilDiv(cfg.expiry, cfg.rotation)
  {
    QuotientIsTwo(cfg.expiry + cfg.rotation - 1, cfg.rotation);
    assert ID0[3] != ID1[3];
    acts := TableBoundIsReached(cfg, [ID0, ID1]);
  }

  lemma QuotientIsTwo(a: nat, r: nat)
    requires r >= 1 && 2 * r <= a < 3 * r
    ensures a / r == 2
  {
    assert (a / r) * r <= a < (a / r) * r + r;
    assert (a / r + 1) * r == (a / r) * r + r;
    MulCancels(a / r, 3, r);
    MulCancels(1, a / r, r);
  }
}
