/**
 The broadcast key table: rotation as two statements that may each fail, the sweep as a
 third, the clock read anew before each. `rotation` and `expiry` are in whole seconds.
 */
module KeyTable {
  import opened Common

  type byte = x: int | 0 <= x < 256
  type KeyId = s: seq<byte> | |s| == 4 witness [0, 0, 0, 0]
  type KeyMaterial = s: seq<byte> | |s| == 16 witness [0, 0, 0, 0, 0, 0, 0, 0, 0, 0, 0, 0, 0, 0, 0, 0]

  datatype Config = Config(rotation: nat, expiry: nat)

  /** A row as stored: the blobs have whatever length was written. */
  datatype Row = Row(keyId: seq<byte>, material: seq<byte>, created: int, rotates: int, expires: int, active: bool)

  datatype BroadcastKey = BroadcastKey(keyId: KeyId, material: KeyMaterial, rotates: int, expires: int)

  datatype Error = Query | Retire | Insert | CorruptId(len: nat) | CorruptMaterial(len: nat)

  /** What `rotate_key` draws and meets: its clock, its random bytes, and both statements' fates. */
  datatype Rotation = Rotation(now: int, keyId: KeyId, material: KeyMaterial, retireOk: bool, insertOk: bool)

  datatype Action =
    | Get(now: int, queryOk: bool, rotation: Rotation)
    | Sweep(now: int, ok: bool)

  function BuildKey(keyId: seq<byte>, material: seq<byte>, rotates: int, expires: int): Result<BroadcastKey, Error> {
    if |keyId| != 4 then Err(CorruptId(|keyId|))
    else if |material| != 16 then Err(CorruptMaterial(|material|))
    else Ok(BroadcastKey(keyId, material, rotates, expires))
  }

  function Load(r: Row): Result<BroadcastKey, Error> {
    BuildKey(r.keyId, r.material, r.rotates, r.expires)
  }

  /** A row loads exactly if its blobs have the right lengths; then nothing of it is changed. */
  lemma LoadOutcome(r: Row)
    ensures Load(r).Ok? <==> |r.keyId| == 4 && |r.material| == 16
    ensures Load(r).Ok? ==> var k := Load(r).value;
              k.keyId == r.keyId && k.material == r.material && k.rotates == r.rotates && k.expires == r.expires
    ensures Load(r).Err? ==> Load(r).error == if |r.keyId| != 4 then CorruptId(|r.keyId|) else CorruptMaterial(|r.material|)
  {
  }

  predicate Current(r: Row, now: int) {
    r.active && r.rotates > now
  }

  /** `WHERE is_active = 1 AND rotates_at > now ORDER BY rotates_at DESC LIMIT 1`. */
  function Lookup(rows: seq<Row>, now: int): (r: Option<Row>)
    ensures r.Some? ==> r.value in rows && Current(r.value, now)
    ensures r.None? ==> forall x :: x in rows ==> !Current(x, now)
    ensures r.Some? ==> forall x :: x in rows && Current(x, now) ==> x.rotates <= r.value.rotates
  {
    if rows == [] then None
    else
      var best := Lookup(rows[1..], now);
      if Current(rows[0], now) && (best.None? || best.value.rotates <= rows[0].rotates) then Some(rows[0]) else best
  }

  /** `UPDATE ... SET is_active = 0 WHERE is_active = 1`. */
  function Retired(rows: seq<Row>): (r: seq<Row>)
    ensures |r| == |rows|
    ensures forall i :: 0 <= i < |rows| ==> r[i] == rows[i].(active := false)
  {
    if rows == [] then [] else [rows[0].(active := false)] + Retired(rows[1..])
  }

  /** `DELETE ... WHERE expires_at <= now`. */
  function Kept(rows: seq<Row>, now: int): (r: seq<Row>)
    ensures forall x :: x in r <==> x in rows && x.expires > now
  {
    if rows == [] then []
    else if rows[0].expires <= now then Kept(rows[1..], now)
    else [rows[0]] + Kept(rows[1..], now)
  }

  function NewRow(cfg: Config, rot: Rotation): Row {
    Row(rot.keyId, rot.material, rot.now, rot.now + cfg.rotation, rot.now + cfg.expiry, true)
  }

  /** `key_id` is the primary key, so a colliding id makes the insert fail. */
  predicate Collides(rows: seq<Row>, id: seq<byte>) {
    exists r :: r in rows && r.keyId == id
  }

  function Rotate(cfg: Config, rows: seq<Row>, rot: Rotation): (seq<Row>, Result<BroadcastKey, Error>) {
    if !rot.retireOk then (rows, Err(Retire))
    else
      var retired := Retired(rows);
      if !rot.insertOk || Collides(retired, rot.keyId) then (retired, Err(Insert))
      else (retired + [NewRow(cfg, rot)],
            Ok(BroadcastKey(rot.keyId, rot.material, rot.now + cfg.rotation, rot.now + cfg.expiry)))
  }

  function GetOrRotate(cfg: Config, rows: seq<Row>, a: Action): (seq<Row>, Result<BroadcastKey, Error>)
    requires a.Get?
  {
    if !a.queryOk then (rows, Err(Query))
    else
      var found := Lookup(rows, a.now);
      if found.Some? then (rows, Load(found.value)) else Rotate(cfg, rows, a.rotation)
  }

  function Step(cfg: Config, rows: seq<Row>, a: Action): seq<Row> {
    match a
    case Get(_, _, _) => GetOrRotate(cfg, rows, a).0
    case Sweep(now, ok) => if ok then Kept(rows, now) else rows
  }

  /** The table after `acts`, starting empty; restarts of the node do not show. */
  function Run(cfg: Config, acts: seq<Action>): seq<Row> {
    if acts == [] then [] else Step(cfg, Run(cfg, Front(acts)), Last(acts))
  }

  /** When the action is over. A rotation re-reads the clock after the query. */
  function End(a: Action): int {
    if a.Get? && a.now <= a.rotation.now then a.rotation.now else a.now
  }

  /** The clock never goes back, within a call or between calls. */
  predicate Ordered(acts: seq<Action>) {
    && (forall i :: 0 <= i < |acts| && acts[i].Get? ==> acts[i].now <= acts[i].rotation.now)
    && (forall i, j :: 0 <= i < j < |acts| ==> End(acts[i]) <= acts[j].now)
  }

  /** What call number `i` of the run returned. */
  function Returned(cfg: Config, acts: seq<Action>, i: nat): Result<BroadcastKey, Error>
    requires i < |acts| && acts[i].Get?
  {
    GetOrRotate(cfg, Run(cfg, acts[..i]), acts[i]).1
  }

  predicate RowOk(cfg: Config, r: Row, clock: int) {
    && |r.keyId| == 4 && |r.material| == 16
    && r.rotates == r.created + cfg.rotation
    && r.expires == r.created + cfg.expiry
    && r.created <= clock
    && (!r.active ==> r.rotates <= clock)
  }

  /** Creation times of any two rows are at least one rotation interval apart. */
  predicate Spaced(cfg: Config, rows: seq<Row>) {
    forall i, j :: 0 <= i < j < |rows| ==> rows[i].created + cfg.rotation <= rows[j].created
  }

  predicate OneActive(rows: seq<Row>) {
    forall i, j :: 0 <= i < |rows| && 0 <= j < |rows| && rows[i].active && rows[j].active ==> i == j
  }

  predicate DistinctIds(rows: seq<Row>) {
    forall i, j :: 0 <= i < j < |rows| ==> rows[i].keyId != rows[j].keyId
  }

  predicate TableOk(cfg: Config, rows: seq<Row>, clock: int) {
    && (forall r :: r in rows ==> RowOk(cfg, r, clock))
    && Spaced(cfg, rows) && OneActive(rows) && DistinctIds(rows)
  }

  /** `a` was inserted before `b`. */
  predicate Apart(cfg: Config, a: Row, b: Row) {
    a.created + cfg.rotation <= b.created && a.keyId != b.keyId && !(a.active && b.active)
  }

  /** Deleting rows keeps every pairwise property of the table. */
  lemma {:induction false} KeptApart(cfg: Config, rows: seq<Row>, now: int)
    requires forall i, j :: 0 <= i < j < |rows| ==> Apart(cfg, rows[i], rows[j])
    ensures forall i, j :: 0 <= i < j < |Kept(rows, now)| ==> Apart(cfg, Kept(rows, now)[i], Kept(rows, now)[j])
  {
    if rows != [] {
      var rest := rows[1..];
      KeptApart(cfg, rest, now);
      var kept := Kept(rest, now);
      forall j | 0 <= j < |kept| ensures Apart(cfg, rows[0], kept[j]) {
        assert kept[j] in rest;
        var k :| 0 <= k < |rest| && rest[k] == kept[j];
        assert rows[k + 1] == rest[k];
      }
    }
  }

  lemma SweepKeepsTable(cfg: Config, rows: seq<Row>, clock: int, now: int)
    requires TableOk(cfg, rows, clock)
    ensures TableOk(cfg, Kept(rows, now), clock)
  {
    KeptApart(cfg, rows, now);
    var kept := Kept(rows, now);
    forall i, j | 0 <= i < |kept| && 0 <= j < |kept| && kept[i].active && kept[j].active ensures i == j {
      assert i < j ==> Apart(cfg, kept[i], kept[j]);
      assert j < i ==> Apart(cfg, kept[j], kept[i]);
    }
  }

  /** A row that is not current at `now` has been rotated out by then. */
  lemma NoCurrentMeansRotated(cfg: Config, rows: seq<Row>, clock: int, now: int)
    requires TableOk(cfg, rows, clock) && clock <= now && Lookup(rows, now).None?
    ensures forall r :: r in rows ==> r.created + cfg.rotation <= now
  {
  }

  lemma RetiredKeepsTable(cfg: Config, rows: seq<Row>, clock: int, now: int, later: int)
    requires TableOk(cfg, rows, clock) && clock <= now <= later && Lookup(rows, now).None?
    ensures TableOk(cfg, Retired(rows), later)
    ensures forall r :: r in Retired(rows) ==> !r.active && r.created + cfg.rotation <= later
  {
    NoCurrentMeansRotated(cfg, rows, clock, now);
    var retired := Retired(rows);
    forall r | r in retired ensures RowOk(cfg, r, later) && !r.active && r.created + cfg.rotation <= later {
      var i :| 0 <= i < |retired| && retired[i] == r;
      assert rows[i] in rows;
    }
  }

  lemma InsertKeepsTable(cfg: Config, rows: seq<Row>, rot: Rotation)
    requires TableOk(cfg, rows, rot.now) && !Collides(rows, rot.keyId)
    requires forall r :: r in rows ==> !r.active && r.created + cfg.rotation <= rot.now
    ensures TableOk(cfg, rows + [NewRow(cfg, rot)], rot.now)
  {
    assert forall i :: 0 <= i < |rows| ==> rows[i] in rows;
  }

  lemma RotateKeepsTable(cfg: Config, rows: seq<Row>, clock: int, now: int, rot: Rotation)
    requires TableOk(cfg, rows, clock) && clock <= now <= rot.now && Lookup(rows, now).None?
    ensures TableOk(cfg, Rotate(cfg, rows, rot).0, rot.now)
  {
    RetiredKeepsTable(cfg, rows, clock, now, rot.now);
    LaterClock(cfg, rows, clock, rot.now);
    if rot.retireOk && rot.insertOk && !Collides(Retired(rows), rot.keyId) {
      InsertKeepsTable(cfg, Retired(rows), rot);
    }
  }

  lemma LaterClock(cfg: Config, rows: seq<Row>, clock: int, clock': int)
    requires TableOk(cfg, rows, clock) && clock <= clock'
    ensures TableOk(cfg, rows, clock')
  {
  }

  lemma StepKeepsTable(cfg: Config, rows: seq<Row>, clock: int, a: Action)
    requires TableOk(cfg, rows, clock) && clock <= a.now
    requires a.Get? ==> a.now <= a.rotation.now
    ensures TableOk(cfg, Step(cfg, rows, a), End(a))
  {
    LaterClock(cfg, rows, clock, End(a));
    match a
    case Sweep(now, ok) => SweepKeepsTable(cfg, rows, End(a), now);
    case Get(now, queryOk, rot) =>
      if queryOk && Lookup(rows, now).None? {
        RotateKeepsTable(cfg, rows, clock, now, rot);
      }
  }

  /** The latest instant of a run, or `start` if nothing has happened. */
  function Clock(acts: seq<Action>, start: int): int {
    if acts == [] then start else End(Last(acts))
  }

  lemma OrderedFront(acts: seq<Action>)
    requires Ordered(acts) && acts != []
    ensures Ordered(Front(acts))
    ensures Front(acts) != [] ==> End(Last(Front(acts))) <= Last(acts).now
  {
    var front := Front(acts);
    assert forall i :: 0 <= i < |front| ==> front[i] == acts[i];
  }

  lemma OrderedAppend(acts: seq<Action>, a: Action, bound: int)
    requires Ordered(acts) && (forall x :: x in acts ==> End(x) <= bound) && bound <= a.now
    requires a.Get? ==> a.now <= a.rotation.now
    ensures Ordered(acts + [a])
  {
  }

  /**
   In every reachable table, including after a retire whose insert failed: at most one key is
   active, every retired key is past its rotation time, creation times are spaced, and the
   stored blobs have the right lengths.
   */
  lemma {:induction false} RunKeepsTable(cfg: Config, acts: seq<Action>, start: int)
    requires Ordered(acts) && (acts != [] ==> start <= acts[0].now)
    ensures TableOk(cfg, Run(cfg, acts), Clock(acts, start))
  {
    if acts != [] {
      OrderedFront(acts);
      RunKeepsTable(cfg, Front(acts), start);
      StepKeepsTable(cfg, Run(cfg, Front(acts)), Clock(Front(acts), start), Last(acts));
    }
  }

  /** The rows of `before` with nothing changed but the active flag, which is off. */
  predicate AllRetired(before: seq<Row>, after: seq<Row>) {
    && |after| == |before|
    && forall i :: 0 <= i < |before| ==> after[i] == before[i].(active := after[i].active) && !after[i].active
  }

  predicate HasCurrent(rows: seq<Row>, now: int) {
    exists r :: r in rows && r.active && r.rotates > now
  }

  predicate HasId(rows: seq<Row>, id: seq<byte>) {
    exists r :: r in rows && r.keyId == id
  }

  /** The result is what some current row loads as. */
  predicate IsCurrentKey(rows: seq<Row>, now: int, result: Result<BroadcastKey, Error>) {
    result.Ok? && exists r :: r in rows && r.active && r.rotates > now && Load(r) == result
  }

  /** Exactly the drawn key is added, active, valid for `rotation` and stored for `expiry` seconds, and returned. */
  predicate AddsDrawnKey(cfg: Config, rows: seq<Row>, rot: Rotation, after: seq<Row>, result: Result<BroadcastKey, Error>) {
    && after != [] && AllRetired(rows, Front(after))
    && Last(after) == Row(rot.keyId, rot.material, rot.now, rot.now + cfg.rotation, rot.now + cfg.expiry, true)
    && result == Ok(BroadcastKey(rot.keyId, rot.material, rot.now + cfg.rotation, rot.now + cfg.expiry))
  }

  /**
   How a call ends, case by case: a failed query touches nothing; the current key, if there is
   one, is returned and nothing changes; otherwise all rows are retired, which stays so when the
   insert then fails or its id is taken, and else the drawn key is added.
   */
  predicate CallEnds(cfg: Config, rows: seq<Row>, now: int, queryOk: bool, rot: Rotation, after: seq<Row>, result: Result<BroadcastKey, Error>) {
    if !queryOk then after == rows && result == Err(Query)
    else if HasCurrent(rows, now) then after == rows && IsCurrentKey(rows, now, result)
    else if !rot.retireOk then after == rows && result == Err(Retire)
    else if !rot.insertOk || HasId(rows, rot.keyId) then AllRetired(rows, after) && result == Err(Insert)
    else AddsDrawnKey(cfg, rows, rot, after, result)
  }

  lemma CallStep(cfg: Config, rows: seq<Row>, a: Action)
    requires a.Get? && forall r :: r in rows ==> Load(r).Ok?
    ensures CallEnds(cfg, rows, a.now, a.queryOk, a.rotation, GetOrRotate(cfg, rows, a).0, GetOrRotate(cfg, rows, a).1)
  {
    LookupMeans(rows, a.now);
    if a.queryOk && Lookup(rows, a.now).None? {
      RotateOutcome(cfg, rows, a.rotation);
    }
  }

  /** Every call, in every run, ends that way. */
  lemma CallOutcome(cfg: Config, acts: seq<Action>, i: nat)
    requires Ordered(acts) && i < |acts| && acts[i].Get?
    ensures CallEnds(cfg, Run(cfg, acts[..i]), acts[i].now, acts[i].queryOk, acts[i].rotation,
                     Run(cfg, acts[..i + 1]), Returned(cfg, acts, i))
  {
    var rows := Run(cfg, acts[..i]);
    OrderedPrefix(acts, i);
    RunKeepsTable(cfg, acts[..i], if i == 0 then 0 else acts[0].now);
    assert Front(acts[..i + 1]) == acts[..i];
    forall r | r in rows ensures Load(r).Ok? {
      LoadOutcome(r);
    }
    CallStep(cfg, rows, acts[i]);
  }

  /** A sweep deletes exactly the rows whose expiry has come; a failed one touches nothing. */
  lemma SweepOutcome(cfg: Config, acts: seq<Action>, i: nat)
    requires i < |acts| && acts[i].Sweep?
    ensures var rows, after := Run(cfg, acts[..i]), Run(cfg, acts[..i + 1]);
            if acts[i].ok then forall r :: r in after <==> r in rows && r.expires > acts[i].now else after == rows
  {
    assert Front(acts[..i + 1]) == acts[..i];
  }

  lemma LookupMeans(rows: seq<Row>, now: int)
    ensures Lookup(rows, now).Some? <==> HasCurrent(rows, now)
  {
    if Lookup(rows, now).Some? {
      assert Current(Lookup(rows, now).value, now);
    } else {
      assert forall r :: r in rows ==> !Current(r, now);
    }
  }

  lemma RetiredMeans(rows: seq<Row>)
    ensures AllRetired(rows, Retired(rows))
  {
  }

  lemma RotateOutcome(cfg: Config, rows: seq<Row>, rot: Rotation)
    ensures var (after, result) := Rotate(cfg, rows, rot);
            if !rot.retireOk then after == rows && result == Err(Retire)
            else if !rot.insertOk || HasId(rows, rot.keyId) then AllRetired(rows, after) && result == Err(Insert)
            else AddsDrawnKey(cfg, rows, rot, after, result)
  {
    RetiredCollides(rows, rot.keyId);
    RetiredMeans(rows);
    assert Front(Retired(rows) + [NewRow(cfg, rot)]) == Retired(rows);
  }

  lemma RetiredCollides(rows: seq<Row>, id: seq<byte>)
    ensures Collides(Retired(rows), id) <==> HasId(rows, id)
  {
    if r :| r in rows && r.keyId == id {
      var i :| 0 <= i < |rows| && rows[i] == r;
      assert Retired(rows)[i] in Retired(rows) && Retired(rows)[i].keyId == id;
    }
    if Collides(Retired(rows), id) {
      var x :| x in Retired(rows) && x.keyId == id;
      var i :| 0 <= i < |rows| && Retired(rows)[i] == x;
      assert rows[i] in rows && rows[i].keyId == id;
    }
  }

  /** Call `i` found no current key, rotated, and returned what row `r` loads as. */
  ghost predicate WrittenBy(cfg: Config, acts: seq<Action>, r: Row, i: nat) {
    && i < |acts| && acts[i].Get? && acts[i].queryOk && Lookup(Run(cfg, acts[..i]), acts[i].now).None?
    && Load(r).Ok? && Returned(cfg, acts, i) == Load(r)
    && r.created == acts[i].rotation.now && r.keyId == acts[i].rotation.keyId && r.material == acts[i].rotation.material
  }

  /** A row after a step is a row from before, perhaps retired since, or the one the step inserted. */
  lemma RowsComeFrom(cfg: Config, rows: seq<Row>, a: Action, r: Row)
    requires r in Step(cfg, rows, a)
    ensures || (exists x :: x in rows && r == x.(active := r.active))
            || (a.Get? && a.queryOk && Lookup(rows, a.now).None? && r == NewRow(cfg, a.rotation)
                && GetOrRotate(cfg, rows, a).1 == Load(r))
  {
    if r in rows {
      assert r == r.(active := r.active);
    } else if r in Retired(rows) {
      var i :| 0 <= i < |rows| && Retired(rows)[i] == r;
      assert rows[i] in rows && r == rows[i].(active := r.active);
    }
  }

  /**
   Every stored row loads back as the key that was written: some call that rotated drew its id
   and material at its creation time, and what the row loads as is what that call returned.
   */
  lemma {:induction false} StoredRowsLoad(cfg: Config, acts: seq<Action>, r: Row)
    requires r in Run(cfg, acts)
    ensures exists i: nat :: WrittenBy(cfg, acts, r, i)
  {
    var front, n := Front(acts), |acts| - 1;
    var rows := Run(cfg, front);
    assert acts[..n] == front && acts[n] == Last(acts);
    RowsComeFrom(cfg, rows, Last(acts), r);
    if x :| x in rows && r == x.(active := r.active) {
      StoredRowsLoad(cfg, front, x);
      var i: nat :| WrittenBy(cfg, front, x, i);
      assert front[..i] == acts[..i];
      assert WrittenBy(cfg, acts, r, i);
    } else {
      assert WrittenBy(cfg, acts, r, n);
    }
  }

  // ── Size of the table ────────────────────────────────────────────────────────────────

  function CeilDiv(a: nat, b: nat): nat
    requires b >= 1
  {
    (a + b - 1) / b
  }

  lemma {:induction false} SpacedAddsUp(cfg: Config, rows: seq<Row>, n: nat)
    requires Spaced(cfg, rows) && n < |rows|
    ensures rows[0].created + n * cfg.rotation <= rows[n].created
  {
    if n > 0 {
      SpacedAddsUp(cfg, rows, n - 1);
      assert n * cfg.rotation == (n - 1) * cfg.rotation + cfg.rotation;
    }
  }

  lemma MulCancels(a: nat, b: nat, r: nat)
    requires a * r < b * r
    ensures a < b
  {
    assert (b - a) * r == b * r - a * r;
  }

  lemma CeilDivBounds(n: nat, e: nat, r: nat)
    requires r >= 1 && (n == 0 || (n - 1) * r < e)
    ensures n <= CeilDiv(e, r)
  {
    var q := CeilDiv(e, r);
    if n > 0 {
      assert e + r - 1 < q * r + r;
      MulCancels(n - 1, q, r);
    }
  }

  /** After a sweep the table holds at most ceil(expiry / rotation) keys, in every run. */
  lemma SweepBoundsTable(cfg: Config, acts: seq<Action>)
    requires cfg.rotation >= 1 && Ordered(acts) && acts != [] && Last(acts).Sweep? && Last(acts).ok
    ensures |Run(cfg, acts)| <= CeilDiv(cfg.expiry, cfg.rotation)
    ensures forall r :: r in Run(cfg, acts) ==> Last(acts).now - cfg.expiry < r.created <= Last(acts).now
  {
    RunKeepsTable(cfg, acts, acts[0].now);
    var rows := Run(cfg, acts);
    var now := Last(acts).now;
    if rows != [] {
      SpacedAddsUp(cfg, rows, |rows| - 1);
      assert rows[0] in rows && rows[|rows| - 1] in rows;
    }
    CeilDivBounds(|rows|, cfg.expiry, cfg.rotation);
  }

  // ── Retention ────────────────────────────────────────────────────────────────────────

  /** The table still holds this key, active or retired. */
  ghost predicate Stored(rows: seq<Row>, k: BroadcastKey) {
    exists r :: r in rows && Load(r) == Ok(k)
  }

  lemma RetireKeepsStored(rows: seq<Row>, k: BroadcastKey)
    requires Stored(rows, k)
    ensures Stored(Retired(rows), k)
  {
    var r :| r in rows && Load(r) == Ok(k);
    var i :| 0 <= i < |rows| && rows[i] == r;
    assert Retired(rows)[i] in Retired(rows) && Load(Retired(rows)[i]) == Ok(k);
  }

  lemma StepKeepsStored(cfg: Config, rows: seq<Row>, a: Action, k: BroadcastKey)
    requires Stored(rows, k) && (a.Sweep? ==> a.now < k.expires)
    ensures Stored(Step(cfg, rows, a), k)
  {
    var r :| r in rows && Load(r) == Ok(k);
    match a
    case Sweep(now, ok) =>
      assert r in Step(cfg, rows, a);
    case Get(now, queryOk, rot) =>
      RetireKeepsStored(rows, k);
      var x :| x in Retired(rows) && Load(x) == Ok(k);
      assert x in Rotate(cfg, rows, rot).0 || Rotate(cfg, rows, rot).0 == rows;
  }

  /** The clock reading under which call `i` handed out its key. */
  function HandedOutAt(cfg: Config, acts: seq<Action>, i: nat): int
    requires i < |acts| && acts[i].Get?
  {
    if Lookup(Run(cfg, acts[..i]), acts[i].now).Some? then acts[i].now else acts[i].rotation.now
  }

  /** A key that is handed out is stored, and expires more than `expiry - rotation` later. */
  lemma ReturnedIsStored(cfg: Config, acts: seq<Action>, i: nat)
    requires cfg.rotation >= 1 && Ordered(acts) && i < |acts| && acts[i].Get? && Returned(cfg, acts, i).Ok?
    ensures Stored(Run(cfg, acts[..i + 1]), Returned(cfg, acts, i).value)
    ensures Returned(cfg, acts, i).value.expires > HandedOutAt(cfg, acts, i) + cfg.expiry - cfg.rotation
  {
    var before := acts[..i];
    var rows := Run(cfg, before);
    OrderedPrefix(acts, i);
    RunKeepsTable(cfg, before, if before == [] then 0 else before[0].now);
    assert Front(acts[..i + 1]) == before;
    var k := Returned(cfg, acts, i).value;
    if Lookup(rows, acts[i].now).None? {
      var t := Run(cfg, acts[..i + 1]);
      assert NewRow(cfg, acts[i].rotation) in t && Load(NewRow(cfg, acts[i].rotation)) == Ok(k);
    }
  }

  lemma OrderedPrefix(acts: seq<Action>, n: nat)
    requires Ordered(acts) && n <= |acts|
    ensures Ordered(acts[..n])
  {
    assert forall i :: 0 <= i < n ==> acts[..n][i] == acts[i];
  }

  /**
   A key handed out at time t stays in the table through every later mix of calls and sweeps,
   as long as no sweep reads a clock beyond t + (expiry - rotation).
   */
  lemma {:induction false} HandedOutKeyIsKept(cfg: Config, acts: seq<Action>, i: nat)
    requires cfg.rotation >= 1 && Ordered(acts) && i < |acts| && acts[i].Get? && Returned(cfg, acts, i).Ok?
    requires forall j :: i < j < |acts| && acts[j].Sweep?
               ==> acts[j].now <= HandedOutAt(cfg, acts, i) + cfg.expiry - cfg.rotation
    ensures Stored(Run(cfg, acts), Returned(cfg, acts, i).value)
    decreases |acts|
  {
    if |acts| == i + 1 {
      ReturnedIsStored(cfg, acts, i);
      assert acts[..i + 1] == acts;
    } else {
      var front := Front(acts);
      OrderedFront(acts);
      assert front[..i] == acts[..i];
      assert forall j :: 0 <= j < |front| ==> front[j] == acts[j];
      HandedOutKeyIsKept(cfg, front, i);
      ReturnedIsStored(cfg, acts, i);
      StepKeepsStored(cfg, Run(cfg, front), Last(acts), Returned(cfg, acts, i).value);
    }
  }

  /**
   Expiry counts from creation: whatever survives a sweep is less than `expiry - rotation`
   past its rotation time, not `expiry` past it.
   */
  lemma SweptBeforeExpiryAfterRotation(cfg: Config, acts: seq<Action>)
    requires Ordered(acts) && acts != [] && Last(acts).Sweep? && Last(acts).ok
    ensures forall r :: r in Run(cfg, acts) ==> Last(acts).now - r.rotates < cfg.expiry - cfg.rotation
  {
    RunKeepsTable(cfg, acts, acts[0].now);
  }
}
