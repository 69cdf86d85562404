/** The key manager and the broadcast loop as the program has them, over the key table. */
module KeyManagement {
  import opened Common
  import opened KeyTable
  import opened KeyTokens

  class BroadcastKeyManagement {
    const cfg: Config
    var rows: seq<Row>

    constructor (cfg: Config)
      ensures this.cfg == cfg && rows == []
    {
      this.cfg := cfg;
      rows := [];
    }

    /** The retire statement takes effect even when the insert after it fails. */
    method RotateKey(rot: Rotation) returns (r: Result<BroadcastKey, Error>)
      modifies this`rows
      ensures (rows, r) == Rotate(cfg, old(rows), rot)
    {
      if !rot.retireOk {
        return Err(Retire);
      }
      rows := Retired(rows);
      if !rot.insertOk || Collides(rows, rot.keyId) {
        return Err(Insert);
      }
      rows := rows + [NewRow(cfg, rot)];
      r := Ok(BroadcastKey(rot.keyId, rot.material, rot.now + cfg.rotation, rot.now + cfg.expiry));
    }

    method GetOrRotateKey(now: int, queryOk: bool, rot: Rotation) returns (r: Result<BroadcastKey, Error>)
      modifies this`rows
      ensures (rows, r) == GetOrRotate(cfg, old(rows), Get(now, queryOk, rot))
    {
      if !queryOk {
        return Err(Query);
      }
      var row := Lookup(rows, now);
      if row.Some? {
        r := BuildKey(row.value.keyId, row.value.material, row.value.rotates, row.value.expires);
      } else {
        r := RotateKey(rot);
      }
    }

    method SweepExpired(now: int, ok: bool) returns (deleted: nat)
      modifies this`rows
      ensures rows == Step(cfg, old(rows), Sweep(now, ok)) && deleted == |old(rows)| - |rows|
    {
      deleted := 0;
      if ok {
        KeptIsShorter(rows, now);
        deleted := |rows| - |Kept(rows, now)|;
        rows := Kept(rows, now);
      }
    }
  }

  lemma KeptIsShorter(rows: seq<Row>, now: int)
    ensures |Kept(rows, now)| <= |rows|
  {
  }

  /** One broadcast cycle: when it asks for the key, when it sweeps, when it derives the token. */
  datatype Cycle = Cycle(now: int, queryOk: bool, rotation: Rotation, sweepNow: int, sweepOk: bool, tokenNow: nat)

  /** What one cycle publishes: the key it used, the fields it put on the air, and when. */
  datatype Publication = Publication(key: BroadcastKey, kid: string, tok: string, sentAt: nat)

  function GetOf(c: Cycle): Action {
    Get(c.now, c.queryOk, c.rotation)
  }

  function Obtained(cfg: Config, rows: seq<Row>, c: Cycle): Result<BroadcastKey, Error> {
    GetOrRotate(cfg, rows, GetOf(c)).1
  }

  /**
   All statements run on the table: those of earlier boots, then those of the loop's `cycles`.
   A cycle that gets no key skips its sweep.
   */
  function LoopActions(cfg: Config, past: seq<Action>, cycles: seq<Cycle>): seq<Action> {
    if cycles == [] then past
    else
      var acts, c := LoopActions(cfg, past, Front(cycles)), Last(cycles);
      acts + [GetOf(c)] + (if Obtained(cfg, Run(cfg, acts), c).Ok? then [Sweep(c.sweepNow, c.sweepOk)] else [])
  }

  function LoopPublished(cfg: Config, hmac: Hmac, past: seq<Action>, cycles: seq<Cycle>): seq<Publication> {
    if cycles == [] then []
    else
      var c := Last(cycles);
      var got := Obtained(cfg, Run(cfg, LoopActions(cfg, past, Front(cycles))), c);
      LoopPublished(cfg, hmac, past, Front(cycles)) +
      (if got.Ok?
       then var (kid, tok) := OtaFields(hmac, cfg, got.value, c.tokenNow); [Publication(got.value, kid, tok, c.tokenNow)]
       else [])
  }

  lemma RunAppend(cfg: Config, acts: seq<Action>, a: Action)
    ensures Run(cfg, acts + [a]) == Step(cfg, Run(cfg, acts), a)
  {
    assert Front(acts + [a]) == acts;
  }

  /**
   `run_broadcast_loop`, for any number of cycles, on whatever table earlier boots left: the
   table it leaves and everything it publishes.
   */
  method RunBroadcastLoop(manager: BroadcastKeyManagement, hmac: Hmac, cycles: seq<Cycle>, ghost past: seq<Action>)
    returns (published: seq<Publication>)
    requires manager.rows == Run(manager.cfg, past)
    modifies manager`rows
    ensures manager.rows == Run(manager.cfg, LoopActions(manager.cfg, past, cycles))
    ensures published == LoopPublished(manager.cfg, hmac, past, cycles)
  {
    published := [];
    for i := 0 to |cycles|
      invariant manager.rows == Run(manager.cfg, LoopActions(manager.cfg, past, cycles[..i]))
      invariant published == LoopPublished(manager.cfg, hmac, past, cycles[..i])
    {
      var c := cycles[i];
      ghost var acts := LoopActions(manager.cfg, past, cycles[..i]);
      assert Front(cycles[..i + 1]) == cycles[..i] && Last(cycles[..i + 1]) == c;
      RunAppend(manager.cfg, acts, GetOf(c));
      var got := manager.GetOrRotateKey(c.now, c.queryOk, c.rotation);
      if got.Err? {
        assert acts + [GetOf(c)] + [] == acts + [GetOf(c)];
        continue;
      }
      RunAppend(manager.cfg, acts + [GetOf(c)], Sweep(c.sweepNow, c.sweepOk));
      var deleted := manager.SweepExpired(c.sweepNow, c.sweepOk);
      var (kid, tok) := OtaFields(hmac, manager.cfg, got.value, c.tokenNow);
      published := published + [Publication(got.value, kid, tok, c.tokenNow)];
    }
    assert cycles[..|cycles|] == cycles;
  }

  /**
   What one more cycle does. With a key: it sweeps and, whatever becomes of the sweep, publishes
   once, with that key's id and at that time. Without one: it neither sweeps nor publishes.
   */
  lemma CycleEffects(cfg: Config, hmac: Hmac, past: seq<Action>, cycles: seq<Cycle>)
    requires cycles != []
    ensures var c, earlier := Last(cycles), LoopActions(cfg, past, Front(cycles));
            var acts := earlier + [Get(c.now, c.queryOk, c.rotation)];
            var got := Returned(cfg, acts, |earlier|);
            var before, after := LoopPublished(cfg, hmac, past, Front(cycles)), LoopPublished(cfg, hmac, past, cycles);
            && (got.Err? ==> LoopActions(cfg, past, cycles) == acts && after == before)
            && (got.Ok? ==>
                  && LoopActions(cfg, past, cycles) == acts + [Sweep(c.sweepNow, c.sweepOk)]
                  && |after| == |before| + 1 && Front(after) == before
                  && Last(after).key == got.value && Last(after).sentAt == c.tokenNow
                  && HexDecode(Last(after).kid) == Some(got.value.keyId))
  {
    var c, earlier := Last(cycles), LoopActions(cfg, past, Front(cycles));
    var acts := earlier + [GetOf(c)];
    assert acts[..|earlier|] == earlier;
    assert acts + [] == acts;
    var got := Obtained(cfg, Run(cfg, earlier), c);
    if got.Ok? {
      HexRoundTrip(got.value.keyId);
      assert Front(LoopPublished(cfg, hmac, past, cycles)) == LoopPublished(cfg, hmac, past, Front(cycles));
    }
  }

  /**
   Whatever the loop publishes authenticates: a receiver that looks the key up by `kid` and
   whose clock is off by at most one rotation interval when the token is derived accepts `tok`.
   */
  lemma {:induction false} PublishedAuthenticates(
      cfg: Config, hmac: Hmac, past: seq<Action>, cycles: seq<Cycle>, p: Publication, receiver: nat)
    requires p in LoopPublished(cfg, hmac, past, cycles)
    requires p.sentAt <= receiver + SlotSeconds(cfg) && receiver <= p.sentAt + SlotSeconds(cfg)
    ensures |p.kid| == 8 && |p.tok| == 8 && HexDecode(p.kid) == Some(p.key.keyId)
    ensures HexDecode(p.tok).Some? && Accepts(hmac, cfg.rotation, p.key.material, receiver, HexDecode(p.tok).value)
  {
    if p in LoopPublished(cfg, hmac, past, Front(cycles)) {
      PublishedAuthenticates(cfg, hmac, past, Front(cycles), p, receiver);
    } else {
      OtaFieldsAuthenticate(hmac, cfg, p.key, p.sentAt, receiver);
    }
  }

  /** The clock does not go back within a cycle, from one cycle to the next, or since earlier boots. */
  predicate WellTimed(past: seq<Action>, cycles: seq<Cycle>) {
    && Ordered(past)
    && (forall a, i :: a in past && 0 <= i < |cycles| ==> End(a) <= cycles[i].now)
    && (forall i :: 0 <= i < |cycles| ==>
          cycles[i].now <= cycles[i].rotation.now <= cycles[i].sweepNow <= cycles[i].tokenNow)
    && (forall i, j :: 0 <= i < j < |cycles| ==> cycles[i].tokenNow <= cycles[j].now)
  }

  lemma {:induction false} LoopActionsAreOrdered(cfg: Config, past: seq<Action>, cycles: seq<Cycle>)
    requires WellTimed(past, cycles)
    ensures Ordered(LoopActions(cfg, past, cycles))
    ensures cycles != [] ==> forall a :: a in LoopActions(cfg, past, cycles) ==> End(a) <= Last(cycles).sweepNow
  {
    if cycles != [] {
      var front, c := Front(cycles), Last(cycles);
      assert forall i :: 0 <= i < |front| ==> front[i] == cycles[i];
      assert c == cycles[|front|];
      LoopActionsAreOrdered(cfg, past, front);
      var acts := LoopActions(cfg, past, front);
      assert forall a :: a in acts ==> End(a) <= c.now;
      OrderedAppend(acts, GetOf(c), c.now);
      OrderedAppend(acts + [GetOf(c)], Sweep(c.sweepNow, c.sweepOk), c.rotation.now);
      assert acts + [GetOf(c)] + [] == acts + [GetOf(c)];
    }
  }

  /**
   After every cycle that publishes: the key it published is still stored provided its sweep
   came at most `expiry - rotation` after it asked for the key, and if the sweep succeeded the
   table is down to ceil(expiry / rotation) rows.
   */
  lemma CycleOutcome(cfg: Config, past: seq<Action>, cycles: seq<Cycle>)
    requires cfg.rotation >= 1 && WellTimed(past, cycles) && cycles != []
    requires Obtained(cfg, Run(cfg, LoopActions(cfg, past, Front(cycles))), Last(cycles)).Ok?
    ensures var rows := Run(cfg, LoopActions(cfg, past, cycles)); var c := Last(cycles);
            && (c.sweepNow <= c.now + cfg.expiry - cfg.rotation ==>
                  Stored(rows, Obtained(cfg, Run(cfg, LoopActions(cfg, past, Front(cycles))), c).value))
            && (c.sweepOk ==> |rows| <= CeilDiv(cfg.expiry, cfg.rotation))
  {
    var acts, c := LoopActions(cfg, past, Front(cycles)), Last(cycles);
    var all := LoopActions(cfg, past, cycles);
    var n := |acts|;
    LoopActionsAreOrdered(cfg, past, cycles);
    assert all[..n] == acts && all[n] == GetOf(c) && Last(all) == Sweep(c.sweepNow, c.sweepOk);
    if c.sweepOk {
      SweepBoundsTable(cfg, all);
    }
    if c.sweepNow <= c.now + cfg.expiry - cfg.rotation {
      assert cycles[|cycles| - 1].now <= c.rotation.now;
      HandedOutKeyIsKept(cfg, all, n);
    }
  }
}
