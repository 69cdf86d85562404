/**
 The certificate authority's two create-if-absent operations as the program has them. Key
 generation, signing and PEM are parameters; only what the code relies on is assumed of them.
 */
module CaService {
  import opened Common
  import opened CreateIfAbsent

  datatype CaRow = CaRow(certPem: string, keyPem: string)

  datatype Identity = Identity(certPem: string, keyPem: string)

  /** Private keys and their PEM form, where what was serialised parses back, and which stored certificates load. */
  datatype Pem<!Key(!new)> = Pem(serialize: Key -> string, parse: string -> Option<Key>, certLoads: string -> bool)
  {
    predicate Loads(row: CaRow) {
      parse(row.keyPem).Some? && certLoads(row.certPem)
    }

    ghost predicate RoundTrips() {
      forall k :: parse(serialize(k)) == Some(k)
    }
  }

  datatype Error = QueryFailed | ParseFailed | GenerateFailed | NotInitialised | PersistFailed

  /** What a call meets: statement failures, what generation yields, and other callers' commits. */
  datatype Fate<V, W> = Fate(selectOk: bool, made: Option<V>, meanwhile: Option<W>, insertOk: bool)

  class Database {
    var caKeys: Option<CaRow>
    var nodeIdentity: Option<Identity>

    constructor ()
      ensures caKeys == None && nodeIdentity == None
    {
      caKeys, nodeIdentity := None, None;
    }
  }

  class CaAuthority<Key(!new)> {
    const db: Database
    const pem: Pem<Key>
    var state: Option<Key>

    constructor (db: Database, pem: Pem<Key>)
      ensures this.db == db && this.pem == pem && state == None
    {
      this.db, this.pem, state := db, pem, None;
    }

    /**
     `load_or_generate_ca`. Its result, if any, is the key of the row that is stored when it
     returns; an existing row is never replaced. `fate.made` is the fresh key and its
     certificate, `fate.meanwhile` a row another caller commits before our insert. `past` is
     what all callers did before; the call takes the steps by which `after` extends it.
     */
    method LoadOrGenerateCa(fate: Fate<(Key, string), CaRow>, ghost past: seq<Action<CaRow>>, ghost me: Caller, ghost other: Caller)
      returns (r: Result<Key, Error>, ghost after: seq<Action<CaRow>>)
      requires pem.RoundTrips()
      requires Run(true, past).row == db.caKeys && NewCallers(past, me, other)
      modifies db`caKeys
      ensures Extends(past, after, me, other) && Run(true, after).row == db.caKeys && Over(after, me, r.Ok?)
      ensures r.Ok? ==> db.caKeys.Some? && pem.parse(db.caKeys.value.keyPem) == Some(r.value)
      ensures old(db.caKeys).Some? ==> db.caKeys == old(db.caKeys)
      ensures r.Ok? <==>
                && fate.selectOk
                && if old(db.caKeys).Some? then pem.Loads(old(db.caKeys).value)
                   else fate.made.Some? && fate.meanwhile.None? && fate.insertOk
      ensures r.Ok? && old(db.caKeys).None? ==>
                var (key, certPem) := fate.made.value; r.value == key && db.caKeys == Some(CaRow(certPem, pem.serialize(key)))
      ensures r.Err? && old(db.caKeys).None? ==>
                db.caKeys == if fate.selectOk && fate.made.Some? then fate.meanwhile else None
      ensures r.Err? ==> r.error == if !fate.selectOk then QueryFailed
                                    else if old(db.caKeys).Some? then ParseFailed
                                    else if fate.made.None? then GenerateFailed
                                    else PersistFailed
    {
      if !fate.selectOk {
        after := CallSelects(past, me, false);
        return Err(QueryFailed), after;
      }
      if db.caKeys.Some? {
        var key := pem.parse(db.caKeys.value.keyPem);
        var loads := key.Some? && pem.certLoads(db.caKeys.value.certPem);
        after := CallSelects(past, me, loads);
        return if loads then Ok(key.value) else Err(ParseFailed), after;
      }
      after := CallSelects(past, me, true);
      r, after := GenerateAndPersistCa(fate, after, me, other);
    }

    /** `generate_and_persist_ca`, once the table was found empty. */
    method GenerateAndPersistCa(fate: Fate<(Key, string), CaRow>, ghost past: seq<Action<CaRow>>, ghost me: Caller, ghost other: Caller)
      returns (r: Result<Key, Error>, ghost after: seq<Action<CaRow>>)
      requires db.caKeys.None? && Run(true, past).row.None? && me != other
      requires At(Run(true, past), me, Generating) && other !in Run(true, past).calls
      modifies db`caKeys
      ensures Extends(past, after, me, other) && Run(true, after).row == db.caKeys && Over(after, me, r.Ok?)
      ensures r.Ok? <==> fate.made.Some? && fate.meanwhile.None? && fate.insertOk
      ensures r.Ok? ==>
                var (key, certPem) := fate.made.value; r.value == key && db.caKeys == Some(CaRow(certPem, pem.serialize(key)))
      ensures r.Err? ==> db.caKeys == if fate.made.Some? then fate.meanwhile else None
      ensures r.Err? ==> r.error == if fate.made.None? then GenerateFailed else PersistFailed
    {
      if fate.made.None? {
        after := CallGenerates(past, me, None);
        return Err(GenerateFailed), after;
      }
      var (key, certPem) := fate.made.value;
      var own := CaRow(certPem, pem.serialize(key));
      after := CallRaces(past, me, other, own, fate.meanwhile, fate.insertOk);
      db.caKeys := fate.meanwhile; // another caller's commit, before our insert
      if !fate.insertOk || db.caKeys.Some? {
        return Err(PersistFailed), after;
      }
      db.caKeys := Some(own);
      r := Ok(key);
    }

    /** `init`: the in-memory authority is the stored one, or is left as it was. */
    method Initialise(fate: Fate<(Key, string), CaRow>, ghost past: seq<Action<CaRow>>, ghost me: Caller, ghost other: Caller)
      returns (r: Result<(), Error>, ghost after: seq<Action<CaRow>>)
      requires pem.RoundTrips()
      requires Run(true, past).row == db.caKeys && NewCallers(past, me, other)
      modifies this`state, db`caKeys
      ensures Extends(past, after, me, other) && Run(true, after).row == db.caKeys && Over(after, me, r.Ok?)
      ensures r.Ok? ==> state.Some? && db.caKeys.Some? && pem.parse(db.caKeys.value.keyPem) == state
      ensures r.Ok? <==>
                && fate.selectOk
                && if old(db.caKeys).Some? then pem.Loads(old(db.caKeys).value)
                   else fate.made.Some? && fate.meanwhile.None? && fate.insertOk
      ensures r.Ok? && old(db.caKeys).None? ==> state == Some(fate.made.value.0)
      ensures r.Err? ==> state == old(state)
      ensures old(db.caKeys).Some? ==> db.caKeys == old(db.caKeys)
    {
      var ca;
      ca, after := LoadOrGenerateCa(fate, past, me, other);
      if ca.Err? {
        return Err(ca.error), after;
      }
      state := Some(ca.value);
      r := Ok(());
    }

    /**
     `ensure_node_identity`. A success returns exactly the pair that is stored; an existing
     pair is never replaced, and no authority is needed to read it.
     */
    method EnsureNodeIdentity(fate: Fate<Identity, Identity>, ghost past: seq<Action<Identity>>, ghost me: Caller, ghost other: Caller)
      returns (r: Result<(string, string), Error>, ghost after: seq<Action<Identity>>)
      requires Run(true, past).row == db.nodeIdentity && NewCallers(past, me, other)
      modifies db`nodeIdentity
      ensures Extends(past, after, me, other) && Run(true, after).row == db.nodeIdentity && Over(after, me, r.Ok?)
      ensures r.Ok? ==> db.nodeIdentity.Some? && r.value == (db.nodeIdentity.value.certPem, db.nodeIdentity.value.keyPem)
      ensures old(db.nodeIdentity).Some? ==> db.nodeIdentity == old(db.nodeIdentity)
      ensures r.Ok? <==>
                && fate.selectOk
                && (|| old(db.nodeIdentity).Some?
                    || (state.Some? && fate.made.Some? && fate.meanwhile.None? && fate.insertOk))
      ensures r.Ok? && old(db.nodeIdentity).None? ==>
                db.nodeIdentity == fate.made && r.value == (fate.made.value.certPem, fate.made.value.keyPem)
      ensures r.Err? && old(db.nodeIdentity).None? ==>
                db.nodeIdentity == if fate.selectOk && state.Some? && fate.made.Some? then fate.meanwhile else None
      ensures r.Err? ==> r.error == if !fate.selectOk then QueryFailed
                                    else if state.None? then NotInitialised
                                    else if fate.made.None? then GenerateFailed
                                    else PersistFailed
    {
      after := CallSelects(past, me, fate.selectOk);
      if !fate.selectOk {
        return Err(QueryFailed), after;
      }
      if db.nodeIdentity.Some? {
        return Ok((db.nodeIdentity.value.certPem, db.nodeIdentity.value.keyPem)), after;
      }
      if state.None? || fate.made.None? {
        after := CallGenerates(after, me, None);
        return Err(if state.None? then NotInitialised else GenerateFailed), after;
      }
      var own := fate.made.value;
      after := CallRaces(after, me, other, own, fate.meanwhile, fate.insertOk);
      db.nodeIdentity := fate.meanwhile; // another caller's commit, before our insert
      if !fate.insertOk || db.nodeIdentity.Some? {
        return Err(PersistFailed), after;
      }
      db.nodeIdentity := Some(own);
      r := Ok((own.certPem, own.keyPem));
    }
  }

  /** Under every interleaving and across restarts, all successful calls hold one certificate and key. */
  lemma OneNodeIdentity(acts: seq<Action<Identity>>, i: nat, j: nat)
    requires i < |Run(true, acts).results| && j < |Run(true, acts).results|
    ensures var rs := Run(true, acts).results; rs[i].certPem == rs[j].certPem && rs[i].keyPem == rs[j].keyPem
  {
    AllCallersAgree(acts, i, j);
  }

  /** Every row some caller generates holds the serialised form of that caller's key. */
  predicate Serialised<Key(!new)>(pem: Pem<Key>, acts: seq<Action<CaRow>>, keys: seq<Key>) {
    |keys| == |acts| && forall i :: 0 <= i < |acts| && acts[i].Generate? && acts[i].made.Some?
                          ==> acts[i].made.value.keyPem == pem.serialize(keys[i])
  }

  /** The key a successful call ends up with, whether it generated or loaded it. */
  lemma {:induction false} StoredRowsParse<Key(!new)>(pem: Pem<Key>, acts: seq<Action<CaRow>>, keys: seq<Key>)
    requires pem.RoundTrips() && Serialised(pem, acts, keys)
    ensures var s := Run(true, acts);
            && (s.row.Some? ==> pem.parse(s.row.value.keyPem).Some?)
            && (forall c :: c in s.calls && s.calls[c].Inserting? ==> pem.parse(s.calls[c].own.keyPem).Some?)
  {
    if acts != [] {
      var front, fewer := Front(acts), keys[..|acts| - 1];
      assert forall i :: 0 <= i < |front| ==> front[i] == acts[i] && fewer[i] == keys[i];
      StoredRowsParse(pem, front, fewer);
      assert acts[|front|] == Last(acts);
    }
  }

  /**
   All successful `load_or_generate_ca` calls hold the same CA key, now and after restarts, and
   it is the key the one caller that inserted its row had generated.
   */
  lemma OneCaKey<Key(!new)>(pem: Pem<Key>, acts: seq<Action<CaRow>>, keys: seq<Key>, i: nat, j: nat)
    requires pem.RoundTrips() && Serialised(pem, acts, keys)
    requires i < |Run(true, acts).results| && j < |Run(true, acts).results|
    ensures var rs := Run(true, acts).results;
            && pem.parse(rs[i].keyPem).Some? && pem.parse(rs[i].keyPem) == pem.parse(rs[j].keyPem)
            && (forall g :: 0 <= g < |acts| && acts[g].Generate? && acts[g].made == Some(rs[i])
                  ==> pem.parse(rs[i].keyPem) == Some(keys[g]))
  {
    AllCallersAgree(acts, i, j);
    StoredRowsParse(pem, acts, keys);
  }
}
