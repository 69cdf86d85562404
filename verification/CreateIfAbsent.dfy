/**
 Select-then-insert on a table that can hold one row, by any number of concurrent callers.
 Every statement is one atomic step; between any two of them other callers may act and the
 node may restart, which loses the calls in flight but not the table.
 */
module CreateIfAbsent {
  import opened Common

  type Caller = nat

  datatype Call<V> = Selecting | Generating | Inserting(own: V) | Returned(value: V) | Failed

  /** `results` are the values of all successful calls so far, before and after restarts. */
  datatype State<V> = State(row: Option<V>, calls: map<Caller, Call<V>>, results: seq<V>)

  /** `ok` is false when the statement, or parsing what it returned, fails for its own reasons. */
  datatype Action<V> =
    | Begin(c: Caller)
    | Select(c: Caller, ok: bool)
    | Generate(c: Caller, made: Option<V>)
    | Insert(c: Caller, ok: bool)
    | Restart

  function Init<V>(): State<V> {
    State(None, map[], [])
  }

  function Finish<V>(s: State<V>, c: Caller, v: V): State<V> {
    s.(calls := s.calls[c := Returned(v)], results := s.results + [v])
  }

  function Fail<V>(s: State<V>, c: Caller): State<V> {
    s.(calls := s.calls[c := Failed])
  }

  predicate At<V(==)>(s: State<V>, c: Caller, call: Call<V>) {
    c in s.calls && s.calls[c] == call
  }

  /**
   `keyed` says whether the table has its `PRIMARY KEY CHECK (id = 1)`, which makes an insert
   fail when there is a row. Without it the insert would go through.
   */
  function Step<V(==)>(keyed: bool, s: State<V>, a: Action<V>): State<V> {
    match a
    case Begin(c) => if c in s.calls then s else s.(calls := s.calls[c := Selecting])
    case Select(c, ok) =>
      if !At(s, c, Selecting) then s
      else if !ok then Fail(s, c)
      else if s.row.Some? then Finish(s, c, s.row.value)
      else s.(calls := s.calls[c := Generating])
    case Generate(c, made) =>
      if !At(s, c, Generating) then s
      else if made.None? then Fail(s, c)
      else s.(calls := s.calls[c := Inserting(made.value)])
    case Insert(c, ok) =>
      if c !in s.calls || !s.calls[c].Inserting? then s
      else if !ok || (keyed && s.row.Some?) then Fail(s, c)
      else Finish(s.(row := Some(s.calls[c].own)), c, s.calls[c].own)
    case Restart => s.(calls := map[])
  }

  function Run<V(==)>(keyed: bool, acts: seq<Action<V>>): State<V> {
    if acts == [] then Init() else Step(keyed, Run(keyed, Front(acts)), Last(acts))
  }

  lemma RunAppend<V>(keyed: bool, acts: seq<Action<V>>, a: Action<V>)
    ensures Run(keyed, acts + [a]) == Step(keyed, Run(keyed, acts), a)
  {
    assert Front(acts + [a]) == acts;
  }

  /** A step is its caller's alone; a restart ends every call and touches neither row nor results. */
  lemma StepsAreLocal<V>(keyed: bool, s: State<V>, a: Action<V>)
    ensures var t := Step(keyed, s, a);
            if a.Restart? then t == State(s.row, map[], s.results)
            else forall c :: c != a.c ==> (c in t.calls <==> c in s.calls) && (c in s.calls ==> t.calls[c] == s.calls[c])
  {
  }

  /** Everything that was ever returned is the row that is stored. */
  predicate Agreed<V(==)>(s: State<V>) {
    && (forall i :: 0 <= i < |s.results| ==> s.row == Some(s.results[i]))
    && (forall c :: c in s.calls && s.calls[c].Returned? ==> s.row == Some(s.calls[c].value))
  }

  lemma {:induction false} RunAgreed<V>(acts: seq<Action<V>>)
    ensures Agreed(Run(true, acts))
  {
    if acts != [] {
      RunAgreed(Front(acts));
    }
  }

  /** Under every interleaving, all successful calls return the same value, restarts included. */
  lemma AllCallersAgree<V>(acts: seq<Action<V>>, i: nat, j: nat)
    requires i < |Run(true, acts).results| && j < |Run(true, acts).results|
    ensures Run(true, acts).results[i] == Run(true, acts).results[j]
    ensures Run(true, acts).row == Some(Run(true, acts).results[i])
  {
    RunAgreed(acts);
  }

  /** Once there is a row it never changes, and nothing that was returned is forgotten. */
  lemma {:induction false} RowIsPermanent<V>(acts: seq<Action<V>>, more: seq<Action<V>>)
    requires Run(true, acts).row.Some?
    ensures Run(true, acts + more).row == Run(true, acts).row
    ensures Run(true, acts).results <= Run(true, acts + more).results
  {
    if more == [] {
      assert acts + more == acts;
    } else {
      RowIsPermanent(acts, Front(more));
      assert Front(acts + more) == acts + Front(more) && Last(acts + more) == Last(more);
    }
  }

  /**
   A caller whose sound insert failed lost a race: the row is there, and a new call that meets
   no fault returns it.
   */
  lemma LoserCanRetry<V>(acts: seq<Action<V>>, c: Caller, retry: Caller)
    requires c in Run(true, acts).calls && Run(true, acts).calls[c].Inserting? && retry !in Run(true, acts).calls
    requires Run(true, acts + [Insert(c, true)]).calls[c].Failed?
    ensures var s := Run(true, acts + [Insert(c, true), Begin(retry), Select(retry, true)]);
            s.row.Some? && At(s, retry, Returned(s.row.value))
  {
    var a: Action<V>, b: Action<V>, d: Action<V> := Insert(c, true), Begin(retry), Select(retry, true);
    assert Front(acts + [a]) == acts;
    assert Front(acts + [a, b]) == acts + [a];
    assert Front(acts + [a, b, d]) == acts + [a, b];
  }

  /** Two callers that both find the table empty and are both about to insert. */
  const RACE: seq<Action<int>> :=
    [Begin(0), Begin(1), Select(0, true), Select(1, true), Generate(0, Some(10)), Generate(1, Some(11))]

  lemma BothFindNothing(keyed: bool)
    ensures Run(keyed, RACE[..4]) == State(None, map[0 := Generating, 1 := Generating], [])
  {
    var acts := RACE[..4];
    assert Front(acts) == acts[..3] && Front(acts[..3]) == acts[..2];
    assert Front(acts[..2]) == acts[..1] && Front(acts[..1]) == [];
    assert Run<int>(keyed, []) == Init();
    assert Run(keyed, acts[..2]) == State(None, map[0 := Selecting, 1 := Selecting], []);
  }

  lemma BothReachInsert(keyed: bool)
    ensures Run(keyed, RACE) == State(None, map[0 := Inserting(10), 1 := Inserting(11)], [])
  {
    BothFindNothing(keyed);
    RunAppend(keyed, RACE[..4], Generate(0, Some(10)));
    RunAppend(keyed, RACE[..5], Generate(1, Some(11)));
    assert RACE[..5] == RACE[..4] + [Generate(0, Some(10))] && RACE == RACE[..5] + [Generate(1, Some(11))];
  }

  /** The primary key is what makes them agree: without it both would succeed, with different values. */
  lemma AgreementNeedsTheKey()
    ensures Run(false, RACE + [Insert(0, true)] + [Insert(1, true)]).results == [10, 11]
    ensures Run(true, RACE + [Insert(0, true)] + [Insert(1, true)]).results == [10]
  {
    RaceEnds(false);
    RaceEnds(true);
  }

  lemma RaceEnds(keyed: bool)
    ensures Run(keyed, RACE + [Insert(0, true)] + [Insert(1, true)]).results == if keyed then [10] else [10, 11]
  {
    BothReachInsert(keyed);
    RunAppend(keyed, RACE, Insert(0, true));
    RunAppend(keyed, RACE + [Insert(0, true)], Insert(1, true));
  }

  // ── One call, in the midst of others ─────────────────────────────────────────────────

  /** `after` goes on from `past` with steps of one caller, and of another that may come in between. */
  predicate Extends<V(==)>(past: seq<Action<V>>, after: seq<Action<V>>, me: Caller, other: Caller) {
    past <= after && forall i :: |past| <= i < |after| ==> !after[i].Restart? && after[i].c in {me, other}
  }

  /** The call of `me` is over: it returned what is stored, or failed. */
  predicate Over<V(==)>(acts: seq<Action<V>>, me: Caller, ok: bool) {
    var s := Run(true, acts);
    if ok then s.row.Some? && At(s, me, Returned(s.row.value)) else At(s, me, Failed)
  }

  predicate NewCallers<V(==)>(past: seq<Action<V>>, me: Caller, other: Caller) {
    me != other && me !in Run(true, past).calls && other !in Run(true, past).calls
  }

  lemma CallSelects<V>(past: seq<Action<V>>, me: Caller, ok: bool) returns (after: seq<Action<V>>)
    requires me !in Run(true, past).calls
    ensures after == past + [Begin(me), Select(me, ok)]
    ensures var s, t := Run(true, past), Run(true, after);
            && t.row == s.row
            && (!ok || s.row.Some? ==> Over(after, me, ok))
            && (ok && s.row.None? ==> t == s.(calls := s.calls[me := Generating]))
  {
    after := past + [Begin(me), Select(me, ok)];
    RunAppend(true, past, Begin(me));
    RunAppend(true, past + [Begin(me)], Select(me, ok));
    assert past + [Begin(me)] + [Select(me, ok)] == after;
  }

  lemma CallGenerates<V>(past: seq<Action<V>>, me: Caller, made: Option<V>) returns (after: seq<Action<V>>)
    requires At(Run(true, past), me, Generating)
    ensures after == past + [Generate(me, made)]
    ensures var s, t := Run(true, past), Run(true, after);
            && (made.None? ==> t.row == s.row && Over(after, me, false))
            && (made.Some? ==> t == s.(calls := s.calls[me := Inserting(made.value)]))
  {
    after := past + [Generate(me, made)];
    RunAppend(true, past, Generate(me, made));
  }

  /** A whole call of another caller that finds nothing and commits `v`. */
  lemma OtherCommits<V>(past: seq<Action<V>>, other: Caller, v: V) returns (after: seq<Action<V>>)
    requires Run(true, past).row.None? && other !in Run(true, past).calls
    ensures after == past + [Begin(other), Select(other, true), Generate(other, Some(v)), Insert(other, true)]
    ensures Run(true, after).row == Some(v) && Run(true, after).calls == Run(true, past).calls[other := Returned(v)]
  {
    after := CallSelects(past, other, true);
    after := CallGenerates(after, other, Some(v));
    RunAppend(true, after, Insert(other, true));
    after := after + [Insert(other, true)];
  }

  lemma CallInserts<V>(past: seq<Action<V>>, me: Caller, own: V, ok: bool) returns (after: seq<Action<V>>)
    requires At(Run(true, past), me, Inserting(own))
    ensures after == past + [Insert(me, ok)]
    ensures var s, t := Run(true, past), Run(true, after);
            Over(after, me, ok && s.row.None?) && t.row == if ok && s.row.None? then Some(own) else s.row
  {
    after := past + [Insert(me, ok)];
    RunAppend(true, past, Insert(me, ok));
  }

  /** From finding nothing to the fate of the insert, while another caller may commit `meanwhile`. */
  lemma CallRaces<V>(past: seq<Action<V>>, me: Caller, other: Caller, own: V, meanwhile: Option<V>, ok: bool)
    returns (after: seq<Action<V>>)
    requires Run(true, past).row.None? && me != other && At(Run(true, past), me, Generating) && other !in Run(true, past).calls
    ensures Extends(past, after, me, other)
    ensures Over(after, me, ok && meanwhile.None?)
    ensures Run(true, after).row == if meanwhile.Some? then meanwhile else if ok then Some(own) else None
  {
    after := CallGenerates(past, me, Some(own));
    if meanwhile.Some? {
      after := OtherCommits(after, other, meanwhile.value);
    }
    after := CallInserts(after, me, own, ok);
  }
}
