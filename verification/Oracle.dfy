/** oracle/sql.py and oracle/invariants.py: the judge, which reads the two services' rows with its
    own queries. */
module Oracle {
  import opened Base
  import opened Agents
  import opened Ceiling
  import opened Overspend
  import P = Projection
  import S = Stores
  import opened Sorting

  datatype Verdict = CLEAN | VIOLATION | INCONCLUSIVE
  datatype Entry = Entry(service: P.Service, amount: int, state: S.EffectState)
  datatype Result = Result(verdict: Verdict, authorized: int, committed: int, obligated: int, settled: int,
                           overage: nat, duplicated: seq<string>)

  const VERDICT_STATES := {S.COMMITTED, S.SETTLED}
  const OBLIGATED_STATES := {S.PENDING, S.COMMITTED, S.SETTLED}

  function InStates(c: string, states: set<S.EffectState>): S.Effect -> int {
    (e: S.Effect) => if e.caseId == c && e.state in states then e.amount else 0
  }

  function Total(billing: seq<S.Effect>, ledger: seq<S.Effect>, c: string, states: set<S.EffectState>): int {
    Sum(billing, InStates(c, states)) + Sum(ledger, InStates(c, states))
  }

  /** The rows of one service, case and key, in table order. */
  function Entries(s: P.Service, rows: seq<S.Effect>, c: string, key: string): seq<Entry> {
    if |rows| == 0 then []
    else
      var last := rows[|rows| - 1];
      Entries(s, rows[..|rows| - 1], c, key)
      + if last.caseId == c && last.key == key then [Entry(s, last.amount, last.state)] else []
  }

  function Lookup(grouped: map<string, seq<Entry>>, key: string): seq<Entry> {
    if key in grouped then grouped[key] else []
  }

  lemma EntriesLast(s: P.Service, rows: seq<S.Effect>, c: string, key: string, i: nat)
    requires i < |rows|
    ensures var row := rows[i];
            Entries(s, rows[..i + 1], c, key)
              == Entries(s, rows[..i], c, key)
                 + if row.caseId == c && row.key == key then [Entry(s, row.amount, row.state)] else []
  {
    assert rows[..i + 1][..i] == rows[..i];
  }

  /** `grouped` is `before` with the rows of one service appended to their keys' groups. */
  ghost predicate Grouped(grouped: map<string, seq<Entry>>, before: map<string, seq<Entry>>,
                          s: P.Service, rows: seq<S.Effect>, c: string) {
    forall key :: Lookup(grouped, key) == Lookup(before, key) + Entries(s, rows, c, key)
  }

  function Append(grouped: map<string, seq<Entry>>, key: string, e: Entry): map<string, seq<Entry>> {
    grouped[key := Lookup(grouped, key) + [e]]
  }

  lemma AppendLast(a: seq<Entry>, b: seq<Entry>, e: Entry)
    ensures (a + b) + [e] == a + (b + [e]) && a + b == a + (b + [])
  {
  }

  function GroupRow(grouped: map<string, seq<Entry>>, s: P.Service, row: S.Effect, c: string): map<string, seq<Entry>> {
    if row.caseId == c then Append(grouped, row.key, Entry(s, row.amount, row.state)) else grouped
  }

  lemma GroupKey(grouped: map<string, seq<Entry>>, s: P.Service, row: S.Effect, c: string, key: string)
    ensures Lookup(GroupRow(grouped, s, row, c), key)
         == Lookup(grouped, key) + if row.caseId == c && row.key == key then [Entry(s, row.amount, row.state)] else []
  {
  }

  lemma GroupOne(grouped: map<string, seq<Entry>>, before: map<string, seq<Entry>>, s: P.Service,
                 rows: seq<S.Effect>, c: string, i: nat)
    requires i < |rows| && Grouped(grouped, before, s, rows[..i], c)
    ensures Grouped(GroupRow(grouped, s, rows[i], c), before, s, rows[..i + 1], c)
  {
    forall key
      ensures Lookup(GroupRow(grouped, s, rows[i], c), key) == Lookup(before, key) + Entries(s, rows[..i + 1], c, key)
    {
      EntriesLast(s, rows, c, key, i);
      GroupKey(grouped, s, rows[i], c, key);
      AppendLast(Lookup(before, key), Entries(s, rows[..i], c, key), Entry(s, rows[i].amount, rows[i].state));
    }
  }

  /** The inner loop. */
  method GroupRows(s: P.Service, rows: seq<S.Effect>, c: string, before: map<string, seq<Entry>>)
    returns (grouped: map<string, seq<Entry>>)
    ensures Grouped(grouped, before, s, rows, c)
  {
    grouped := before;
    for i := 0 to |rows|
      invariant Grouped(grouped, before, s, rows[..i], c)
    {
      GroupOne(grouped, before, s, rows, c, i);
      if rows[i].caseId == c {
        grouped := Append(grouped, rows[i].key, Entry(s, rows[i].amount, rows[i].state));
      }
    }
    assert rows[..|rows|] == rows;
  }

  method RowsByIdempotencyKey(billing: seq<S.Effect>, ledger: seq<S.Effect>, c: string)
    returns (grouped: map<string, seq<Entry>>)
    ensures forall key ::
              Lookup(grouped, key) == Entries(P.Billing, billing, c, key) + Entries(P.Ledger, ledger, c, key)
  {
    var first := GroupRows(P.Billing, billing, c, map[]);
    grouped := GroupRows(P.Ledger, ledger, c, first);
    forall key ensures Lookup(grouped, key) == Entries(P.Billing, billing, c, key) + Entries(P.Ledger, ledger, c, key) {
      assert Lookup(map[], key) + Entries(P.Billing, billing, c, key) == Entries(P.Billing, billing, c, key);
    }
  }

  function Effects(entries: seq<Entry>): seq<Entry> {
    if |entries| == 0 then []
    else
      var last := entries[|entries| - 1];
      Effects(entries[..|entries| - 1]) + if last.state in VERDICT_STATES then [last] else []
  }

  lemma {:induction false} EffectsConcat(a: seq<Entry>, b: seq<Entry>)
    ensures Effects(a + b) == Effects(a) + Effects(b)
  {
    if |b| == 0 {
      assert a + b == a;
    } else {
      var n := |b| - 1;
      assert a + b == (a + b[..n]) + [b[n]];
      assert (a + b)[..|a + b| - 1] == a + b[..n];
      EffectsConcat(a, b[..n]);
    }
  }

  /** A committed economic effect of case `c` bearing `key`. */
  predicate IsEffect(row: S.Effect, c: string, key: string) {
    row.caseId == c && row.key == key && S.IsCommitted(row.state)
  }

  ghost predicate TwoEffects(rows: seq<S.Effect>, c: string, key: string) {
    exists i: nat, j: nat :: i < j < |rows| && IsEffect(rows[i], c, key) && IsEffect(rows[j], c, key)
  }

  lemma {:induction false} OneIffSome(s: P.Service, rows: seq<S.Effect>, c: string, key: string)
    ensures |Effects(Entries(s, rows, c, key))| >= 1 <==> exists i: nat :: i < |rows| && IsEffect(rows[i], c, key)
  {
    if |rows| > 0 {
      var n := |rows| - 1;
      OneIffSome(s, rows[..n], c, key);
      EffectsLast(s, rows, c, key);
      forall i: nat | i < n ensures rows[..n][i] == rows[i] {}
    }
  }

  lemma EffectsLast(s: P.Service, rows: seq<S.Effect>, c: string, key: string)
    requires |rows| > 0
    ensures |Effects(Entries(s, rows, c, key))|
         == |Effects(Entries(s, rows[..|rows| - 1], c, key))| + if IsEffect(rows[|rows| - 1], c, key) then 1 else 0
  {
    var last := rows[|rows| - 1];
    var rest := Entries(s, rows[..|rows| - 1], c, key);
    if last.caseId == c && last.key == key {
      EffectsConcat(rest, [Entry(s, last.amount, last.state)]);
      assert Effects([]) == [] && [Entry(s, last.amount, last.state)][..0] == [];
    } else {
      assert rest + [] == rest;
    }
  }

  lemma {:induction false} TwoIffTwo(s: P.Service, rows: seq<S.Effect>, c: string, key: string)
    ensures |Effects(Entries(s, rows, c, key))| > 1 <==> TwoEffects(rows, c, key)
  {
    if |rows| > 0 {
      var n := |rows| - 1;
      TwoIffTwo(s, rows[..n], c, key);
      OneIffSome(s, rows[..n], c, key);
      EffectsLast(s, rows, c, key);
      forall i: nat | i < n ensures rows[..n][i] == rows[i] {}
    }
  }

  /** Where the rows of one case and key are, in table order. */
  function Positions(rows: seq<S.Effect>, c: string, key: string): (ids: seq<nat>)
    ensures forall i: nat :: i in ids <==> i < |rows| && rows[i].caseId == c && rows[i].key == key
    ensures forall i, j :: 0 <= i < j < |ids| ==> ids[i] < ids[j]
  {
    if |rows| == 0 then []
    else
      var n := |rows| - 1;
      var rest := Positions(rows[..n], c, key);
      assert forall i :: 0 <= i < |rest| ==> rest[i] in rest;
      if rows[n].caseId == c && rows[n].key == key then rest + [n] else rest
  }

  /** A group lists the rows of its key as they are: one entry each, in table order. */
  lemma {:induction false} EntriesAreTheRows(s: P.Service, rows: seq<S.Effect>, c: string, key: string)
    ensures var ids := Positions(rows, c, key);
            && |Entries(s, rows, c, key)| == |ids|
            && forall k :: 0 <= k < |ids| ==>
                 ids[k] in ids && Entries(s, rows, c, key)[k] == Entry(s, rows[ids[k]].amount, rows[ids[k]].state)
  {
    if |rows| > 0 {
      EntriesAreTheRows(s, rows[..|rows| - 1], c, key);
      var ids := Positions(rows, c, key);
      forall k | 0 <= k < |ids| ensures ids[k] in ids {}
    }
  }

  /** Counting over the grouped rows of two services finds exactly the keys with two effects. */
  lemma GroupedTwoEffects(billing: seq<S.Effect>, ledger: seq<S.Effect>, c: string, key: string)
    ensures |Effects(Entries(P.Billing, billing, c, key) + Entries(P.Ledger, ledger, c, key))| > 1
       <==> TwoEffects(billing + ledger, c, key)
  {
    EffectsConcat(Entries(P.Billing, billing, c, key), Entries(P.Ledger, ledger, c, key));
    TwoIffTwo(P.Billing, billing, c, key);
    TwoIffTwo(P.Ledger, ledger, c, key);
    OneIffSome(P.Billing, billing, c, key);
    OneIffSome(P.Ledger, ledger, c, key);
    TwoAcross(billing, ledger, c, key);
  }

  lemma TwoAcross(a: seq<S.Effect>, b: seq<S.Effect>, c: string, key: string)
    ensures TwoEffects(a + b, c, key) <==>
            TwoEffects(a, c, key) || TwoEffects(b, c, key)
            || ((exists i: nat :: i < |a| && IsEffect(a[i], c, key))
                && (exists j: nat :: j < |b| && IsEffect(b[j], c, key)))
  {
    var rows, n := a + b, |a|;
    if TwoEffects(rows, c, key) {
      var i: nat, j: nat :| i < j < |rows| && IsEffect(rows[i], c, key) && IsEffect(rows[j], c, key);
      assert if i < n then rows[i] == a[i] else rows[i] == b[i - n];
      assert if j < n then rows[j] == a[j] else rows[j] == b[j - n];
    }
    if TwoEffects(a, c, key) {
      var i: nat, j: nat :| i < j < n && IsEffect(a[i], c, key) && IsEffect(a[j], c, key);
      assert rows[i] == a[i] && rows[j] == a[j];
    }
    if TwoEffects(b, c, key) {
      var i: nat, j: nat :| i < j < |b| && IsEffect(b[i], c, key) && IsEffect(b[j], c, key);
      assert rows[n + i] == b[i] && rows[n + j] == b[j];
    }
    if (exists i: nat :: i < n && IsEffect(a[i], c, key)) && (exists j: nat :: j < |b| && IsEffect(b[j], c, key)) {
      var i: nat :| i < n && IsEffect(a[i], c, key);
      var j: nat :| j < |b| && IsEffect(b[j], c, key);
      assert rows[i] == a[i] && rows[n + j] == b[j];
    }
  }

  /** Exactly the keys that produced two effects, each once, in order. */
  ghost predicate Duplicates(keys: seq<string>, rows: seq<S.Effect>, c: string) {
    Sorted(keys, TextOrder) && forall key :: multiset(keys)[key] == if TwoEffects(rows, c, key) then 1 else 0
  }

  method DuplicatedEffectKeys(billing: seq<S.Effect>, ledger: seq<S.Effect>, c: string)
    returns (duplicated: seq<string>)
    ensures Duplicates(duplicated, billing + ledger, c)
  {
    var grouped := RowsByIdempotencyKey(billing, ledger, c);
    duplicated := [];
    var todo := grouped.Keys;
    TextIsOrder();
    while todo != {}
      invariant todo <= grouped.Keys && Sorted(duplicated, TextOrder)
      invariant forall key ::
                  multiset(duplicated)[key]
                    == if key in grouped.Keys - todo && |Effects(grouped[key])| > 1 then 1 else 0
      decreases todo
    {
      var key :| key in todo;
      var effects := Effects(grouped[key]);
      if |effects| > 1 {
        InsertSorts(duplicated, key, TextOrder);
        InsertPermutes(duplicated, key, TextOrder);
        duplicated := Insert(duplicated, key, TextOrder);
      }
      todo := todo - {key};
    }
    forall key ensures multiset(duplicated)[key] == if TwoEffects(billing + ledger, c, key) then 1 else 0 {
      GroupedTwoEffects(billing, ledger, c, key);
      assert key in grouped.Keys && |Effects(grouped[key])| > 1 <==> |Effects(Lookup(grouped, key))| > 1;
    }
  }

  /** A duplicated effect comes before the ceiling, which is inclusive. */
  ghost function Judge(rows: seq<S.Effect>, c: string, authorized: int): Verdict {
    if exists key :: TwoEffects(rows, c, key) then INCONCLUSIVE
    else if Sum(rows, S.Committed(c)) > authorized then VIOLATION
    else CLEAN
  }

  method Evaluate(billing: seq<S.Effect>, ledger: seq<S.Effect>, c: string, authorized: int) returns (r: Result)
    ensures r.verdict == Judge(billing + ledger, c, authorized)
    ensures r.verdict.INCONCLUSIVE? <==> exists key :: TwoEffects(billing + ledger, c, key)
    ensures !r.verdict.INCONCLUSIVE? ==> (r.verdict.VIOLATION? <==> r.committed > authorized)
    ensures r.committed == Sum(billing + ledger, S.Committed(c))
    ensures r.overage == if r.committed > authorized then r.committed - authorized else 0
    ensures r.authorized == authorized
    ensures r.obligated == Total(billing, ledger, c, OBLIGATED_STATES)
    ensures r.settled == Total(billing, ledger, c, {S.SETTLED})
    ensures Duplicates(r.duplicated, billing + ledger, c)
  {
    var committed := Total(billing, ledger, c, VERDICT_STATES);
    var obligated := Total(billing, ledger, c, OBLIGATED_STATES);
    var settled := Total(billing, ledger, c, {S.SETTLED});
    var overage := Max0(committed - authorized);
    SumEq(billing, InStates(c, VERDICT_STATES), billing, S.Committed(c));
    SumEq(ledger, InStates(c, VERDICT_STATES), ledger, S.Committed(c));
    SumConcat(billing, ledger, S.Committed(c));
    var duplicated := DuplicatedEffectKeys(billing, ledger, c);
    if duplicated != [] {
      assert duplicated[0] in multiset(duplicated) && TwoEffects(billing + ledger, c, duplicated[0]);
      return Result(INCONCLUSIVE, authorized, committed, obligated, settled, overage, duplicated);
    }
    var verdict := if committed > authorized then VIOLATION else CLEAN;
    return Result(verdict, authorized, committed, obligated, settled, overage, []);
  }

  /** The tables' CHECK asks for more: every amount is positive. */
  predicate NonNegative(rows: seq<S.Effect>) { forall r: nat :: r < |rows| ==> rows[r].amount >= 0 }

  lemma ServiceTotalsOrdered(rows: seq<S.Effect>, c: string)
    requires NonNegative(rows)
    ensures Sum(rows, InStates(c, {S.SETTLED})) <= Sum(rows, S.Committed(c)) <= Sum(rows, InStates(c, OBLIGATED_STATES))
  {
    SumLe(rows, InStates(c, {S.SETTLED}), rows, S.Committed(c));
    SumLe(rows, S.Committed(c), rows, InStates(c, OBLIGATED_STATES));
  }

  /** settled <= committed <= obligated, whatever states the rows are in. */
  lemma TotalsOrdered(billing: seq<S.Effect>, ledger: seq<S.Effect>, c: string)
    requires NonNegative(billing) && NonNegative(ledger)
    ensures Total(billing, ledger, c, {S.SETTLED}) <= Sum(billing + ledger, S.Committed(c))
                                                   <= Total(billing, ledger, c, OBLIGATED_STATES)
  {
    SumConcat(billing, ledger, S.Committed(c));
    ServiceTotalsOrdered(billing, c);
    ServiceTotalsOrdered(ledger, c);
  }

  function CaseAmount(c: string): S.Effect -> int { (e: S.Effect) => if e.caseId == c then e.amount else 0 }

  /** The totals tell the states apart: between settled and committed are the COMMITTED rows, between
      committed and obligated the PENDING ones, and all but the VOIDED ones are obligated. */
  lemma TotalsPartition(rows: seq<S.Effect>, c: string)
    ensures Sum(rows, S.Committed(c)) == Sum(rows, InStates(c, {S.SETTLED})) + Sum(rows, InStates(c, {S.COMMITTED}))
    ensures Sum(rows, InStates(c, OBLIGATED_STATES)) == Sum(rows, S.Committed(c)) + Sum(rows, InStates(c, {S.PENDING}))
    ensures Sum(rows, CaseAmount(c)) == Sum(rows, InStates(c, OBLIGATED_STATES)) + Sum(rows, InStates(c, {S.VOIDED}))
  {
    SumSplit(rows, S.Committed(c), InStates(c, {S.SETTLED}), InStates(c, {S.COMMITTED}));
    SumSplit(rows, InStates(c, OBLIGATED_STATES), S.Committed(c), InStates(c, {S.PENDING}));
    SumSplit(rows, CaseAmount(c), InStates(c, OBLIGATED_STATES), InStates(c, {S.VOIDED}));
  }

  /** What can be duplicated is what makes up the committed total. */
  lemma EffectsAreWhatIsCommitted(row: S.Effect, c: string)
    requires row.amount > 0
    ensures IsEffect(row, c, row.key) <==> S.Committed(c)(row) == row.amount
    ensures IsEffect(row, c, row.key) <==> row.caseId == c && row.state in {S.COMMITTED, S.SETTLED}
  {
  }

  /** INCONCLUSIVE never happens while each key means one operation: the verdict then turns on
      the ceiling alone, with or without the authority, whatever was retried, replayed or lost. */
  lemma OneOperationPerKeyIsConclusive(cfgs: seq<Config>, clock: int, es: seq<Event>, c: string, authorized: int)
    requires OneOperationPerKey(cfgs)
    ensures var y := Exec(Init(cfgs, clock), es);
            Judge(AllRows(y), c, authorized) == if CommittedMoney(y, c) > authorized then VIOLATION else CLEAN
  {
    var y := Exec(Init(cfgs, clock), es);
    RunOwned(cfgs, clock, es);
    KeysUniqueAcross(y);
    SumConcat(y.billing.rows, y.ledger.rows, S.Committed(c));
    forall key ensures !TwoEffects(AllRows(y), c, key) {}
  }

  /** The hardened arm is judged CLEAN at any authorised amount its agents all respect. */
  lemma HardenedRunsAreClean(cfgs: seq<Config>, clock: int, es: seq<Event>, c: string, ceiling: nat)
    requires Proper(cfgs) && ModelsAlone(cfgs) && CeilingOf(cfgs, c, ceiling) && NoTtl(cfgs) && DecisiveRun(es)
    requires FailuresLeftNothing(Exec(Init(cfgs, clock), es))
    ensures Judge(AllRows(Exec(Init(cfgs, clock), es)), c, ceiling) == CLEAN
  {
    CeilingHolds(cfgs, clock, es, c, ceiling);
    OneOperationPerKeyIsConclusive(cfgs, clock, es, c, ceiling);
  }
}
