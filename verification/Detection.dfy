/** What the reconciler's report is worth against the ceiling it does not know. */
module Detection {
  import opened Base
  import opened Agents
  import opened Ceiling
  import opened Overspend
  import H = Control
  import S = Stores
  import P = Projection
  import R = Reconciler

  /** The reconciler reads the very rows the services wrote. */
  ghost predicate Sees(w: P.World, y: Sys) {
    w.billing.rows == y.billing.rows && w.ledger.rows == y.ledger.rows
  }

  /** The money a finding names. */
  function Price(f: R.Finding): int { if f.SpentExpiredHold? then f.amount else 0 }

  function NamedMoney(findings: seq<R.Finding>): int { Sum(findings, Price) }

  lemma LandedSplits(a: seq<S.Effect>, b: seq<S.Effect>, key: string)
    ensures S.Landed(a + b, key) <==> S.Landed(a, key) || S.Landed(b, key)
  {
    var rows, n := a + b, |a|;
    if S.Landed(a, key) {
      var r: nat :| r < n && a[r].key == key && S.IsCommitted(a[r].state);
      assert rows[r] == a[r];
    }
    if S.Landed(b, key) {
      var r: nat :| r < |b| && b[r].key == key && S.IsCommitted(b[r].state);
      assert rows[n + r] == b[r];
    }
    if S.Landed(rows, key) {
      var r: nat :| r < |rows| && rows[r].key == key && S.IsCommitted(rows[r].state);
      assert if r < n then a[r] == rows[r] else b[r - n] == rows[r];
    }
  }

  lemma UniqueLandsOnce(a: seq<S.Effect>, b: seq<S.Effect>, key: string)
    requires S.KeysUnique(a + b)
    ensures !(S.Landed(a, key) && S.Landed(b, key))
  {
    if S.Landed(a, key) {
      var i: nat :| i < |a| && a[i].key == key && S.IsCommitted(a[i].state);
      forall j: nat | j < |b| ensures b[j].key != key {
        assert (a + b)[i] == a[i] && (a + b)[|a| + j] == b[j];
      }
    }
  }

  lemma LandsInOneService(w: P.World, y: Sys, key: string)
    requires Traced(y) && StoresTrue(y) && Sees(w, y)
    ensures S.Landed(AllRows(y), key) <==> S.Landed(w.billing.rows, key) || S.Landed(w.ledger.rows, key)
    ensures !(S.Landed(w.billing.rows, key) && S.Landed(w.ledger.rows, key))
  {
    KeysUniqueAcross(y);
    LandedSplits(y.billing.rows, y.ledger.rows, key);
    UniqueLandsOnce(y.billing.rows, y.ledger.rows, key);
  }

  lemma NamedOnce(w: P.World, y: Sys, h: H.Hold)
    requires Traced(y) && StoresTrue(y) && Sees(w, y)
    ensures NamedMoney(R.SpentOne(w, h, P.Billing) + R.SpentOne(w, h, P.Ledger))
         == if S.Landed(AllRows(y), h.key) then h.amount else 0
  {
    LandsInOneService(w, y, h.key);
    SumConcat(R.SpentOne(w, h, P.Billing), R.SpentOne(w, h, P.Ledger), Price);
  }

  function OneHold(w: P.World, h: H.Hold, c: string): seq<R.Finding> {
    if h.caseId == c && h.state.EXPIRED? then R.SpentOne(w, h, P.Billing) + R.SpentOne(w, h, P.Ledger) else []
  }

  lemma SpentExpiredLast(w: P.World, holds: seq<H.Hold>, c: string, n: nat)
    requires n < |holds|
    ensures R.SpentExpired(w, holds[..n + 1], c) == R.SpentExpired(w, holds[..n], c) + OneHold(w, holds[n], c)
  {
    assert holds[..n + 1][..n] == holds[..n];
  }

  /** What a spent, expired hold of the case adds to both sides. */
  function Counted(y: Sys, h: H.Hold, c: string): int {
    if h.caseId == c && h.state.EXPIRED? && S.Landed(AllRows(y), h.key) then h.amount else 0
  }

  lemma NamedHold(w: P.World, y: Sys, h: H.Hold, c: string)
    requires Traced(y) && StoresTrue(y) && Sees(w, y)
    ensures NamedMoney(OneHold(w, h, c)) == Counted(y, h, c)
  {
    NamedOnce(w, y, h);
  }

  lemma PickedHold(y: Sys, c: string, n: nat)
    requires 0 < n <= |y.control.holds|
    ensures Pick(y.control.holds, SpentIn(y, H.EXPIRED), c, n)
         == Pick(y.control.holds, SpentIn(y, H.EXPIRED), c, n - 1) + Counted(y, y.control.holds[n - 1], c)
  {
    var k := n - 1;
    assert k in SpentIn(y, H.EXPIRED) <==>
               S.Landed(AllRows(y), y.control.holds[k].key) && y.control.holds[k].state.EXPIRED?;
  }

  lemma NamedLast(w: P.World, holds: seq<H.Hold>, c: string, n: nat)
    requires 0 < n <= |holds|
    ensures NamedMoney(R.SpentExpired(w, holds[..n], c))
         == NamedMoney(R.SpentExpired(w, holds[..n - 1], c)) + NamedMoney(OneHold(w, holds[n - 1], c))
  {
    SpentExpiredLast(w, holds, c, n - 1);
    SumConcat(R.SpentExpired(w, holds[..n - 1], c), OneHold(w, holds[n - 1], c), Price);
  }

  ghost predicate NamedTruly(w: P.World, y: Sys, h: H.Hold, c: string) {
    NamedMoney(OneHold(w, h, c)) == Counted(y, h, c)
  }

  lemma {:induction false} NamedHolds(w: P.World, y: Sys, c: string, n: nat)
    requires n <= |y.control.holds|
    requires forall k: nat :: k < |y.control.holds| ==> NamedTruly(w, y, y.control.holds[k], c)
    ensures NamedMoney(R.SpentExpired(w, y.control.holds[..n], c)) == Pick(y.control.holds, SpentIn(y, H.EXPIRED), c, n)
  {
    if n > 0 {
      NamedHolds(w, y, c, n - 1);
      NamedLast(w, y.control.holds, c, n);
      PickedHold(y, c, n);
      assert NamedTruly(w, y, y.control.holds[n - 1], c);
    }
  }

  /** The report names each spent, expired hold of the case for its amount, once. */
  lemma NamedIsExpiredSpending(w: P.World, y: Sys, c: string)
    requires Traced(y) && StoresTrue(y) && Sees(w, y)
    ensures NamedMoney(R.SpentExpired(w, y.control.holds, c)) == Amounts(y, SpentIn(y, H.EXPIRED), c)
  {
    var holds := y.control.holds;
    forall k: nat | k < |holds| ensures NamedTruly(w, y, holds[k], c) {
      NamedHold(w, y, holds[k], c);
    }
    NamedHolds(w, y, c, |holds|);
    assert holds[..|holds|] == holds;
  }

  /** `f` reports `h`, an EXPIRED hold of the case whose effect landed in the service it names. */
  ghost predicate Reports(w: P.World, h: H.Hold, c: string, f: R.Finding) {
    && f.SpentExpiredHold? && S.Landed(P.Source(w, f.service).rows, f.key)
    && h.caseId == c && h.state.EXPIRED? && h.key == f.key && h.amount == f.amount
  }

  lemma ReportedOne(w: P.World, h: H.Hold, c: string, f: R.Finding)
    ensures f in OneHold(w, h, c) <==> Reports(w, h, c, f)
  {
  }

  lemma ReportedLast(w: P.World, holds: seq<H.Hold>, c: string, f: R.Finding)
    requires |holds| > 0
    ensures var n := |holds| - 1;
            f in R.SpentExpired(w, holds, c) <==> f in R.SpentExpired(w, holds[..n], c) || Reports(w, holds[n], c, f)
  {
    var n := |holds| - 1;
    assert holds[..n + 1] == holds;
    SpentExpiredLast(w, holds, c, n);
    ReportedOne(w, holds[n], c, f);
  }

  ghost predicate SomeReports(w: P.World, holds: seq<H.Hold>, c: string, f: R.Finding) {
    exists k: nat :: k < |holds| && Reports(w, holds[k], c, f)
  }

  lemma SomeReportsLast(w: P.World, holds: seq<H.Hold>, c: string, f: R.Finding)
    requires |holds| > 0
    ensures var n := |holds| - 1;
            SomeReports(w, holds, c, f) <==> SomeReports(w, holds[..n], c, f) || Reports(w, holds[n], c, f)
  {
  }

  /** A finding reports a hold, and every hold that could be reported is. */
  lemma {:induction false} ReportedIffSpentExpired(w: P.World, holds: seq<H.Hold>, c: string, f: R.Finding)
    ensures f in R.SpentExpired(w, holds, c) <==> SomeReports(w, holds, c, f)
  {
    if |holds| > 0 {
      ReportedLast(w, holds, c, f);
      SomeReportsLast(w, holds, c, f);
      ReportedIffSpentExpired(w, holds[..|holds| - 1], c, f);
    }
  }

  ghost predicate SomeOrphaned(w: P.World, c: string, f: R.Finding) {
    exists i: nat :: i < |w.applied| && R.Orphaned(w, c, w.applied[i], f)
  }

  /** The report is exactly what is wrong, of the five kinds it looks for, whatever the state: events a
      source has not marked, with their number; a projection that differs from what was applied to it;
      keys borne by several rows, with their number; applied events whose source has none such; and
      EXPIRED holds whose effect landed. */
  lemma ReportIsExactlyWhatIsWrong(w: P.World, holds: seq<H.Hold>, c: string, f: R.Finding)
    ensures R.Reported(w, holds, c, f) <==>
            match f
            case ProjectionLag(_, _) => R.Lagging(w, c, f)
            case ProjectionDrift(_, _, _, _) => R.Drifting(w, c, f)
            case DuplicateKey(_, _, _) => R.Repeated(w, c, f)
            case OrphanedApplied(_, _) => SomeOrphaned(w, c, f)
            case SpentExpiredHold(_, _, _) => SomeReports(w, holds, c, f)
  {
    R.ReportedIffLagging(w, c, f);
    R.ReportedIffDrifting(w, c, f);
    if f.DuplicateKey? { R.KeyCountIsBearing(P.Source(w, f.service).rows, c, f.key); }
    R.ReportedIffOrphaned(w, c, f, |w.applied|);
    ReportedIffSpentExpired(w, holds, c, f);
  }

  /** An action in flight, its hold HELD and its effect perhaps already landed, is never reported. */
  lemma InFlightIsNotReported(w: P.World, cfgs: seq<Config>, clock: int, es: seq<Event>, c: string, k: nat,
                              f: R.Finding)
    requires Proper(cfgs)
    requires var y := Exec(Init(cfgs, clock), es); k < |y.control.holds| && y.control.holds[k].state.HELD?
    requires f in R.SpentExpired(w, Exec(Init(cfgs, clock), es).control.holds, c)
    ensures f.SpentExpiredHold? && f.key != Exec(Init(cfgs, clock), es).control.holds[k].key
  {
    var y := Exec(Init(cfgs, clock), es);
    ReportedIffSpentExpired(w, y.control.holds, c, f);
    LargestBounds(cfgs, c);
    AuthorityInv(cfgs, clock, es, c, Largest(cfgs));
    var j: nat :| j < |y.control.holds| && Reports(w, y.control.holds[j], c, f);
    assert j != k;
  }

  /** Late commits included: where freed holds are unspent, committed money exceeds the ceiling by no
      more than the report names and what was committed after it had lapsed. */
  lemma UnreportedOverspendIsRevived(w: P.World, cfgs: seq<Config>, clock: int, es: seq<Event>, c: string,
                                     ceiling: nat)
    requires Proper(cfgs) && ModelsAlone(cfgs) && CeilingOf(cfgs, c, ceiling) && DecisiveRun(es)
    requires var y := Exec(Init(cfgs, clock), es); FailuresLeftNothing(y) && Sees(w, y)
    ensures var y := Exec(Init(cfgs, clock), es);
            CommittedMoney(y, c)
              <= ceiling + NamedMoney(R.SpentExpired(w, y.control.holds, c)) + Amounts(y, SpentRevived(y), c)
  {
    RunTraced(cfgs, clock, es);
    OverspendIsExpiredOrRevived(cfgs, clock, es, c, ceiling);
    NamedIsExpiredSpending(w, Exec(Init(cfgs, clock), es), c);
  }

  /** Every overspend is reported: with deadlines, if no hold was committed after it had lapsed and
      failed creates left nothing, committed money exceeds the ceiling by no more than the report
      names in findings of that one kind. */
  lemma EveryOverspendIsReported(w: P.World, cfgs: seq<Config>, clock: int, es: seq<Event>, c: string, ceiling: nat)
    requires Proper(cfgs) && ModelsAlone(cfgs) && CeilingOf(cfgs, c, ceiling) && DecisiveRun(es)
    requires var y := Exec(Init(cfgs, clock), es);
             FailuresLeftNothing(y) && y.control.revived == {} && Sees(w, y)
    ensures var y := Exec(Init(cfgs, clock), es);
            CommittedMoney(y, c) <= ceiling + NamedMoney(R.SpentExpired(w, y.control.holds, c))
  {
    var y := Exec(Init(cfgs, clock), es);
    RunTraced(cfgs, clock, es);
    OverspendIsExpiredHolds(cfgs, clock, es, c, ceiling);
    NamedIsExpiredSpending(w, y, c);
  }
}
