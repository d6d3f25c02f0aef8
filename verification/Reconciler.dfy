/** apps/reconciliation/worker.py: what ordinary monitoring reports about a case, and what it
    cannot. Each check lists its findings in the order its queries return rows. */
module Reconciler {
  import opened Base
  import H = Control
  import S = Stores
  import opened P = Projection

  datatype Finding =
    | ProjectionLag(service: Service, pending: nat)
    | ProjectionDrift(total: int, events: int, appliedSum: int, appliedCount: int)
    | DuplicateKey(service: Service, key: string, count: nat)
    | OrphanedApplied(service: Service, id: nat)
    | SpentExpiredHold(service: Service, key: string, amount: int)

  const SOURCES: seq<Service> := [Billing, Ledger]

  function PendingCount(outbox: seq<S.OutboxRow>, c: string): nat {
    if |outbox| == 0 then 0
    else
      var last := outbox[|outbox| - 1];
      PendingCount(outbox[..|outbox| - 1], c) + if last.caseId == c && !last.applied then 1 else 0
  }

  function KeyCount(rows: seq<S.Effect>, c: string, key: string): nat {
    if |rows| == 0 then 0
    else
      var last := rows[|rows| - 1];
      KeyCount(rows[..|rows| - 1], c, key) + if last.caseId == c && last.key == key then 1 else 0
  }

  // ------------------------------------------------------------- what each check should report

  function Lag(w: World, c: string, s: Service): seq<Finding> {
    var pending := PendingCount(Source(w, s).outbox, c);
    if pending > 0 then [ProjectionLag(s, pending)] else []
  }

  function Drift(w: World, c: string): seq<Finding> {
    if c !in w.projection then []
    else
      var total, events := w.projection[c].total, w.projection[c].eventsApplied;
      var appliedSum := Sum(w.applied, AppliedWeight(c, false));
      var appliedCount := Sum(w.applied, AppliedWeight(c, true));
      if total != appliedSum || events != appliedCount
      then [ProjectionDrift(total, events, appliedSum, appliedCount)] else []
  }

  function Orphans(w: World, c: string, n: nat): seq<Finding>
    requires n <= |w.applied|
  {
    if n == 0 then []
    else
      var a := w.applied[n - 1];
      Orphans(w, c, n - 1)
      + if a.caseId == c && a.id >= |Source(w, a.service).outbox| then [OrphanedApplied(a.service, a.id)] else []
  }

  function SpentOne(w: World, h: H.Hold, s: Service): seq<Finding> {
    if S.Landed(Source(w, s).rows, h.key) then [SpentExpiredHold(s, h.key, h.amount)] else []
  }

  function SpentExpired(w: World, holds: seq<H.Hold>, c: string): seq<Finding> {
    if |holds| == 0 then []
    else
      var h := holds[|holds| - 1];
      SpentExpired(w, holds[..|holds| - 1], c)
      + if h.caseId == c && h.state.EXPIRED? then SpentOne(w, h, Billing) + SpentOne(w, h, Ledger) else []
  }

  ghost predicate IsDuplicate(w: World, c: string, f: Finding) {
    f.DuplicateKey? && f.count > 1 && f.count == KeyCount(Source(w, f.service).rows, c, f.key)
  }

  // ------------------------------------------------------------------------------- the checks

  method CheckLag(w: World, c: string) returns (findings: seq<Finding>)
    ensures findings == Lag(w, c, Billing) + Lag(w, c, Ledger)
  {
    findings := [];
    for i := 0 to |SOURCES|
      invariant findings == if i == 0 then [] else if i == 1 then Lag(w, c, Billing)
                         else Lag(w, c, Billing) + Lag(w, c, Ledger)
    {
      var pending := PendingCount(Source(w, SOURCES[i]).outbox, c);
      if pending > 0 {
        findings := findings + [ProjectionLag(SOURCES[i], pending)];
      }
    }
  }

  method CheckDrift(w: World, c: string) returns (findings: seq<Finding>)
    ensures findings == Drift(w, c)
  {
    if c !in w.projection {
      return [];
    }
    var appliedSum := Sum(w.applied, AppliedWeight(c, false));
    var appliedCount := Sum(w.applied, AppliedWeight(c, true));
    findings := [];
    if w.projection[c].total != appliedSum || w.projection[c].eventsApplied != appliedCount {
      findings := [ProjectionDrift(w.projection[c].total, w.projection[c].eventsApplied, appliedSum, appliedCount)];
    }
  }

  /** GROUP BY gives the groups in no particular order, so only what is found is promised. */
  method CheckDuplicateKeys(w: World, c: string) returns (findings: seq<Finding>)
    ensures forall f :: f in findings <==> IsDuplicate(w, c, f)
  {
    findings := [];
    for i := 0 to |SOURCES|
      invariant forall f :: f in findings <==> IsDuplicate(w, c, f) && f.service in SOURCES[..i]
    {
      var rows := Source(w, SOURCES[i]).rows;
      var groups := set r | r in rows && r.caseId == c :: r.key;
      var todo := groups;
      while todo != {}
        invariant todo <= groups
        invariant forall f :: f in findings <==>
                    IsDuplicate(w, c, f)
                    && (f.service in SOURCES[..i] || (f.service == SOURCES[i] && f.key in groups - todo))
        decreases todo
      {
        var key :| key in todo;
        var count := KeyCount(rows, c, key);
        if count > 1 {
          findings := findings + [DuplicateKey(SOURCES[i], key, count)];
        }
        todo := todo - {key};
      }
      forall f | IsDuplicate(w, c, f) && f.service == SOURCES[i] ensures f.key in groups {
        CountedIsThere(rows, c, f.key);
      }
      assert SOURCES[..i + 1] == SOURCES[..i] + [SOURCES[i]];
    }
    assert SOURCES[..|SOURCES|] == SOURCES && SOURCES[0] == Billing && SOURCES[1] == Ledger;
  }

  lemma CountedIsThere(rows: seq<S.Effect>, c: string, key: string)
    requires KeyCount(rows, c, key) > 0
    ensures exists r :: r in rows && r.caseId == c && r.key == key
  {
  }

  method CheckOrphans(w: World, c: string) returns (findings: seq<Finding>)
    ensures findings == Orphans(w, c, |w.applied|)
  {
    findings := [];
    for i := 0 to |w.applied|
      invariant findings == Orphans(w, c, i)
    {
      var a := w.applied[i];
      if a.caseId == c && a.id >= |Source(w, a.service).outbox| {
        findings := findings + [OrphanedApplied(a.service, a.id)];
      }
    }
  }

  method CheckSpentExpiredHolds(w: World, holds: seq<H.Hold>, c: string) returns (findings: seq<Finding>)
    ensures findings == SpentExpired(w, holds, c)
  {
    findings := [];
    for i := 0 to |holds|
      invariant findings == SpentExpired(w, holds[..i], c)
    {
      var h := holds[i];
      assert holds[..i + 1][..i] == holds[..i];
      if h.caseId == c && h.state.EXPIRED? {
        ghost var before := findings;
        for j := 0 to |SOURCES|
          invariant findings == before + if j == 0 then [] else if j == 1 then SpentOne(w, h, Billing)
                                         else SpentOne(w, h, Billing) + SpentOne(w, h, Ledger)
        {
          if S.Landed(Source(w, SOURCES[j]).rows, h.key) {
            findings := findings + [SpentExpiredHold(SOURCES[j], h.key, h.amount)];
          }
        }
      }
    }
    assert holds[..|holds|] == holds;
  }

  /** The report: every finding of the five checks and nothing else. */
  method Reconcile(w: World, holds: seq<H.Hold>, c: string) returns (findings: seq<Finding>)
    ensures forall f :: f in findings <==> Reported(w, holds, c, f)
  {
    var lag := CheckLag(w, c);
    var drift := CheckDrift(w, c);
    var duplicates := CheckDuplicateKeys(w, c);
    var orphans := CheckOrphans(w, c);
    var spent := CheckSpentExpiredHolds(w, holds, c);
    findings := lag + drift + duplicates + orphans + spent;
  }

  ghost predicate Reported(w: World, holds: seq<H.Hold>, c: string, f: Finding) {
    || f in Lag(w, c, Billing) + Lag(w, c, Ledger)
    || f in Drift(w, c)
    || IsDuplicate(w, c, f)
    || f in Orphans(w, c, |w.applied|)
    || f in SpentExpired(w, holds, c)
  }

  // ------------------------------------------------------------------- what the report can say

  lemma {:induction false} AbsentKeyCountsNone(rows: seq<S.Effect>, c: string, key: string)
    requires forall r: nat :: r < |rows| ==> rows[r].key != key
    ensures KeyCount(rows, c, key) == 0
  {
    if |rows| > 0 {
      AbsentKeyCountsNone(rows[..|rows| - 1], c, key);
    }
  }

  lemma {:induction false} UniqueKeysCountOnce(rows: seq<S.Effect>, c: string, key: string)
    requires S.KeysUnique(rows)
    ensures KeyCount(rows, c, key) <= 1
  {
    if |rows| > 0 {
      var front, last := rows[..|rows| - 1], rows[|rows| - 1];
      if last.key == key {
        AbsentKeyCountsNone(front, c, key);
      } else {
        UniqueKeysCountOnce(front, c, key);
      }
    }
  }

  /** `a` was applied for the case and its source has no event of that id. */
  ghost predicate Orphaned(w: World, c: string, a: Applied, f: Finding) {
    f == OrphanedApplied(a.service, a.id) && a.caseId == c && a.id >= |Source(w, a.service).outbox|
  }

  /** A finding reports an orphan, and every orphan is reported. */
  lemma {:induction false} ReportedIffOrphaned(w: World, c: string, f: Finding, n: nat)
    requires n <= |w.applied|
    ensures f in Orphans(w, c, n) <==> exists i: nat :: i < n && Orphaned(w, c, w.applied[i], f)
  {
    if n > 0 {
      ReportedIffOrphaned(w, c, f, n - 1);
      var a := w.applied[n - 1];
      assert f in Orphans(w, c, n) <==> f in Orphans(w, c, n - 1) || Orphaned(w, c, a, f);
    }
  }

  lemma {:induction false} NoOrphans(w: World, c: string, n: nat)
    requires AppliedTrue(w) && n <= |w.applied|
    ensures Orphans(w, c, n) == []
  {
    if n > 0 {
      NoOrphans(w, c, n - 1);
      assert w.applied[n - 1].id < |Source(w, w.applied[n - 1].service).outbox|;
    }
  }

  lemma NoDrift(w: World, c: string)
    requires Reachable(w)
    ensures Drift(w, c) == []
  {
    ExactlyOnce(w, c);
  }

  lemma NoDuplicates(w: World, c: string, f: Finding)
    requires StoresTrue(w)
    ensures !IsDuplicate(w, c, f)
  {
    if f.DuplicateKey? {
      UniqueKeysCountOnce(Source(w, f.service).rows, c, f.key);
    }
  }

  /** The events of a case that one source has not marked. */
  function Unmarked(outbox: seq<S.OutboxRow>, c: string): set<nat> {
    set id: nat | id < |outbox| && outbox[id].caseId == c && !outbox[id].applied
  }

  lemma {:induction false} PendingIsUnmarked(outbox: seq<S.OutboxRow>, c: string)
    ensures PendingCount(outbox, c) == |Unmarked(outbox, c)|
  {
    if |outbox| > 0 {
      var n := |outbox| - 1;
      PendingIsUnmarked(outbox[..n], c);
      assert Unmarked(outbox, c) == Unmarked(outbox[..n], c)
                                    + if outbox[n].caseId == c && !outbox[n].applied then {n} else {};
    }
  }

  /** `f` names a source that has not marked all the events of the case, and how many. */
  ghost predicate Lagging(w: World, c: string, f: Finding) {
    f.ProjectionLag? && f.pending == |Unmarked(Source(w, f.service).outbox, c)| > 0
  }

  /** Lag is reported for a source exactly when it has events of the case not marked, with their number. */
  lemma ReportedIffLagging(w: World, c: string, f: Finding)
    ensures f in Lag(w, c, Billing) + Lag(w, c, Ledger) <==> Lagging(w, c, f)
  {
    PendingIsUnmarked(w.billing.outbox, c);
    PendingIsUnmarked(w.ledger.outbox, c);
  }

  /** The rows of a case under one key. */
  function Bearing(rows: seq<S.Effect>, c: string, key: string): set<nat> {
    set r: nat | r < |rows| && rows[r].caseId == c && rows[r].key == key
  }

  lemma {:induction false} KeyCountIsBearing(rows: seq<S.Effect>, c: string, key: string)
    ensures KeyCount(rows, c, key) == |Bearing(rows, c, key)|
  {
    if |rows| > 0 {
      var n := |rows| - 1;
      KeyCountIsBearing(rows[..n], c, key);
      assert Bearing(rows, c, key) == Bearing(rows[..n], c, key)
                                      + if rows[n].caseId == c && rows[n].key == key then {n} else {};
    }
  }

  /** `f` names a key that more than one row of the case bears in one service, and how many do. */
  ghost predicate Repeated(w: World, c: string, f: Finding) {
    f.DuplicateKey? && f.count == |Bearing(Source(w, f.service).rows, c, f.key)| > 1
  }

  /** `f` gives the projection of the case and what was applied to it, which differ. */
  ghost predicate Drifting(w: World, c: string, f: Finding) {
    && f.ProjectionDrift? && c in w.projection && Row(f.total, f.events) == w.projection[c]
    && f.appliedSum == Sum(w.applied, AppliedWeight(c, false))
    && f.appliedCount == Sum(w.applied, AppliedWeight(c, true))
    && (f.total != f.appliedSum || f.events != f.appliedCount)
  }

  lemma ReportedIffDrifting(w: World, c: string, f: Finding)
    ensures f in Drift(w, c) <==> Drifting(w, c, f)
  {
  }

  /** Lag is reported for a source exactly when some event of the case is not marked there. */
  lemma {:induction false} PendingIffUnmarked(outbox: seq<S.OutboxRow>, c: string)
    ensures PendingCount(outbox, c) > 0 <==>
              exists id: nat :: id < |outbox| && outbox[id].caseId == c && !outbox[id].applied
  {
    if |outbox| > 0 {
      var n := |outbox| - 1;
      PendingIffUnmarked(outbox[..n], c);
      forall id: nat | id < n ensures outbox[..n][id] == outbox[id] {}
    }
  }

  /** The null result, in every reachable state: only lag and spent-expired holds are ever
      reported. Lag is reported for a source exactly when it has an event not marked applied. */
  lemma OnlyLagAndExpiredHolds(w: World, holds: seq<H.Hold>, c: string, f: Finding)
    requires Reachable(w) && Reported(w, holds, c, f)
    ensures f in SpentExpired(w, holds, c)
              || (f.ProjectionLag? && f.pending == PendingCount(Source(w, f.service).outbox, c) > 0)
  {
    ReachableInv(w);
    NoDrift(w, c);
    NoOrphans(w, c, |w.applied|);
    if IsDuplicate(w, c, f) {
      NoDuplicates(w, c, f);
    }
  }

  lemma {:induction false} NothingExpiredNothingSpent(w: World, holds: seq<H.Hold>, c: string)
    requires forall k: nat :: k < |holds| && holds[k].caseId == c ==> !holds[k].state.EXPIRED?
    ensures SpentExpired(w, holds, c) == []
  {
    if |holds| > 0 {
      NothingExpiredNothingSpent(w, holds[..|holds| - 1], c);
    }
  }

  /** Silence is not safety: once a case is drained and holds no expired reservation the report is
      empty, whatever its committed total is and whatever its ceiling was. */
  lemma DrainedIsClean(w: World, holds: seq<H.Hold>, c: string, f: Finding)
    requires Reachable(w)
    requires PendingCount(w.billing.outbox, c) == 0 && PendingCount(w.ledger.outbox, c) == 0
    requires forall k: nat :: k < |holds| && holds[k].caseId == c ==> !holds[k].state.EXPIRED?
    ensures !Reported(w, holds, c, f)
  {
    NothingExpiredNothingSpent(w, holds, c);
    if Reported(w, holds, c, f) {
      OnlyLagAndExpiredHolds(w, holds, c, f);
    }
  }
}
