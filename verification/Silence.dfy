/** The null result: a breached ceiling that ordinary monitoring reports nothing about. */
module Silence {
  import opened Base
  import opened Projection
  import S = Stores
  import H = Control
  import K = CrmProjector
  import Q = ProjectorRuns
  import R = Reconciler
  import X = Exposure

  lemma {:induction false} FoldingKeepsRows(w: World, s: Service, ids: seq<nat>)
    requires K.Within(ids, |Source(w, s).outbox|)
    ensures K.FoldAll(w, s, ids).billing.rows == w.billing.rows && K.FoldAll(w, s, ids).ledger.rows == w.ledger.rows
  {
    if |ids| > 0 {
      FoldingKeepsRows(w, s, ids[..|ids| - 1]);
    }
  }

  lemma {:induction false} FoldNamesKeepsRows(w: World, c: Option<string>, names: seq<string>)
    ensures K.FoldNames(w, c, names).billing.rows == w.billing.rows
    ensures K.FoldNames(w, c, names).ledger.rows == w.ledger.rows
  {
    if |names| > 0 {
      FoldNamesKeepsRows(w, c, names[..|names| - 1]);
      var v := K.FoldNames(w, c, names[..|names| - 1]);
      var s := K.SourceNamed(names[|names| - 1]);
      FoldingKeepsRows(v, s, S.Unapplied(Source(v, s).outbox, c));
    }
  }

  lemma {:induction false} MarkedIsNotPending(outbox: seq<S.OutboxRow>, c: string)
    requires K.MarkedInScope(Some(c), outbox)
    ensures R.PendingCount(outbox, c) == 0
  {
    if |outbox| > 0 {
      var n := |outbox| - 1;
      forall id: nat | id < n && K.InScope(Some(c), outbox[..n][id]) ensures outbox[..n][id].applied {
        assert outbox[id] == outbox[..n][id];
      }
      assert K.InScope(Some(c), outbox[n]) ==> outbox[n].applied;
      MarkedIsNotPending(outbox[..n], c);
    }
  }

  /** Once a projector has drained a case that has no EXPIRED hold, the report is empty, and
      draining changed nobody's money: whatever the total was, breach or not, it still is. */
  lemma DrainingSilences(w: World, holds: seq<H.Hold>, c: string)
    requires Reachable(w) && w.projectors == map[]
    requires forall k: nat :: k < |holds| && holds[k].caseId == c ==> !holds[k].state.EXPIRED?
    ensures var v := K.FoldNames(w, Some(c), ["billing", "ledger"]);
            && Reachable(v) && AuthoritativeTotal(v, c) == AuthoritativeTotal(w, c)
            && forall f :: !R.Reported(v, holds, c, f)
  {
    var names := ["billing", "ledger"];
    var v := K.FoldNames(w, Some(c), names);
    Q.FoldNamesReachable(w, Some(c), names);
    FoldNamesKeepsRows(w, Some(c), names);
    K.FoldNamesMarks(w, Some(c), names);
    K.SourceNamedBack(Billing);
    K.SourceNamedBack(Ledger);
    assert K.MarkedInScope(Some(c), Source(v, K.SourceNamed(names[0])).outbox);
    assert K.MarkedInScope(Some(c), Source(v, K.SourceNamed(names[1])).outbox);
    MarkedIsNotPending(v.billing.outbox, c);
    MarkedIsNotPending(v.ledger.outbox, c);
    forall f ensures !R.Reported(v, holds, c, f) {
      R.DrainedIsClean(v, holds, c, f);
    }
  }

  function CreateRun(s: Service, c: string, key: string, amount: int): seq<Event> {
    [Client(s, S.CreateBegin(0, c, key, amount)), Client(s, S.Commit(0))]
  }

  lemma CreateRuns(w: World, s: Service, c: string, key: string, amount: int)
    requires Source(w, s) == S.Empty && amount > 0
    ensures Exec(w, CreateRun(s, c, key, amount)) == WithSource(w, s, S.Inserted(S.Empty, c, key, amount, 1))
  {
    var a, b := Client(s, S.CreateBegin(0, c, key, amount)), Client(s, S.Commit(0));
    Q.ExecOne(w, [], a);
    Q.ExecOne(w, [a], b);
    assert [] + [a] == [a] && [a] + [b] == CreateRun(s, c, key, amount);
    X.FirstCreate(c, key, amount);
  }

  /** A refund and a credit that each respect the ceiling and together exceed it reach a state in
      which the reconciler has nothing to say. */
  lemma SilentBreach(c: string, refund: int, credit: int, ceiling: int) returns (v: World)
    requires 0 < refund <= ceiling && 0 < credit <= ceiling < refund + credit
    ensures Reachable(v) && AuthoritativeTotal(v, c) == refund + credit > ceiling
    ensures forall f :: !R.Reported(v, [], c, f)
  {
    var w1 := Exec(Start, CreateRun(Billing, c, "refund", refund));
    var w2 := Exec(w1, CreateRun(Ledger, c, "credit", credit));
    CreateRuns(Start, Billing, c, "refund", refund);
    CreateRuns(w1, Ledger, c, "credit", credit);
    assert Start == Exec(Start, []);
    Q.ReachableMore(Start, CreateRun(Billing, c, "refund", refund));
    Q.ReachableMore(w1, CreateRun(Ledger, c, "credit", credit));
    X.OneRowTotal(c, "refund", refund);
    X.OneRowTotal(c, "credit", credit);
    DrainingSilences(w2, [], c);
    v := K.FoldNames(w2, Some(c), ["billing", "ledger"]);
  }
}
