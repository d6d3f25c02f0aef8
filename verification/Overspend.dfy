/** How much money can be committed for a case, and where every cent above its ceiling comes from. */
module Overspend {
  import opened Base
  import opened Agents
  import opened AgentFacts
  import opened Ceiling
  import H = Control
  import C = ControlRuns
  import S = Stores
  import P = Projection

  /** The amounts of the holds of case `c` among the first `n` that are in `sel`. */
  function Pick(holds: seq<H.Hold>, sel: set<nat>, c: string, n: nat): int
    requires n <= |holds|
  {
    if n == 0 then 0
    else Pick(holds, sel, c, n - 1) + if n - 1 in sel && holds[n - 1].caseId == c then holds[n - 1].amount else 0
  }

  function AllRows(y: Sys): seq<S.Effect> { y.billing.rows + y.ledger.rows }

  /** refunds + credits in COMMITTED or SETTLED: the total the ceiling is about. */
  function CommittedMoney(y: Sys, c: string): int { S.CommittedTotal(y.billing, c) + S.CommittedTotal(y.ledger, c) }

  /** The holds whose effect is committed. */
  function Spent(y: Sys): set<nat> {
    set k: nat | k < |y.control.holds| && S.Landed(AllRows(y), y.control.holds[k].key)
  }

  function SpentIn(y: Sys, st: H.HoldState): set<nat> {
    set k | k in Spent(y) && k < |y.control.holds| && y.control.holds[k].state == st
  }

  /** Spent holds that were committed after they had been released or had expired. */
  function SpentRevived(y: Sys): set<nat> {
    set k | k in Spent(y) && k < |y.control.holds| && k in y.control.revived && H.IsLive(y.control.holds[k])
  }

  function Amounts(y: Sys, sel: set<nat>, c: string): int { Pick(y.control.holds, sel, c, |y.control.holds|) }

  lemma {:induction false} PickRemove(holds: seq<H.Hold>, sel: set<nat>, k: nat, c: string, n: nat)
    requires k < |holds| && n <= |holds| && k in sel
    ensures Pick(holds, sel, c, n)
         == Pick(holds, sel - {k}, c, n) + if k < n && holds[k].caseId == c then holds[k].amount else 0
  {
    if n > 0 {
      PickRemove(holds, sel, k, c, n - 1);
    }
  }

  lemma {:induction false} PickNonNegative(holds: seq<H.Hold>, sel: set<nat>, c: string, n: nat)
    requires n <= |holds| && forall i: nat :: i < |holds| ==> holds[i].amount > 0
    ensures 0 <= Pick(holds, sel, c, n)
    ensures (forall i: nat :: i < n && holds[i].caseId == c ==> i !in sel) ==> Pick(holds, sel, c, n) == 0
  {
    if n > 0 {
      PickNonNegative(holds, sel, c, n - 1);
    }
  }

  ghost predicate Backs(h: H.Hold, row: S.Effect) {
    h.key == row.key && h.caseId == row.caseId && h.amount == row.amount
  }

  ghost predicate Backed(holds: seq<H.Hold>, sel: set<nat>, row: S.Effect) {
    exists k: nat :: k in sel && k < |holds| && Backs(holds[k], row)
  }

  /** Rows with distinct keys, each backed by a hold of its key and amount, sum to no more than
      those holds. */
  lemma {:induction false} RowsWithinHolds(rows: seq<S.Effect>, holds: seq<H.Hold>, sel: set<nat>, c: string)
    requires S.KeysUnique(rows) && forall i: nat :: i < |holds| ==> holds[i].amount > 0
    requires forall r: nat :: r < |rows| && rows[r].caseId == c && S.IsCommitted(rows[r].state) ==>
               Backed(holds, sel, rows[r])
    ensures Sum(rows, S.Committed(c)) <= Pick(holds, sel, c, |holds|)
  {
    if |rows| == 0 {
      PickNonNegative(holds, sel, c, |holds|);
    } else {
      var n := |rows| - 1;
      var front, last := rows[..n], rows[n];
      if last.caseId == c && S.IsCommitted(last.state) {
        assert Backed(holds, sel, last);
        var k: nat :| k in sel && k < |holds| && Backs(holds[k], last);
        forall r: nat | r < n && front[r].caseId == c && S.IsCommitted(front[r].state)
          ensures Backed(holds, sel - {k}, front[r])
        {
          assert Backed(holds, sel, rows[r]);
          var j: nat :| j in sel && j < |holds| && Backs(holds[j], rows[r]);
          assert rows[r].key != rows[n].key;
          assert j in sel - {k} && Backs(holds[j], front[r]);
        }
        RowsWithinHolds(front, holds, sel - {k}, c);
        PickRemove(holds, sel, k, c, |holds|);
      } else {
        forall r: nat | r < n && front[r].caseId == c && S.IsCommitted(front[r].state)
          ensures Backed(holds, sel, front[r])
        {
          assert Backed(holds, sel, rows[r]);
        }
        RowsWithinHolds(front, holds, sel, c);
      }
    }
  }

  lemma RowOwner(y: Sys, s: P.Service, r: nat) returns (i: nat)
    requires RowsOwned(y, s) && r < |Source(y, s).rows|
    ensures var row := Source(y, s).rows[r]; i < |y.actors| && Creates(y.actors[i], s, row.key, row.caseId, row.amount)
  {
    var row := Source(y, s).rows[r];
    assert RowOwned(y, s, row.key, row.caseId, row.amount);
    i :| i < |y.actors| && Creates(y.actors[i], s, row.key, row.caseId, row.amount);
  }

  /** One key, one effect, across both services. */
  lemma KeysUniqueAcross(y: Sys)
    requires RowsOwned(y, P.Billing) && RowsOwned(y, P.Ledger) && StoresTrue(y)
    requires KeysAgree(y)
    ensures S.KeysUnique(AllRows(y))
  {
    var rows := AllRows(y);
    var n := |y.billing.rows|;
    forall a: nat, b: nat | a < b < |rows| ensures rows[a].key != rows[b].key {
      if a < n <= b {
        var i := RowOwner(y, P.Billing, a);
        var j := RowOwner(y, P.Ledger, b - n);
        assert y.actors[i].cfg.key == y.actors[j].cfg.key ==> SameOperation(y.actors[i].cfg, y.actors[j].cfg);
      }
    }
  }

  /** An agent that created has a hold bearing its key. */
  lemma CreatorHolds(y: Sys, i: nat) returns (k: nat)
    requires ActorsCareful(y) && i < |y.actors| && Create in y.actors[i].sent
    ensures k < |y.control.holds| && y.control.holds[k].key == y.actors[i].cfg.key
  {
    var a := y.actors[i];
    assert Careful(a.cfg, a.agent, a.sent, Own(y, a.cfg));
    k :| k in Own(y, a.cfg);
  }

  /** Every effect has a hold of its key, case and amount: some run of its operation reserved before
      one created. */
  lemma RowBacked(y: Sys, r: nat)
    requires Traced(y) && r < |AllRows(y)| && S.IsCommitted(AllRows(y)[r].state)
    ensures Backed(y.control.holds, Spent(y), AllRows(y)[r])
  {
    var n := |y.billing.rows|;
    var row := AllRows(y)[r];
    var i := RowOwner(y, if r < n then P.Billing else P.Ledger, if r < n then r else r - n);
    var k := CreatorHolds(y, i);
    var j := HoldOwner(y, k);
    assert SameOperation(y.actors[i].cfg, y.actors[j].cfg);
    assert S.Landed(AllRows(y), row.key);
    assert k in Spent(y) && Backs(y.control.holds[k], row);
  }

  lemma {:induction false} SpentByEnding(y: Sys, c: string, n: nat)
    requires n <= |y.control.holds| && forall i: nat :: i < |y.control.holds| ==> y.control.holds[i].amount > 0
    ensures var h := y.control.holds;
            Pick(h, Spent(y), c, n)
              <= C.TotalWithout(h, y.control.revived, c, n) + Pick(h, SpentIn(y, H.EXPIRED), c, n)
                 + Pick(h, SpentIn(y, H.RELEASED), c, n) + Pick(h, SpentRevived(y), c, n)
  {
    if n > 0 {
      SpentByEnding(y, c, n - 1);
    }
  }

  /** Every request for the case names a ceiling of at most `ceiling`. */
  ghost predicate CeilingOf(cfgs: seq<Config>, c: string, ceiling: int) {
    forall i: nat :: i < |cfgs| && cfgs[i].caseId == c ==> cfgs[i].authorized <= ceiling
  }

  function Largest(cfgs: seq<Config>): nat {
    if |cfgs| == 0 then 0
    else
      var rest := Largest(cfgs[..|cfgs| - 1]);
      if cfgs[|cfgs| - 1].authorized > rest then cfgs[|cfgs| - 1].authorized else rest
  }

  lemma {:induction false} LargestBounds(cfgs: seq<Config>, c: string)
    ensures CeilingOf(cfgs, c, Largest(cfgs))
  {
    if |cfgs| > 0 {
      LargestBounds(cfgs[..|cfgs| - 1], c);
      forall i: nat | i < |cfgs| && cfgs[i].caseId == c ensures cfgs[i].authorized <= Largest(cfgs) {
        if i < |cfgs| - 1 { assert cfgs[..|cfgs| - 1][i].authorized <= Largest(cfgs[..|cfgs| - 1]); }
      }
    }
  }

  lemma {:induction false} AuthorityInv(cfgs: seq<Config>, clock: int, es: seq<Event>, c: string, ceiling: nat)
    requires Proper(cfgs) && CeilingOf(cfgs, c, ceiling)
    ensures C.Inv(Exec(Init(cfgs, clock), es).control, c, ceiling)
  {
    if |es| > 0 {
      var front, e := es[..|es| - 1], es[|es| - 1];
      var m := Exec(Init(cfgs, clock), front);
      AuthorityInv(cfgs, clock, front, c, ceiling);
      RunTraced(cfgs, clock, front);
      if e.Authority? && Asked(m, e) {
        if e.e.ReserveBegin? {
          var i: nat :| i < |m.actors| && Reserves(m.actors[i], e.e.req);
          assert m.actors[i].cfg == cfgs[i];
        }
        C.ApplyKeeps(m.control, e.e, c, ceiling);
      }
    }
  }

  /** The ceiling theorem, with no condition on timing, staleness, crashes, expiry, reruns or lost
      acknowledgements: when a key means one operation, committed money exceeds the ceiling by at most
      what was spent under holds that expired, were released, or were committed only after that. */
  lemma CommittedMoneyBounded(cfgs: seq<Config>, clock: int, es: seq<Event>, c: string, ceiling: nat)
    requires Proper(cfgs) && CeilingOf(cfgs, c, ceiling)
    ensures var y := Exec(Init(cfgs, clock), es);
            CommittedMoney(y, c)
              <= ceiling + Amounts(y, SpentIn(y, H.EXPIRED), c) + Amounts(y, SpentIn(y, H.RELEASED), c)
                 + Amounts(y, SpentRevived(y), c)
    ensures var y := Exec(Init(cfgs, clock), es);
            SpentIn(y, H.EXPIRED) !! SpentIn(y, H.RELEASED) !! SpentRevived(y)
  {
    var y := Exec(Init(cfgs, clock), es);
    RunTraced(cfgs, clock, es);
    AuthorityInv(cfgs, clock, es, c, ceiling);
    KeysUniqueAcross(y);
    forall r: nat | r < |AllRows(y)| && AllRows(y)[r].caseId == c && S.IsCommitted(AllRows(y)[r].state)
      ensures Backed(y.control.holds, Spent(y), AllRows(y)[r])
    {
      RowBacked(y, r);
    }
    RowsWithinHolds(AllRows(y), y.control.holds, Spent(y), c);
    SumConcat(y.billing.rows, y.ledger.rows, S.Committed(c));
    SpentByEnding(y, c, |y.control.holds|);
  }

  // -------------------------------------------------- without deadlines, and with decisive replies

  ghost predicate NoTtl(cfgs: seq<Config>) { forall i: nat :: i < |cfgs| ==> cfgs[i].ttl.None? }

  ghost predicate DecisiveRun(es: seq<Event>) { forall i :: 0 <= i < |es| && es[i].Act? ==> DecisiveInput(es[i].x) }

  ghost predicate NothingExpires(y: Sys) {
    && (forall k: nat :: k < |y.control.holds| ==>
          y.control.holds[k].expiresAt.None? && !y.control.holds[k].state.EXPIRED?)
    && (forall t :: t in y.control.open && y.control.open[t].Reserving? ==> y.control.open[t].due == {})
  }

  ghost predicate EndingsSent(y: Sys) {
    && (forall k: nat :: k < |y.control.holds| && y.control.holds[k].state.RELEASED? ==> SentBy(y, Release(k)))
    && (forall t :: t in y.control.open && y.control.open[t].Releasing? ==> SentBy(y, Release(y.control.open[t].id)))
    && (forall t :: t in y.control.open && y.control.open[t].Committing? ==> SentBy(y, Commit(y.control.open[t].id)))
  }

  ghost predicate ActorsSettled(y: Sys) {
    forall i: nat :: i < |y.actors| ==> Settled(y.actors[i].agent, y.actors[i].sent)
  }

  lemma ExpiryStep(y: Sys, e: C.Event)
    requires NothingExpires(y) && Traced(y) && Asked(y, Authority(e))
    requires forall i: nat :: i < |y.actors| ==> y.actors[i].cfg.ttl.None?
    ensures NothingExpires(Apply(y, Authority(e)))
  {
    var z := Apply(y, Authority(e));
    AuthorityHolds(y, e);
    C.HoldsStep(y.control, e);
    C.TxnStep(y.control, e);
    C.EndingStep(y.control, e);
    forall k: nat | k < |z.control.holds|
      ensures z.control.holds[k].expiresAt.None? && !z.control.holds[k].state.EXPIRED?
    {
      assert HoldOwned(z, z.control.holds[k]);
      if k < |y.control.holds| { assert y.control.holds[k].expiresAt.None?; }
    }
    assert e.ReserveBegin? ==> H.Due(y.control.holds, e.now) == {};
  }

  lemma EndingsSentStep(y: Sys, e: Event)
    requires EndingsSent(y)
    ensures EndingsSent(Apply(y, e))
  {
    var z := Apply(y, e);
    ApplyGrows(y, e);
    OwnedStays(y, z);
    if e.Authority? && Asked(y, e) {
      C.TxnStep(y.control, e.e);
      C.EndingStep(y.control, e.e);
      C.HoldsStep(y.control, e.e);
      forall k: nat | k < |z.control.holds| && z.control.holds[k].state.RELEASED? ensures SentBy(z, Release(k)) {
        if k < |y.control.holds| && !y.control.holds[k].state.RELEASED? {
          assert y.control.open[e.e.t] == C.Releasing(k);
        }
      }
    }
  }

  lemma SettledStep(y: Sys, e: Event)
    requires ActorsSettled(y) && ActorsCareful(y) && (e.Act? ==> DecisiveInput(e.x))
    ensures ActorsSettled(Apply(y, e))
  {
    if e.Act? && CanAct(y, e.i, e.x) {
      var a := y.actors[e.i];
      assert Careful(a.cfg, a.agent, a.sent, Own(y, a.cfg));
      FeedSettles(a.cfg, a.agent, e.x, a.sent);
    }
  }

  /** The actor that named a hold in a call is the one whose key it bears. */
  lemma SenderOwns(y: Sys, c: Call) returns (i: nat)
    requires Traced(y) && SentBy(y, c) && (c.Release? || c.Commit?)
    ensures i < |y.actors| && c in y.actors[i].sent && c.id in Own(y, y.actors[i].cfg)
  {
    i :| i < |y.actors| && c in y.actors[i].sent;
    assert Careful(y.actors[i].cfg, y.actors[i].agent, y.actors[i].sent, Own(y, y.actors[i].cfg));
  }

  ghost predicate ModelsAloneIn(y: Sys) {
    forall i: nat, j: nat :: i < |y.actors| && j < |y.actors| && i != j && y.actors[i].cfg.model ==>
      y.actors[i].cfg.key != y.actors[j].cfg.key
  }

  lemma DecisiveFront(es: seq<Event>)
    requires DecisiveRun(es) && |es| > 0
    ensures DecisiveRun(es[..|es| - 1])
  {
  }

  lemma {:induction false} SettledRun(cfgs: seq<Config>, clock: int, es: seq<Event>)
    requires Proper(cfgs) && DecisiveRun(es)
    ensures ActorsSettled(Exec(Init(cfgs, clock), es))
  {
    if |es| == 0 {
      forall i: nat | i < |cfgs| ensures Settled(Agents.Start(cfgs[i]), Sending(Agents.Start(cfgs[i]))) {
        StartSettled(cfgs[i]);
      }
    } else {
      DecisiveFront(es);
      SettledRun(cfgs, clock, es[..|es| - 1]);
      RunTraced(cfgs, clock, es[..|es| - 1]);
      SettledStep(Exec(Init(cfgs, clock), es[..|es| - 1]), es[|es| - 1]);
    }
  }

  lemma {:induction false} EndingsSentRun(cfgs: seq<Config>, clock: int, es: seq<Event>)
    ensures EndingsSent(Exec(Init(cfgs, clock), es))
  {
    if |es| > 0 {
      EndingsSentRun(cfgs, clock, es[..|es| - 1]);
      EndingsSentStep(Exec(Init(cfgs, clock), es[..|es| - 1]), es[|es| - 1]);
    }
  }

  /** What was committed after it had been freed is a hold that some agent freed. */
  ghost predicate RevivedWereFreed(y: Sys) {
    forall k: nat :: k in y.control.revived ==> k < |y.control.holds| && SentBy(y, Release(k))
  }

  lemma RevivedStep(y: Sys, e: Event)
    requires NothingExpires(y) && EndingsSent(y) && RevivedWereFreed(y)
    ensures RevivedWereFreed(Apply(y, e))
  {
    ApplyGrows(y, e);
    OwnedStays(y, Apply(y, e));
    if e.Authority? {
      C.EndingStep(y.control, e.e);
      C.HoldsStep(y.control, e.e);
    }
  }

  lemma NothingExpiresStep(y: Sys, e: Event)
    requires NothingExpires(y) && Traced(y) && forall i: nat :: i < |y.actors| ==> y.actors[i].cfg.ttl.None?
    ensures NothingExpires(Apply(y, e))
  {
    if e.Authority? && Asked(y, e) {
      ExpiryStep(y, e.e);
    }
  }

  /** Without deadlines nothing expires, so only holds that were released can be revived. */
  lemma {:induction false} NothingExpiresRun(cfgs: seq<Config>, clock: int, es: seq<Event>)
    requires Proper(cfgs) && NoTtl(cfgs)
    ensures var y := Exec(Init(cfgs, clock), es); NothingExpires(y) && RevivedWereFreed(y)
  {
    if |es| > 0 {
      var front, e := es[..|es| - 1], es[|es| - 1];
      var m := Exec(Init(cfgs, clock), front);
      NothingExpiresRun(cfgs, clock, front);
      EndingsSentRun(cfgs, clock, front);
      RunTraced(cfgs, clock, front);
      NothingExpiresStep(m, e);
      RevivedStep(m, e);
    }
  }

  /** A diligent agent whose create finally raised left no row. A lost acknowledgement that no
      retry resolved is exactly what this excludes. */
  ghost predicate FailuresLeftNothing(y: Sys) {
    forall i: nat :: i < |y.actors| && !y.actors[i].cfg.model && Releases(y.actors[i].sent) ==>
      !S.Landed(AllRows(y), y.actors[i].cfg.key)
  }

  ghost predicate KindsMatch(y: Sys) {
    forall i: nat :: i < |y.actors| ==> (y.actors[i].agent.Model? <==> y.actors[i].cfg.model)
  }

  lemma {:induction false} RunKindsMatch(cfgs: seq<Config>, clock: int, es: seq<Event>)
    ensures KindsMatch(Exec(Init(cfgs, clock), es))
  {
    if |es| > 0 {
      RunKindsMatch(cfgs, clock, es[..|es| - 1]);
    }
  }

  lemma LandedWasCreated(y: Sys, i: nat)
    requires ModelsAloneIn(y) && Traced(y) && i < |y.actors| && y.actors[i].cfg.model
    ensures S.Landed(AllRows(y), y.actors[i].cfg.key) ==> Create in y.actors[i].sent
  {
    if S.Landed(AllRows(y), y.actors[i].cfg.key) {
      var r: nat :| r < |AllRows(y)| && AllRows(y)[r].key == y.actors[i].cfg.key && S.IsCommitted(AllRows(y)[r].state);
      var n := |y.billing.rows|;
      var j := RowOwner(y, if r < n then P.Billing else P.Ledger, if r < n then r else r - n);
    }
  }

  /** What is known of a run whose models have their keys to themselves and decide in each reply,
      and in which no operation with an effect was given up by a diligent agent. */
  ghost predicate FreedTruly(y: Sys) {
    && ModelsAloneIn(y) && Traced(y) && ActorsSettled(y) && KindsMatch(y) && FailuresLeftNothing(y)
    && EndingsSent(y)
  }

  lemma FreedTrulyRun(cfgs: seq<Config>, clock: int, es: seq<Event>)
    requires Proper(cfgs) && ModelsAlone(cfgs) && DecisiveRun(es)
    requires FailuresLeftNothing(Exec(Init(cfgs, clock), es))
    ensures FreedTruly(Exec(Init(cfgs, clock), es))
  {
    SettledRun(cfgs, clock, es);
    EndingsSentRun(cfgs, clock, es);
    RunTraced(cfgs, clock, es);
    RunKindsMatch(cfgs, clock, es);
  }

  /** Freed holds are unspent: a model that released never created, and a diligent agent that
      released left nothing, nor did any other run of its operation. */
  lemma FreedUnspent(y: Sys, k: nat)
    requires FreedTruly(y) && k < |y.control.holds| && SentBy(y, Release(k))
    ensures k !in Spent(y)
  {
    var i := SenderOwns(y, Release(k));
    assert Releases(y.actors[i].sent);
    assert Settled(y.actors[i].agent, y.actors[i].sent);
    if y.actors[i].cfg.model { LandedWasCreated(y, i); }
  }

  lemma NoneReleasedIsSpent(y: Sys, c: string)
    requires FreedTruly(y) && forall k: nat :: k < |y.control.holds| ==> y.control.holds[k].amount > 0
    ensures Amounts(y, SpentIn(y, H.RELEASED), c) == 0
  {
    forall k: nat | k < |y.control.holds| ensures k !in SpentIn(y, H.RELEASED) {
      if y.control.holds[k].state.RELEASED? { FreedUnspent(y, k); }
    }
    PickNonNegative(y.control.holds, SpentIn(y, H.RELEASED), c, |y.control.holds|);
  }

  /** With deadlines and late commits: where freed holds are unspent, every cent above the ceiling was
      spent under a hold that is EXPIRED or was committed after it had lapsed. */
  lemma OverspendIsExpiredOrRevived(cfgs: seq<Config>, clock: int, es: seq<Event>, c: string, ceiling: nat)
    requires Proper(cfgs) && ModelsAlone(cfgs) && CeilingOf(cfgs, c, ceiling) && DecisiveRun(es)
    requires FailuresLeftNothing(Exec(Init(cfgs, clock), es))
    ensures var y := Exec(Init(cfgs, clock), es);
            CommittedMoney(y, c) <= ceiling + Amounts(y, SpentIn(y, H.EXPIRED), c) + Amounts(y, SpentRevived(y), c)
  {
    CommittedMoneyBounded(cfgs, clock, es, c, ceiling);
    AuthorityInv(cfgs, clock, es, c, ceiling);
    FreedTrulyRun(cfgs, clock, es);
    NoneReleasedIsSpent(Exec(Init(cfgs, clock), es), c);
  }

  /** With deadlines, if no hold was committed after it had lapsed and failed creates left nothing,
      every cent above the ceiling was spent under a hold that is now EXPIRED. */
  lemma OverspendIsExpiredHolds(cfgs: seq<Config>, clock: int, es: seq<Event>, c: string, ceiling: nat)
    requires Proper(cfgs) && ModelsAlone(cfgs) && CeilingOf(cfgs, c, ceiling) && DecisiveRun(es)
    requires var y := Exec(Init(cfgs, clock), es); FailuresLeftNothing(y) && y.control.revived == {}
    ensures var y := Exec(Init(cfgs, clock), es);
            CommittedMoney(y, c) <= ceiling + Amounts(y, SpentIn(y, H.EXPIRED), c)
  {
    var y := Exec(Init(cfgs, clock), es);
    OverspendIsExpiredOrRevived(cfgs, clock, es, c, ceiling);
    AuthorityInv(cfgs, clock, es, c, ceiling);
    PickNonNegative(y.control.holds, SpentRevived(y), c, |y.control.holds|);
  }

  /** The effect has a hold that counts, and that was never freed and then committed all the same. */
  ghost predicate LiveBacked(y: Sys, row: S.Effect) {
    exists k: nat :: k < |y.control.holds| && Backs(y.control.holds[k], row) && H.IsLive(y.control.holds[k])
                  && k !in y.control.revived
  }

  /** Without deadlines every effect stands under a hold that is HELD or COMMITTED: no budget that was
      spent is ever offered again. */
  lemma EffectsAreLiveBacked(cfgs: seq<Config>, clock: int, es: seq<Event>, r: nat)
    requires Proper(cfgs) && ModelsAlone(cfgs) && NoTtl(cfgs) && DecisiveRun(es)
    requires var y := Exec(Init(cfgs, clock), es);
             FailuresLeftNothing(y) && r < |AllRows(y)| && S.IsCommitted(AllRows(y)[r].state)
    ensures var y := Exec(Init(cfgs, clock), es); LiveBacked(y, AllRows(y)[r])
  {
    var y := Exec(Init(cfgs, clock), es);
    FreedTrulyRun(cfgs, clock, es);
    NothingExpiresRun(cfgs, clock, es);
    RowBacked(y, r);
    var k: nat :| k in Spent(y) && k < |y.control.holds| && Backs(y.control.holds[k], AllRows(y)[r]);
    if SentBy(y, Release(k)) { FreedUnspent(y, k); }
  }

  lemma NoneRevivedIsSpent(y: Sys, c: string)
    requires FreedTruly(y) && RevivedWereFreed(y)
    requires forall k: nat :: k < |y.control.holds| ==> y.control.holds[k].amount > 0
    ensures Amounts(y, SpentRevived(y), c) == 0
  {
    forall k: nat | k in y.control.revived ensures k !in Spent(y) {
      FreedUnspent(y, k);
    }
    PickNonNegative(y.control.holds, SpentRevived(y), c, |y.control.holds|);
  }

  /** The repository's central claim. When every agent reserves first, a key means one operation and a
      model's key is its own, holds carry no deadline, no reply both issues and declines, and a create
      that finally failed left no row, committed refunds and credits never exceed the ceiling: for any
      number of agents of either kind, any interleaving, any staleness, any crash, a diligent agent run
      again after it, and for the model-driven agents any lost acknowledgement. */
  lemma CeilingHolds(cfgs: seq<Config>, clock: int, es: seq<Event>, c: string, ceiling: nat)
    requires Proper(cfgs) && ModelsAlone(cfgs) && CeilingOf(cfgs, c, ceiling) && NoTtl(cfgs) && DecisiveRun(es)
    requires FailuresLeftNothing(Exec(Init(cfgs, clock), es))
    ensures CommittedMoney(Exec(Init(cfgs, clock), es), c) <= ceiling
  {
    var y := Exec(Init(cfgs, clock), es);
    OverspendIsExpiredOrRevived(cfgs, clock, es, c, ceiling);
    FreedTrulyRun(cfgs, clock, es);
    NothingExpiresRun(cfgs, clock, es);
    AuthorityInv(cfgs, clock, es, c, ceiling);
    NoneRevivedIsSpent(y, c);
    PickNonNegative(y.control.holds, SpentIn(y, H.EXPIRED), c, |y.control.holds|);
  }

  /** Cognition independence: models alone need nothing about acknowledgements. Whatever they say, one
      decision a reply, the ceiling holds and every effect stands under a hold that counts. */
  lemma CeilingHoldsForModels(cfgs: seq<Config>, clock: int, es: seq<Event>, c: string, ceiling: nat)
    requires Proper(cfgs) && ModelsAlone(cfgs) && CeilingOf(cfgs, c, ceiling) && NoTtl(cfgs) && DecisiveRun(es)
    requires forall i: nat :: i < |cfgs| ==> cfgs[i].model
    ensures var y := Exec(Init(cfgs, clock), es);
            && CommittedMoney(y, c) <= ceiling
            && forall r: nat :: r < |AllRows(y)| && S.IsCommitted(AllRows(y)[r].state) ==> LiveBacked(y, AllRows(y)[r])
  {
    var y := Exec(Init(cfgs, clock), es);
    RunTraced(cfgs, clock, es);
    CeilingHolds(cfgs, clock, es, c, ceiling);
    forall r: nat | r < |AllRows(y)| && S.IsCommitted(AllRows(y)[r].state) ensures LiveBacked(y, AllRows(y)[r]) {
      EffectsAreLiveBacked(cfgs, clock, es, r);
    }
  }
}
