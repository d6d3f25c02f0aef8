/** Every interleaving of the reservation authority's transactions. `reserve` holds its case's
    advisory lock, and row locks on the holds it expires, from its reads to its commit; the
    unlocked SELECT and UPDATE of `release` and `commit` interleave with everything. */
module ControlRuns {
  import opened Base
  import opened Control

  datatype Txn =
    | Reserving(req: Request, due: set<nat>, total: int)
    | Releasing(id: nat)
    | Committing(id: nat)

  /** `revived` records the holds whose commit hit a row that was already RELEASED or EXPIRED. */
  datatype State = State(clock: int, holds: seq<Hold>, open: map<nat, Txn>, revived: set<nat>)

  datatype Event =
    | Tick(elapsed: nat)
    | ReserveBegin(t: nat, req: Request, now: int)
    | ReserveEnd(t: nat)
    | ReleaseSelect(t: nat, id: nat)
    | ReleaseUpdate(t: nat)
    | CommitSelect(t: nat, id: nat)
    | CommitUpdate(t: nat)
    | Rollback(t: nat)

  function Init(clock: int): State { State(clock, [], map[], {}) }

  predicate CaseLocked(s: State, c: string) {
    exists t :: t in s.open && s.open[t].Reserving? && s.open[t].req.caseId == c
  }

  predicate RowLocked(s: State, id: nat) {
    exists t :: t in s.open && s.open[t].Reserving? && id in s.open[t].due
  }

  predicate CanBegin(s: State, t: nat, req: Request, now: int) {
    && t !in s.open && now <= s.clock && !CaseLocked(s, req.caseId)
    && forall id: nat :: id < |s.holds| && id in Due(s.holds, now) ==> !RowLocked(s, id)
  }

  function Close(s: State, t: nat): State { s.(open := s.open - {t}) }

  function SetState(holds: seq<Hold>, id: nat, st: HoldState): seq<Hold>
    requires id < |holds|
  {
    holds[id := holds[id].(state := st)]
  }

  function Apply(s: State, e: Event): State {
    match e
    case Tick(d) => s.(clock := s.clock + d)
    case ReserveBegin(t, req, now) =>
      if !CanBegin(s, t, req, now) then s
      else
        var due := Due(s.holds, now);
        var reclaimed := Expire(s.holds, due);
        (match Decide(reclaimed, req)
         case Replayed(_) => s.(holds := reclaimed)
         case Refused => s.(holds := reclaimed)
         case CheckViolation => s
         case Grant(total) => s.(open := s.open[t := Reserving(req, due, total)]))
    case ReserveEnd(t) =>
      if t !in s.open || !s.open[t].Reserving? then s
      else
        var Reserving(req, due, _) := s.open[t];
        if Find(s.holds, req.key).Some? then Close(s, t)   // UNIQUE (idempotency_key): rolled back
        else Close(s.(holds := Expire(s.holds, due) + [NewHold(req, s.clock)]), t)
    case ReleaseSelect(t, id) =>
      if t in s.open || id >= |s.holds| || s.holds[id].state in {RELEASED, COMMITTED} then s
      else s.(open := s.open[t := Releasing(id)])
    case ReleaseUpdate(t) =>
      if t !in s.open || !s.open[t].Releasing? || s.open[t].id >= |s.holds| || RowLocked(s, s.open[t].id) then s
      else Close(s.(holds := SetState(s.holds, s.open[t].id, RELEASED)), t)
    case CommitSelect(t, id) =>
      if t in s.open || id >= |s.holds| || s.holds[id].state.RELEASED? then s
      else s.(open := s.open[t := Committing(id)])
    case CommitUpdate(t) =>
      if t !in s.open || !s.open[t].Committing? || s.open[t].id >= |s.holds| || RowLocked(s, s.open[t].id) then s
      else
        var id := s.open[t].id;
        var dead := s.holds[id].state in {RELEASED, EXPIRED};
        Close(s.(holds := SetState(s.holds, id, COMMITTED),
                 revived := if dead then s.revived + {id} else s.revived), t)
    case Rollback(t) => Close(s, t)
  }

  function Exec(s: State, es: seq<Event>): State {
    if |es| == 0 then s else Apply(Exec(s, es[..|es| - 1]), es[|es| - 1])
  }

  /** The live total of the first `n` holds of a case, leaving out those in `excl`. */
  function TotalWithout(holds: seq<Hold>, excl: set<nat>, c: string, n: nat): int
    requires n <= |holds|
  {
    if n == 0 then 0
    else TotalWithout(holds, excl, c, n - 1) + if n - 1 in excl then 0 else Live(c)(holds[n - 1])
  }

  /** The live total of the holds in `only`. */
  function TotalOf(holds: seq<Hold>, only: set<nat>, c: string, n: nat): int
    requires n <= |holds|
  {
    if n == 0 then 0
    else TotalOf(holds, only, c, n - 1) + if n - 1 in only then Live(c)(holds[n - 1]) else 0
  }

  function Ordinary(s: State, c: string): int { TotalWithout(s.holds, s.revived, c, |s.holds|) }
  function RevivedTotal(s: State, c: string): int { TotalOf(s.holds, s.revived, c, |s.holds|) }

  lemma {:induction false} WithoutLe(h: seq<Hold>, g: seq<Hold>, e: set<nat>, f: set<nat>, c: string, n: nat)
    requires n <= |h| && n <= |g|
    requires forall i: nat :: i < n ==>
               (if i in e then 0 else Live(c)(h[i])) <= (if i in f then 0 else Live(c)(g[i]))
    ensures TotalWithout(h, e, c, n) <= TotalWithout(g, f, c, n)
  {
    if n > 0 {
      assert (if n - 1 in e then 0 else Live(c)(h[n - 1])) <= (if n - 1 in f then 0 else Live(c)(g[n - 1]));
      WithoutLe(h, g, e, f, c, n - 1);
    }
  }

  lemma {:induction false} SplitTotal(holds: seq<Hold>, excl: set<nat>, c: string, n: nat)
    requires n <= |holds|
    ensures Sum(holds[..n], Live(c)) == TotalWithout(holds, excl, c, n) + TotalOf(holds, excl, c, n)
  {
    if n > 0 {
      assert holds[..n][..n - 1] == holds[..n - 1];
      SplitTotal(holds, excl, c, n - 1);
    }
  }

  lemma {:induction false} TotalOfNonNegative(holds: seq<Hold>, only: set<nat>, c: string, n: nat)
    requires n <= |holds| && forall i: nat :: i < n ==> holds[i].amount > 0
    ensures 0 <= TotalOf(holds, only, c, n)
  {
    if n > 0 {
      TotalOfNonNegative(holds, only, c, n - 1);
    }
  }

  ghost predicate TableTrue(holds: seq<Hold>) {
    && (forall i: nat, j: nat :: i < j < |holds| ==> holds[i].key != holds[j].key)
    && (forall i: nat :: i < |holds| ==> holds[i].amount > 0)
  }

  /** A reservation in flight still fits: its rows stay HELD under its locks, and what it read
      bounds what the case will count once it commits. */
  ghost predicate PendingTrue(s: State, t: nat, c: string, ceiling: int)
    requires t in s.open && s.open[t].Reserving?
  {
    var Reserving(req, due, total) := s.open[t];
    && req.amount > 0
    && (forall id :: id in due ==> id < |s.holds| && s.holds[id].state.HELD?)
    && (req.caseId == c ==> TotalWithout(Expire(s.holds, due), s.revived, c, |s.holds|) + req.amount <= ceiling)
  }

  ghost predicate LocksExclude(s: State) {
    forall t, u :: t in s.open && u in s.open && t != u && s.open[t].Reserving? && s.open[u].Reserving? ==>
      s.open[t].req.caseId != s.open[u].req.caseId && s.open[t].due !! s.open[u].due
  }

  ghost predicate Inv(s: State, c: string, ceiling: int) {
    && TableTrue(s.holds)
    && LocksExclude(s)
    && (forall t :: t in s.open && s.open[t].Reserving? ==> PendingTrue(s, t, c, ceiling))
    && Ordinary(s, c) <= ceiling
  }

  /** Every request for case `c` names a ceiling of at most `ceiling`. */
  ghost predicate Bounded(e: Event, c: string, ceiling: int) {
    e.ReserveBegin? && e.req.caseId == c ==> e.req.authorized <= ceiling
  }

  /** Rewriting rows so that none counts more keeps every pending reservation within its bound. */
  lemma PendingKept(s: State, r: State, t: nat, c: string, ceiling: int)
    requires t in s.open && t in r.open && s.open[t] == r.open[t] && s.open[t].Reserving?
    requires PendingTrue(s, t, c, ceiling) && |r.holds| == |s.holds|
    requires forall id :: id in s.open[t].due ==> r.holds[id] == s.holds[id]
    requires forall i: nat :: i < |s.holds| && i !in s.open[t].due ==>
               (if i in r.revived then 0 else Live(c)(r.holds[i]))
                 <= (if i in s.revived then 0 else Live(c)(s.holds[i]))
    ensures PendingTrue(r, t, c, ceiling)
  {
    var due := s.open[t].due;
    WithoutLe(Expire(r.holds, due), Expire(s.holds, due), r.revived, s.revived, c, |s.holds|);
  }

  lemma ExpireLe(h: seq<Hold>, due: set<nat>, excl: set<nat>, c: string)
    requires forall i: nat :: i < |h| ==> h[i].amount > 0
    ensures TotalWithout(Expire(h, due), excl, c, |h|) <= TotalWithout(h, excl, c, |h|)
  {
    WithoutLe(Expire(h, due), h, excl, excl, c, |h|);
  }

  lemma NewLocksDisjoint(s: State, t: nat, req: Request, now: int)
    requires CanBegin(s, t, req, now)
    requires forall u :: u in s.open && s.open[u].Reserving? ==> forall id :: id in s.open[u].due ==> id < |s.holds|
    ensures forall u :: u in s.open && s.open[u].Reserving? ==>
              s.open[u].req.caseId != req.caseId && s.open[u].due !! Due(s.holds, now)
  {
  }

  lemma GrantFits(s: State, t: nat, req: Request, now: int, c: string, ceiling: int)
    requires TableTrue(s.holds) && (req.caseId == c ==> req.authorized <= ceiling)
    requires Decide(Expire(s.holds, Due(s.holds, now)), req).Grant?
    ensures req.caseId == c ==>
              TotalWithout(Expire(s.holds, Due(s.holds, now)), s.revived, c, |s.holds|) + req.amount <= ceiling
  {
    var reclaimed := Expire(s.holds, Due(s.holds, now));
    assert reclaimed[..|reclaimed|] == reclaimed;
    SplitTotal(reclaimed, s.revived, c, |reclaimed|);
    TotalOfNonNegative(reclaimed, s.revived, c, |reclaimed|);
  }

  lemma GrantLocks(s: State, t: nat, txn: Txn)
    requires LocksExclude(s) && txn.Reserving?
    requires forall u :: u in s.open && s.open[u].Reserving? ==>
               s.open[u].req.caseId != txn.req.caseId && s.open[u].due !! txn.due
    ensures LocksExclude(s.(open := s.open[t := txn]))
  {
  }

  lemma GrantPending(s: State, t: nat, txn: Txn, c: string, ceiling: int)
    requires txn.Reserving? && t !in s.open
    requires forall u :: u in s.open && s.open[u].Reserving? ==> PendingTrue(s, u, c, ceiling)
    requires PendingTrue(s.(open := s.open[t := txn]), t, c, ceiling)
    ensures var r := s.(open := s.open[t := txn]);
            forall u :: u in r.open && r.open[u].Reserving? ==> PendingTrue(r, u, c, ceiling)
  {
  }

  lemma GrantKeeps(s: State, e: Event, c: string, ceiling: int)
    requires Inv(s, c, ceiling) && Bounded(e, c, ceiling)
    requires e.ReserveBegin? && CanBegin(s, e.t, e.req, e.now)
    requires Decide(Expire(s.holds, Due(s.holds, e.now)), e.req).Grant?
    ensures Inv(Apply(s, e), c, ceiling)
  {
    var due := Due(s.holds, e.now);
    var txn := Reserving(e.req, due, Decide(Expire(s.holds, due), e.req).total);
    assert forall u :: u in s.open && s.open[u].Reserving? ==> PendingTrue(s, u, c, ceiling);
    NewLocksDisjoint(s, e.t, e.req, e.now);
    GrantFits(s, e.t, e.req, e.now, c, ceiling);
    GrantLocks(s, e.t, txn);
    GrantPending(s, e.t, txn, c, ceiling);
  }

  lemma ReclaimKeeps(s: State, r: State, t: nat, req: Request, now: int, c: string, ceiling: int)
    requires Inv(s, c, ceiling) && CanBegin(s, t, req, now)
    requires r == s.(holds := Expire(s.holds, Due(s.holds, now)))
    ensures Inv(r, c, ceiling)
  {
    NewLocksDisjoint(s, t, req, now);
    ExpireLe(s.holds, Due(s.holds, now), s.revived, c);
    forall u | u in r.open && r.open[u].Reserving? ensures PendingTrue(r, u, c, ceiling) {
      PendingKept(s, r, u, c, ceiling);
    }
  }

  lemma BeginKeeps(s: State, e: Event, c: string, ceiling: int)
    requires Inv(s, c, ceiling) && Bounded(e, c, ceiling)
    requires e.ReserveBegin? && CanBegin(s, e.t, e.req, e.now)
    ensures Inv(Apply(s, e), c, ceiling)
  {
    match Decide(Expire(s.holds, Due(s.holds, e.now)), e.req)
    case Grant(total) => GrantKeeps(s, e, c, ceiling);
    case CheckViolation =>
    case _ => ReclaimKeeps(s, Apply(s, e), e.t, e.req, e.now, c, ceiling);
  }

  /** The case that commits gains its request on top of what it read; no other case gains. */
  lemma EndTotal(s: State, t: nat, c: string, excl: set<nat>)
    requires t in s.open && s.open[t].Reserving?
    ensures var Reserving(req, due, _) := s.open[t];
            var holds := Expire(s.holds, due) + [NewHold(req, s.clock)];
            TotalWithout(holds, excl, c, |s.holds| + 1)
              <= TotalWithout(Expire(s.holds, due), excl, c, |s.holds|)
                 + (if req.caseId == c then Max0(req.amount) else 0)
  {
    var Reserving(req, due, _) := s.open[t];
    var holds := Expire(s.holds, due) + [NewHold(req, s.clock)];
    WithoutLe(holds, Expire(s.holds, due), excl, excl, c, |s.holds|);
  }

  lemma OtherCaseUnmoved(h: seq<Hold>, g: seq<Hold>, due: set<nat>, x: Hold, others: set<nat>, excl: set<nat>,
                         c: string)
    requires due !! others && x.caseId != c && forall i: nat :: i < |h| ==> h[i].amount > 0
    requires g == Expire(h, due) + [x]
    ensures TotalWithout(Expire(g, others), excl, c, |g|) <= TotalWithout(Expire(h, others), excl, c, |h|)
  {
    WithoutLe(Expire(g, others), Expire(h, others), excl, excl, c, |h|);
  }

  lemma OtherLocksKept(h: seq<Hold>, g: seq<Hold>, due: set<nat>, x: Hold, others: set<nat>)
    requires due !! others && g == Expire(h, due) + [x]
    requires forall id :: id in others ==> id < |h| && h[id].state.HELD?
    ensures forall id :: id in others ==> id < |g| && g[id].state.HELD?
  {
  }

  lemma EndPending(s: State, r: State, t: nat, u: nat, c: string, ceiling: int)
    requires t in s.open && s.open[t].Reserving? && u in s.open && s.open[u].Reserving?
    requires PendingTrue(s, u, c, ceiling) && TableTrue(s.holds)
    requires s.open[t].req.caseId != s.open[u].req.caseId && s.open[t].due !! s.open[u].due
    requires r.holds == Expire(s.holds, s.open[t].due) + [NewHold(s.open[t].req, s.clock)]
    requires u in r.open && r.open[u] == s.open[u] && r.revived == s.revived
    ensures PendingTrue(r, u, c, ceiling)
  {
    var x := NewHold(s.open[t].req, s.clock);
    OtherLocksKept(s.holds, r.holds, s.open[t].due, x, s.open[u].due);
    if s.open[u].req.caseId == c {
      OtherCaseUnmoved(s.holds, r.holds, s.open[t].due, x, s.open[u].due, s.revived, c);
    }
  }

  lemma EndTable(s: State, t: nat)
    requires TableTrue(s.holds) && t in s.open && s.open[t].Reserving? && s.open[t].req.amount > 0
    requires Find(s.holds, s.open[t].req.key).None?
    ensures TableTrue(Apply(s, ReserveEnd(t)).holds)
  {
  }

  lemma CloseLocks(s: State, r: State, t: nat)
    requires LocksExclude(s) && r.open == s.open - {t}
    ensures LocksExclude(r)
  {
  }

  lemma EndAllPending(s: State, r: State, t: nat, c: string, ceiling: int)
    requires TableTrue(s.holds) && LocksExclude(s) && t in s.open && s.open[t].Reserving?
    requires forall u :: u in s.open && s.open[u].Reserving? ==> PendingTrue(s, u, c, ceiling)
    requires r.holds == Expire(s.holds, s.open[t].due) + [NewHold(s.open[t].req, s.clock)]
    requires r.open == s.open - {t} && r.revived == s.revived
    ensures forall u :: u in r.open && r.open[u].Reserving? ==> PendingTrue(r, u, c, ceiling)
  {
    forall u | u in r.open && r.open[u].Reserving? ensures PendingTrue(r, u, c, ceiling) {
      assert u in s.open && u != t;
      EndPending(s, r, t, u, c, ceiling);
    }
  }

  lemma EndOrdinary(s: State, r: State, t: nat, c: string, ceiling: int)
    requires forall i: nat :: i < |s.holds| ==> s.holds[i].amount > 0
    requires t in s.open && s.open[t].Reserving? && PendingTrue(s, t, c, ceiling)
    requires Ordinary(s, c) <= ceiling
    requires r.holds == Expire(s.holds, s.open[t].due) + [NewHold(s.open[t].req, s.clock)]
    requires r.revived == s.revived
    ensures Ordinary(r, c) <= ceiling
  {
    EndTotal(s, t, c, s.revived);
    ExpireLe(s.holds, s.open[t].due, s.revived, c);
  }

  lemma EndKeeps(s: State, t: nat, c: string, ceiling: int)
    requires Inv(s, c, ceiling) && t in s.open && s.open[t].Reserving?
    requires Find(s.holds, s.open[t].req.key).None?
    ensures Inv(Apply(s, ReserveEnd(t)), c, ceiling)
  {
    var r := Apply(s, ReserveEnd(t));
    assert PendingTrue(s, t, c, ceiling);
    EndTable(s, t);
    CloseLocks(s, r, t);
    EndAllPending(s, r, t, c, ceiling);
    EndOrdinary(s, r, t, c, ceiling);
  }

  lemma UpdateKeeps(s: State, t: nat, r: State, c: string, ceiling: int)
    requires Inv(s, c, ceiling) && t in s.open
    requires (s.open[t].Releasing? && r == Apply(s, ReleaseUpdate(t)))
          || (s.open[t].Committing? && r == Apply(s, CommitUpdate(t)))
    requires s.open[t].id < |s.holds| && !RowLocked(s, s.open[t].id)
    ensures Inv(r, c, ceiling)
  {
    var id := s.open[t].id;
    assert forall i: nat :: i < |s.holds| && i != id ==> r.holds[i] == s.holds[i];
    assert r.holds[id].key == s.holds[id].key && r.holds[id].amount == s.holds[id].amount;
    WithoutLe(r.holds, s.holds, r.revived, s.revived, c, |s.holds|);
    forall u | u in r.open && r.open[u].Reserving? ensures PendingTrue(r, u, c, ceiling) {
      assert id !in s.open[u].due;
      PendingKept(s, r, u, c, ceiling);
    }
  }

  lemma EndStepKeeps(s: State, e: Event, c: string, ceiling: int)
    requires Inv(s, c, ceiling) && e.ReserveEnd?
    ensures Inv(Apply(s, e), c, ceiling)
  {
    if e.t in s.open && s.open[e.t].Reserving? && Find(s.holds, s.open[e.t].req.key).None? {
      EndKeeps(s, e.t, c, ceiling);
    }
  }

  lemma UpdateStepKeeps(s: State, e: Event, c: string, ceiling: int)
    requires Inv(s, c, ceiling) && (e.ReleaseUpdate? || e.CommitUpdate?)
    ensures Inv(Apply(s, e), c, ceiling)
  {
    if e.t in s.open && (if e.ReleaseUpdate? then s.open[e.t].Releasing? else s.open[e.t].Committing?)
       && s.open[e.t].id < |s.holds| && !RowLocked(s, s.open[e.t].id)
    {
      UpdateKeeps(s, e.t, Apply(s, e), c, ceiling);
    }
  }

  lemma QuietStepKeeps(s: State, e: Event, c: string, ceiling: int)
    requires Inv(s, c, ceiling) && (e.Tick? || e.Rollback? || e.ReleaseSelect? || e.CommitSelect?)
    ensures Inv(Apply(s, e), c, ceiling)
  {
  }

  lemma ApplyKeeps(s: State, e: Event, c: string, ceiling: int)
    requires Inv(s, c, ceiling) && Bounded(e, c, ceiling)
    ensures Inv(Apply(s, e), c, ceiling)
  {
    match e
    case ReserveBegin(t, req, now) => if CanBegin(s, t, req, now) { BeginKeeps(s, e, c, ceiling); }
    case ReserveEnd(_) => EndStepKeeps(s, e, c, ceiling);
    case ReleaseUpdate(_) => UpdateStepKeeps(s, e, c, ceiling);
    case CommitUpdate(_) => UpdateStepKeeps(s, e, c, ceiling);
    case _ => QuietStepKeeps(s, e, c, ceiling);
  }

  /** The authority's promise over every run: what a case counts never exceeds its ceiling by more
      than the holds that were committed after they had been released or had expired. */
  lemma {:induction false} LiveTotalBounded(clock: int, es: seq<Event>, c: string, ceiling: nat)
    requires forall i :: 0 <= i < |es| ==> Bounded(es[i], c, ceiling)
    ensures var s := Exec(Init(clock), es);
            Inv(s, c, ceiling) && LiveTotal(s.holds, c) <= ceiling + RevivedTotal(s, c)
  {
    var s := Exec(Init(clock), es);
    if |es| > 0 {
      LiveTotalBounded(clock, es[..|es| - 1], c, ceiling);
      ApplyKeeps(Exec(Init(clock), es[..|es| - 1]), es[|es| - 1], c, ceiling);
    }
    SplitTotal(s.holds, s.revived, c, |s.holds|);
    assert s.holds[..|s.holds|] == s.holds;
  }

  /** A hold keeps its key, case, amount and deadline; a new one is what its transaction asked for. */
  ghost predicate HoldsGrow(s: State, r: State) {
    && |s.holds| <= |r.holds| <= |s.holds| + 1
    && forall i: nat :: i < |s.holds| ==> r.holds[i] == s.holds[i].(state := r.holds[i].state)
  }

  lemma HoldsStep(s: State, e: Event)
    ensures HoldsGrow(s, Apply(s, e))
    ensures var r := Apply(s, e);
            |r.holds| > |s.holds| ==>
              e.ReserveEnd? && e.t in s.open && s.open[e.t].Reserving?
              && r.holds[|s.holds|] == NewHold(s.open[e.t].req, s.clock)
  {
  }

  lemma TxnStep(s: State, e: Event)
    ensures var r := Apply(s, e);
            forall t :: t in r.open ==>
              (t in s.open && r.open[t] == s.open[t])
              || match e
                 case ReserveBegin(u, req, now) => t == u && r.open[t].Reserving? && r.open[t].req == req
                     && r.open[t].due == Due(s.holds, now)
                 case ReleaseSelect(u, id) => t == u && r.open[t] == Releasing(id)
                 case CommitSelect(u, id) => t == u && r.open[t] == Committing(id)
                 case _ => false
  {
  }

  /** Only an update releases, only an expiry expires, only a commit of a dead hold revives. */
  lemma EndingStep(s: State, e: Event)
    ensures var r := Apply(s, e);
            && (forall i: nat :: i < |s.holds| && r.holds[i].state.RELEASED? && !s.holds[i].state.RELEASED? ==>
                  e.ReleaseUpdate? && e.t in s.open && s.open[e.t] == Releasing(i))
            && (forall i: nat :: i < |s.holds| && r.holds[i].state.EXPIRED? && !s.holds[i].state.EXPIRED? ==>
                  (e.ReserveBegin? && i in Due(s.holds, e.now))
                  || (e.ReserveEnd? && e.t in s.open && s.open[e.t].Reserving? && i in s.open[e.t].due))
            && (forall i: nat :: i in r.revived && i !in s.revived ==>
                  e.CommitUpdate? && e.t in s.open && s.open[e.t] == Committing(i)
                  && i < |s.holds| && s.holds[i].state in {RELEASED, EXPIRED})
  {
  }

  // ------------------------------------------------------------- single owner, and two witnesses

  predicate Owning(x: Txn) { x.Releasing? || x.Committing? }

  /** No release or commit begins on a hold while another one is under way on it. */
  ghost predicate SoleOwner(s: State, e: Event) {
    e.ReleaseSelect? || e.CommitSelect? ==>
      forall t :: t in s.open && Owning(s.open[t]) ==> s.open[t].id != e.id
  }

  ghost predicate OwnedRun(s: State, es: seq<Event>) {
    |es| > 0 ==> OwnedRun(s, es[..|es| - 1]) && SoleOwner(Exec(s, es[..|es| - 1]), es[|es| - 1])
  }

  /** What the SELECT of a release or commit saw still rules out the wrong UPDATE. */
  ghost predicate SelectHolds(holds: seq<Hold>, x: Txn)
    requires Owning(x)
  {
    && x.id < |holds|
    && (x.Releasing? ==> holds[x.id].state !in {RELEASED, COMMITTED})
    && (x.Committing? ==> !holds[x.id].state.RELEASED?)
  }

  ghost predicate OwnersTrue(s: State) {
    && (forall t :: t in s.open && Owning(s.open[t]) ==> SelectHolds(s.holds, s.open[t]))
    && (forall t, u :: t in s.open && u in s.open && t != u && Owning(s.open[t]) && Owning(s.open[u])
          ==> s.open[t].id != s.open[u].id)
  }

  /** Rows no owner is updating only expire. */
  lemma OwnersUndisturbed(s: State, r: State)
    requires OwnersTrue(s) && |s.holds| <= |r.holds|
    requires forall t :: t in r.open && Owning(r.open[t]) ==>
               && t in s.open && r.open[t] == s.open[t]
               && (r.holds[s.open[t].id].state == s.holds[s.open[t].id].state
                   || r.holds[s.open[t].id].state.EXPIRED?)
    ensures OwnersTrue(r)
  {
  }

  lemma OwnersKept(s: State, e: Event)
    requires OwnersTrue(s) && SoleOwner(s, e)
    ensures OwnersTrue(Apply(s, e))
  {
    var r := Apply(s, e);
    if (e.ReleaseSelect? || e.CommitSelect?) && r != s {
      forall t | t in r.open && Owning(r.open[t]) ensures SelectHolds(r.holds, r.open[t]) {
        if t != e.t { assert SelectHolds(s.holds, s.open[t]); }
      }
    } else {
      OwnersUndisturbed(s, r);
    }
  }

  /** The largest ceiling any request of the run names. */
  function Demand(es: seq<Event>): nat {
    if |es| == 0 then 0
    else
      var rest := Demand(es[..|es| - 1]);
      match es[|es| - 1]
      case ReserveBegin(_, req, _) => if req.authorized > rest then req.authorized else rest
      case _ => rest
  }

  lemma {:induction false} DemandBounds(es: seq<Event>, c: string)
    ensures forall i :: 0 <= i < |es| ==> Bounded(es[i], c, Demand(es))
  {
    if |es| > 0 {
      DemandBounds(es[..|es| - 1], c);
      forall i | 0 <= i < |es| ensures Bounded(es[i], c, Demand(es)) {
        if i < |es| - 1 { assert Bounded(es[..|es| - 1][i], c, Demand(es[..|es| - 1])); }
      }
    }
  }

  ghost predicate LocksHeld(s: State) {
    forall t :: t in s.open && s.open[t].Reserving? ==>
      forall id :: id in s.open[t].due ==> id < |s.holds| && s.holds[id].state.HELD?
  }

  lemma RunLocksHeld(clock: int, es: seq<Event>)
    ensures LocksHeld(Exec(Init(clock), es))
  {
    var s := Exec(Init(clock), es);
    DemandBounds(es, "");
    LiveTotalBounded(clock, es, "", Demand(es));
    forall t | t in s.open && s.open[t].Reserving?
      ensures forall id :: id in s.open[t].due ==> id < |s.holds| && s.holds[id].state.HELD?
    {
      assert PendingTrue(s, t, "", Demand(es));
    }
  }

  ghost predicate EndingsKept(s: State, r: State) {
    && |s.holds| <= |r.holds|
    && forall id: nat :: id < |s.holds| && s.holds[id].state in {COMMITTED, RELEASED} ==>
         r.holds[id].state == s.holds[id].state
  }

  lemma EndingsStep(s: State, e: Event)
    requires OwnersTrue(s) && LocksHeld(s)
    ensures EndingsKept(s, Apply(s, e))
  {
  }

  /** R2 of the catalogue over interleavings: with one owner per hold, however its SELECT and
      UPDATE are separated, a COMMITTED or RELEASED hold stays what it is. */
  lemma {:induction false} OwnedHoldsKeepTheirEnding(clock: int, es: seq<Event>, e: Event)
    requires OwnedRun(Init(clock), es + [e])
    ensures EndingsKept(Exec(Init(clock), es), Exec(Init(clock), es + [e]))
    ensures OwnersTrue(Exec(Init(clock), es))
  {
    assert (es + [e])[..|es|] == es;
    if |es| > 0 {
      var front, last := es[..|es| - 1], es[|es| - 1];
      assert front + [last] == es;
      OwnedHoldsKeepTheirEnding(clock, front, last);
      OwnersKept(Exec(Init(clock), front), last);
    }
    RunLocksHeld(clock, es);
    EndingsStep(Exec(Init(clock), es), e);
  }

  /** An UPDATE whose SELECT has been overtaken: the row ended the other way meanwhile. */
  predicate Overtaken(s: State, e: Event) {
    match e
    case ReleaseUpdate(t) =>
      t in s.open && s.open[t].Releasing? && s.open[t].id < |s.holds| && s.holds[s.open[t].id].state.COMMITTED?
    case CommitUpdate(t) =>
      t in s.open && s.open[t].Committing? && s.open[t].id < |s.holds| && s.holds[s.open[t].id].state.RELEASED?
    case _ => false
  }

  /** Exactly when R2 fails: a step changes a COMMITTED or RELEASED hold if and only if it is an
      UPDATE that was overtaken. */
  lemma EndingsKeptIffNotOvertaken(clock: int, es: seq<Event>, e: Event)
    ensures var s := Exec(Init(clock), es); EndingsKept(s, Apply(s, e)) <==> !Overtaken(s, e)
  {
    RunLocksHeld(clock, es);
    var s := Exec(Init(clock), es);
    if Overtaken(s, e) {
      assert !RowLocked(s, s.open[e.t].id);
      assert Apply(s, e).holds[s.open[e.t].id].state != s.holds[s.open[e.t].id].state;
    }
  }

  lemma ExecOne(s: State, es: seq<Event>, e: Event)
    ensures Exec(s, es + [e]) == Apply(Exec(s, es), e)
  {
  }

  lemma RaceSteps(s: State, id: nat)
    requires s.open == map[] && id < |s.holds| && s.holds[id].state.HELD?
    ensures var r := Apply(Apply(Apply(s, ReleaseSelect(0, id)), CommitSelect(1, id)), CommitUpdate(1));
            && r == s.(open := map[0 := Releasing(id)], holds := SetState(s.holds, id, COMMITTED))
            && Apply(r, ReleaseUpdate(0)).holds == SetState(s.holds, id, RELEASED)
  {
  }

  /** Without a single owner R2 is false of the code: from any idle state with a HELD hold, a
      release that read it before the commit frees it after its money moved. */
  lemma RacingReleaseUndoesCommit(s: State, id: nat)
    requires s.open == map[] && id < |s.holds| && s.holds[id].state.HELD?
    ensures var race := [ReleaseSelect(0, id), CommitSelect(1, id), CommitUpdate(1)];
            && Exec(s, race).holds == SetState(s.holds, id, COMMITTED)
            && Exec(s, race + [ReleaseUpdate(0)]).holds == SetState(s.holds, id, RELEASED)
  {
    var a, b, c := ReleaseSelect(0, id), CommitSelect(1, id), CommitUpdate(1);
    RaceSteps(s, id);
    ExecOne(s, [], a);
    ExecOne(s, [a], b);
    ExecOne(s, [a, b], c);
    ExecOne(s, [a, b, c], ReleaseUpdate(0));
    assert [] + [a] == [a] && [a] + [b] == [a, b] && [a, b] + [c] == [a, b, c];
  }
}
