/** What the authority's transactions do when nothing interleaves, and exactly when a case comes to
    count more than was granted to it. */
module ControlFacts {
  import opened Base
  import opened Control
  import opened ControlRuns

  // ------------------------------------- alone, the split machine is the service object

  /** A reservation nothing interleaves with does what the service object does in one transaction. */
  lemma UninterruptedReserve(s: State, req: Request)
    requires s.open == map[]
    ensures var r := Apply(Apply(s, ReserveBegin(0, req, s.clock)), ReserveEnd(0));
            && r.open == map[] && r.revived == s.revived && r.clock == s.clock
            && r.holds == AfterReserve(s.holds, req, s.clock)
  {
  }

  lemma UninterruptedRelease(s: State, id: nat)
    requires s.open == map[]
    ensures Apply(Apply(s, ReleaseSelect(0, id)), ReleaseUpdate(0))
         == if id < |s.holds| && !s.holds[id].state.COMMITTED? then s.(holds := SetState(s.holds, id, RELEASED)) else s
  {
    if id < |s.holds| && s.holds[id].state.RELEASED? {
      assert SetState(s.holds, id, RELEASED) == s.holds;
    }
  }

  lemma UninterruptedCommit(s: State, id: nat)
    requires s.open == map[]
    ensures Apply(Apply(s, CommitSelect(0, id)), CommitUpdate(0))
         == if id < |s.holds| && !s.holds[id].state.RELEASED?
            then s.(holds := SetState(s.holds, id, COMMITTED),
                    revived := if s.holds[id].state.EXPIRED? then s.revived + {id} else s.revived)
            else s
  {
  }

  // ------------------------------------------------------------- what the listed total means

  /** Less the lapsed holds still in it, because the listing reclaims nothing and `reserve` does. */
  function Room(s: State, req: Request): int {
    req.authorized - (LiveTotal(s.holds, req.caseId) - Sum(s.holds, Lapsed(s.clock, req.caseId)))
  }

  lemma RoomDecides(s: State, req: Request)
    requires Find(s.holds, req.key).None? && req.amount > 0
    ensures var reclaimed := Expire(s.holds, Due(s.holds, s.clock));
            && LiveTotal(reclaimed, req.caseId) == req.authorized - Room(s, req)
            && (if req.amount <= Room(s, req) then Decide(reclaimed, req).Grant? else Decide(reclaimed, req).Refused?)
  {
    FindReclaimed(s.holds, Due(s.holds, s.clock), req.key);
    ReclaimedTotal(s.holds, s.clock, req.caseId);
  }

  lemma NewTotal(holds: seq<Hold>, req: Request, now: int)
    ensures LiveTotal(holds + [NewHold(req, now)], req.caseId) == LiveTotal(holds, req.caseId) + req.amount
  {
    SumAppend(holds, NewHold(req, now), Live(req.caseId));
  }

  /** What the listed total tells a caller: a new request is granted exactly when it fits beside the
      total less the lapsed holds still in it, and what the case counts then is that and the new
      hold. */
  lemma ListedTotalMeansRoom(s: State, req: Request)
    requires s.open == map[] && Find(s.holds, req.key).None? && req.amount > 0
    ensures var r := Apply(Apply(s, ReserveBegin(0, req, s.clock)), ReserveEnd(0));
            && (|r.holds| > |s.holds| <==> req.amount <= Room(s, req))
            && LiveTotal(r.holds, req.caseId)
               == req.authorized - Room(s, req) + if req.amount <= Room(s, req) then req.amount else 0
  {
    RoomDecides(s, req);
    UninterruptedReserve(s, req);
    NewTotal(Expire(s.holds, Due(s.holds, s.clock)), req, s.clock);
  }

  // ------------------------------------------------------------------------ cases and their locks

  /** Only HELD and COMMITTED rows of the case itself count against its ceiling. */
  lemma {:induction false} NothingLiveCountsNothing(holds: seq<Hold>, c: string)
    requires forall i: nat :: i < |holds| && holds[i].caseId == c ==> holds[i].state in {RELEASED, EXPIRED}
    ensures LiveTotal(holds, c) == 0
  {
    if |holds| > 0 {
      NothingLiveCountsNothing(holds[..|holds| - 1], c);
    }
  }

  /** A case with nothing HELD or COMMITTED has its whole ceiling, whatever other cases hold. */
  lemma UntouchedCaseHasItsCeiling(holds: seq<Hold>, req: Request, now: int)
    requires !KeyUsed(holds, req.key) && req.amount > 0
    requires forall i: nat :: i < |holds| && holds[i].caseId == req.caseId ==> holds[i].state in {RELEASED, EXPIRED}
    ensures ReserveAnswer(holds, req, now) == if req.amount <= req.authorized then Granted(|holds|, false) else Conflict
  {
    var reclaimed := Expire(holds, Due(holds, now));
    NothingLiveCountsNothing(reclaimed, req.caseId);
    FindReclaimed(holds, Due(holds, now), req.key);
  }

  lemma TakesItsLock(s: State, t: nat, req: Request)
    requires s.holds == [] && t !in s.open && 0 < req.amount <= req.authorized
    requires forall u :: u in s.open && s.open[u].Reserving? ==> s.open[u].req.caseId != req.caseId
    ensures Apply(s, ReserveBegin(t, req, s.clock)) == s.(open := s.open[t := Reserving(req, {}, 0)])
  {
    assert Expire([], Due([], s.clock)) == [];
    assert Due([], s.clock) == {};
  }

  /** A reservation that has the lock ends: with its hold, or with nothing if its key was taken meanwhile. */
  lemma EndsEitherWay(s: State, t: nat)
    requires t in s.open && s.open[t].Reserving? && s.open[t].due == {}
    ensures Apply(s, ReserveEnd(t))
         == s.(holds := s.holds + if KeyUsed(s.holds, s.open[t].req.key) then []
                                  else [NewHold(s.open[t].req, s.clock)],
               open := s.open - {t})
  {
    assert Expire(s.holds, {}) == s.holds;
  }

  /** Reservations of different cases do not wait for each other, and of two with one key the one that
      ends second inserts nothing; of one case the second waits until the first has ended; one that
      rolls back leaves nothing behind. */
  lemma CasesDoNotWait(clock: int, a: Request, b: Request)
    requires 0 < a.amount <= a.authorized && 0 < b.amount <= b.authorized
    ensures var first := Apply(Init(clock), ReserveBegin(0, a, clock));
            var both := Apply(first, ReserveBegin(1, b, clock));
            if a.caseId == b.caseId then
              both == first && first.open.Keys == {0} && Apply(first, Rollback(0)) == Init(clock)
            else
              Apply(Apply(both, ReserveEnd(1)), ReserveEnd(0))
                == Init(clock).(holds := [NewHold(b, clock)] + if a.key == b.key then [] else [NewHold(a, clock)])
  {
    TakesItsLock(Init(clock), 0, a);
    var first := Apply(Init(clock), ReserveBegin(0, a, clock));
    assert first.open == map[0 := Reserving(a, {}, 0)];
    if a.caseId == b.caseId {
      assert CaseLocked(first, b.caseId);
    } else {
      TakesItsLock(first, 1, b);
      var both := Apply(first, ReserveBegin(1, b, clock));
      EndsEitherWay(both, 1);
      var second := Apply(both, ReserveEnd(1));
      assert second.holds == [NewHold(b, clock)] && second.holds[0].key == b.key;
      assert second.open == map[0 := Reserving(a, {}, 0)];
      EndsEitherWay(second, 0);
    }
  }

  /** An update waits only for a reservation that is expiring its very row. */
  lemma UpdatesDoNotWait(s: State, t: nat, id: nat)
    requires t !in s.open && id < |s.holds| && s.holds[id].state.HELD?
    requires forall u :: u in s.open && s.open[u].Reserving? ==> id !in s.open[u].due
    ensures Apply(Apply(s, ReleaseSelect(t, id)), ReleaseUpdate(t)).holds == SetState(s.holds, id, RELEASED)
    ensures Apply(Apply(s, CommitSelect(t, id)), CommitUpdate(t)).holds == SetState(s.holds, id, COMMITTED)
  {
  }

  // ---------------------------------------------------------------------------------- deadlines

  /** A new hold is due from its deadline on and never before; without a ttl it is never due. */
  lemma DueFromItsDeadline(req: Request, now: int, later: int)
    ensures IsDue(NewHold(req, now), later) <==> req.ttl.Some? && now + req.ttl.value <= later
  {
  }

  lemma OneOfManyCounts(holds: seq<Hold>, id: nat, c: string)
    requires id < |holds| && holds[id].caseId == c && IsLive(holds[id])
    requires forall i: nat :: i < |holds| ==> holds[i].amount > 0
    ensures LiveTotal(holds, c) >= holds[id].amount
  {
    SumUpdate(holds, id, holds[id].(state := RELEASED), Live(c));
    var rest := holds[id := holds[id].(state := RELEASED)];
    SumLe(seq(|rest|, _ => 0), (z: int) => z, rest, Live(c));
    ZeroSum(|rest|);
  }

  lemma {:induction false} ZeroSum(n: nat)
    ensures Sum(seq(n, _ => 0), (z: int) => z) == 0
  {
    if n > 0 {
      assert seq(n, _ => 0)[..n - 1] == seq(n - 1, _ => 0);
      ZeroSum(n - 1);
    }
  }

  lemma GrantedTable(holds: seq<Hold>, a: Request, now: int)
    requires TableTrue(holds) && ReserveAnswer(holds, a, now) == Granted(|holds|, false)
    ensures AfterReserve(holds, a, now) == Expire(holds, Due(holds, now)) + [NewHold(a, now)] && a.amount > 0
    ensures forall i: nat :: i <= |holds| ==> AfterReserve(holds, a, now)[i].amount > 0
  {
  }

  /** A reservation at `later` and a HELD row of its case. */
  lemma StandsOrLapses(holds: seq<Hold>, id: nat, b: Request, later: int)
    requires id < |holds| && holds[id].caseId == b.caseId && holds[id].state.HELD?
    requires forall i: nat :: i < |holds| ==> holds[i].amount > 0
    requires Find(holds, b.key).None? && b.amount > 0
    ensures var after := AfterReserve(holds, b, later);
            && |after| >= |holds| && after[id].state == (if IsDue(holds[id], later) then EXPIRED else HELD)
            && (!IsDue(holds[id], later) && holds[id].amount + b.amount > b.authorized ==>
                  ReserveAnswer(holds, b, later) == Conflict)
  {
    var reclaimed := Expire(holds, Due(holds, later));
    assert id in Due(holds, later) <==> IsDue(holds[id], later);
    FindReclaimed(holds, Due(holds, later), b.key);
    if !IsDue(holds[id], later) {
      OneOfManyCounts(reclaimed, id, b.caseId);
    }
  }

  /** `a` is granted at `now` and nobody touches its hold; then `b` asks at `later`. Before the
      deadline the hold stands and its amount is not to be had; from the deadline on it is EXPIRED. */
  lemma HoldStandsUntilItsDeadline(holds: seq<Hold>, a: Request, b: Request, now: int, later: int)
    requires TableTrue(holds) && ReserveAnswer(holds, a, now) == Granted(|holds|, false)
    requires a.caseId == b.caseId && a.key != b.key && !KeyUsed(holds, b.key) && b.amount > 0
    ensures var granted := AfterReserve(holds, a, now);
            var after := AfterReserve(granted, b, later);
            var lapsed := a.ttl.Some? && now + a.ttl.value <= later;
            && |after| > |holds| && after[|holds|].state == (if lapsed then EXPIRED else HELD)
            && (!lapsed && a.amount + b.amount > b.authorized ==> ReserveAnswer(granted, b, later) == Conflict)
  {
    var granted := AfterReserve(holds, a, now);
    GrantedTable(holds, a, now);
    DueFromItsDeadline(a, now, later);
    assert granted[|holds|] == NewHold(a, now);
    assert Find(granted, b.key).None?;
    StandsOrLapses(granted, |holds|, b, later);
  }

  // ------------------------------------------------------------------------------ replayed keys

  /** The hold counts nothing for any case. */
  ghost predicate CountsNothing(h: Hold) { forall c :: Live(c)(h) == 0 }

  lemma DeadCountsNothing(h: Hold)
    requires h.amount > 0
    ensures CountsNothing(h) <==> h.state in {RELEASED, EXPIRED}
  {
    assert Live(h.caseId)(h) == if IsLive(h) then h.amount else 0;
  }

  lemma RunKeysUnique(clock: int, es: seq<Event>)
    ensures TableTrue(Exec(Init(clock), es).holds)
  {
    DemandBounds(es, "");
    LiveTotalBounded(clock, es, "", Demand(es));
  }

  ghost predicate KeyIsDead(holds: seq<Hold>, key: string, now: int) {
    exists k: nat ::
      k < |holds| && holds[k].key == key && (holds[k].state in {RELEASED, EXPIRED} || IsDue(holds[k], now))
  }

  ghost predicate GrantsNothing(holds: seq<Hold>, req: Request, now: int) {
    var answer, after := ReserveAnswer(holds, req, now), AfterReserve(holds, req, now);
    answer.Granted? && answer.id < |after| && CountsNothing(after[answer.id])
  }

  lemma ReplayedIsTheKey(holds: seq<Hold>, id: nat, key: string, now: int)
    requires TableTrue(holds) && id < |holds| && holds[id].key == key
    ensures KeyIsDead(holds, key, now) <==> Expire(holds, Due(holds, now))[id].state in {RELEASED, EXPIRED}
  {
    assert forall k: nat :: k < |holds| && holds[k].key == key ==> k == id;
    assert id in Due(holds, now) <==> IsDue(holds[id], now);
  }

  lemma DeadKeyGrantsNothing(holds: seq<Hold>, req: Request, now: int)
    requires TableTrue(holds)
    ensures GrantsNothing(holds, req, now) <==> KeyIsDead(holds, req.key, now)
  {
    var reclaimed := Expire(holds, Due(holds, now));
    FindReclaimed(holds, Due(holds, now), req.key);
    match Decide(reclaimed, req)
    case Replayed(id) =>
      DeadCountsNothing(reclaimed[id]);
      ReplayedIsTheKey(holds, id, req.key, now);
    case Grant(_) => DeadCountsNothing(NewHold(req, now));
    case _ =>
  }

  /** Exactly when `reserve` grants without budget: in every reachable idle state, its answer is
      granted and names a hold that then counts nothing if and only if the request's key has a row
      that is RELEASED, EXPIRED, or HELD past its deadline. */
  lemma GrantsNothingIffKeyIsDead(clock: int, es: seq<Event>, req: Request)
    requires Exec(Init(clock), es).open == map[]
    ensures var s := Exec(Init(clock), es);
            && Apply(Apply(s, ReserveBegin(0, req, s.clock)), ReserveEnd(0)).holds
               == AfterReserve(s.holds, req, s.clock)
            && (GrantsNothing(s.holds, req, s.clock) <==> KeyIsDead(s.holds, req.key, s.clock))
  {
    var s := Exec(Init(clock), es);
    RunKeysUnique(clock, es);
    UninterruptedReserve(s, req);
    DeadKeyGrantsNothing(s.holds, req, s.clock);
  }

  // ------------------------------------------------------------------------- late commits

  /** The UPDATE of a commit meets a row whose budget is gone. */
  predicate CommitsDead(s: State, e: Event) {
    e.CommitUpdate? && e.t in s.open && s.open[e.t].Committing? && s.open[e.t].id < |s.holds|
    && s.holds[s.open[e.t].id].state in {RELEASED, EXPIRED}
  }

  lemma CommitCounts(s: State, e: Event, c: string)
    requires e.CommitUpdate? && e.t in s.open && s.open[e.t].Committing? && s.open[e.t].id < |s.holds|
    requires !RowLocked(s, s.open[e.t].id)
    ensures var h := s.holds[s.open[e.t].id];
            LiveTotal(Apply(s, e).holds, c)
              == LiveTotal(s.holds, c) + if h.caseId == c && !IsLive(h) then h.amount else 0
  {
    var id := s.open[e.t].id;
    SumUpdate(s.holds, id, s.holds[id].(state := COMMITTED), Live(c));
  }

  lemma OthersCountNoMore(s: State, e: Event, c: string)
    requires forall i: nat :: i < |s.holds| ==> s.holds[i].amount > 0
    requires !e.ReserveEnd? && !e.CommitUpdate?
    ensures LiveTotal(Apply(s, e).holds, c) <= LiveTotal(s.holds, c)
  {
    SumLe(Apply(s, e).holds, Live(c), s.holds, Live(c));
  }

  lemma CommitStep(s: State, e: Event, c: string)
    requires forall i: nat :: i < |s.holds| ==> s.holds[i].amount > 0
    requires LocksHeld(s) && e.CommitUpdate?
    ensures LiveTotal(Apply(s, e).holds, c) > LiveTotal(s.holds, c) <==>
              CommitsDead(s, e) && s.holds[s.open[e.t].id].caseId == c
    ensures CommitsDead(s, e) && s.holds[s.open[e.t].id].caseId == c ==>
              LiveTotal(Apply(s, e).holds, c) == LiveTotal(s.holds, c) + s.holds[s.open[e.t].id].amount
  {
    if e.t in s.open && s.open[e.t].Committing? && s.open[e.t].id < |s.holds| && !RowLocked(s, s.open[e.t].id) {
      CommitCounts(s, e, c);
    }
  }

  lemma RunPositive(clock: int, es: seq<Event>)
    ensures forall i: nat :: i < |Exec(Init(clock), es).holds| ==> Exec(Init(clock), es).holds[i].amount > 0
  {
    DemandBounds(es, "");
    LiveTotalBounded(clock, es, "", Demand(es));
  }

  /** Exactly when a case comes to count more without a grant: in every reachable state, a step that
      is not a grant raises it if and only if it commits a RELEASED or EXPIRED hold of the case, and
      then by that hold's amount. */
  lemma CountRisesIffDeadHoldCommits(clock: int, es: seq<Event>, e: Event, c: string)
    requires !e.ReserveEnd?
    ensures var s := Exec(Init(clock), es);
            && (LiveTotal(Apply(s, e).holds, c) > LiveTotal(s.holds, c) <==>
                  CommitsDead(s, e) && s.holds[s.open[e.t].id].caseId == c)
            && (CommitsDead(s, e) && s.holds[s.open[e.t].id].caseId == c ==>
                  LiveTotal(Apply(s, e).holds, c) == LiveTotal(s.holds, c) + s.holds[s.open[e.t].id].amount)
  {
    var s := Exec(Init(clock), es);
    RunPositive(clock, es);
    RunLocksHeld(clock, es);
    if e.CommitUpdate? {
      CommitStep(s, e, c);
    } else {
      OthersCountNoMore(s, e, c);
    }
  }

  /** The holds whose commit met a row that had EXPIRED. */
  function ExpiredCommits(clock: int, es: seq<Event>): set<nat> {
    if |es| == 0 then {}
    else
      var s, e := Exec(Init(clock), es[..|es| - 1]), es[|es| - 1];
      ExpiredCommits(clock, es[..|es| - 1])
      + if CommitsDead(s, e) && s.holds[s.open[e.t].id].state.EXPIRED? then {s.open[e.t].id} else {}
  }

  lemma {:induction false} OwnersReviveOnlyExpired(clock: int, es: seq<Event>)
    requires OwnedRun(Init(clock), es)
    ensures Exec(Init(clock), es).revived == ExpiredCommits(clock, es)
  {
    if |es| > 0 {
      var front, e := es[..|es| - 1], es[|es| - 1];
      var s := Exec(Init(clock), front);
      assert front + [e] == es;
      OwnersReviveOnlyExpired(clock, front);
      OwnedHoldsKeepTheirEnding(clock, front, e);
      RunLocksHeld(clock, front);
      if CommitsDead(s, e) {
        assert SelectHolds(s.holds, s.open[e.t]);
        assert !RowLocked(s, s.open[e.t].id);
      }
    }
  }

  /** With one owner per hold, however SELECT and UPDATE interleave, a case counts at most its
      ceiling plus the holds that were committed after they had EXPIRED. */
  lemma OwnedTotalBounded(clock: int, es: seq<Event>, c: string, ceiling: nat)
    requires OwnedRun(Init(clock), es) && forall i :: 0 <= i < |es| ==> Bounded(es[i], c, ceiling)
    ensures var s := Exec(Init(clock), es);
            LiveTotal(s.holds, c) <= ceiling + TotalOf(s.holds, ExpiredCommits(clock, es), c, |s.holds|)
  {
    LiveTotalBounded(clock, es, c, ceiling);
    OwnersReviveOnlyExpired(clock, es);
  }

  // ------------------------------------------------- a late commit from the empty authority

  function HeldThenLapsed(clock: int, a: Request, wait: nat): seq<Event> {
    [ReserveBegin(0, a, clock), ReserveEnd(0), Tick(wait)]
  }

  /** a is reserved with a deadline, time passes, b is reserved in its place, a is committed. */
  function LateCommitRun(clock: int, a: Request, b: Request, wait: nat): seq<Event> {
    HeldThenReplaced(clock, a, b, wait) + [CommitSelect(0, 0), CommitUpdate(0)]
  }

  function HeldThenReplaced(clock: int, a: Request, b: Request, wait: nat): seq<Event> {
    HeldThenLapsed(clock, a, wait) + [ReserveBegin(0, b, clock + wait), ReserveEnd(0)]
  }

  lemma ExecTwo(s: State, es: seq<Event>, a: Event, b: Event, mid: State, end: State)
    requires Exec(s, es) == mid && Apply(Apply(mid, a), b) == end
    ensures Exec(s, es + [a, b]) == end
  {
    ExecOne(s, es, a);
    ExecOne(s, es + [a], b);
    assert es + [a] + [b] == es + [a, b];
  }

  lemma FirstHeld(clock: int, a: Request, wait: nat)
    requires 0 < a.amount <= a.authorized
    ensures Exec(Init(clock), HeldThenLapsed(clock, a, wait)) == State(clock + wait, [NewHold(a, clock)], map[], {})
  {
    var begin, end := ReserveBegin(0, a, clock), ReserveEnd(0);
    var held := Init(clock).(holds := [NewHold(a, clock)]);
    UninterruptedReserve(Init(clock), a);
    ExecTwo(Init(clock), [], begin, end, Init(clock), held);
    ExecOne(Init(clock), [begin, end], Tick(wait));
    assert [] + [begin, end] == [begin, end] && [begin, end] + [Tick(wait)] == HeldThenLapsed(clock, a, wait);
  }

  /** What reclaiming makes of a hold. */
  function Gone(h: Hold, now: int): Hold { if IsDue(h, now) then h.(state := EXPIRED) else h }

  lemma OneReclaimed(h: Hold, now: int)
    ensures Expire([h], Due([h], now)) == [Gone(h, now)]
  {
    assert IsDue(h, now) <==> 0 in Due([h], now);
  }

  lemma OneDeadCounts(h: Hold, c: string)
    requires !IsLive(h)
    ensures LiveTotal([h], c) == 0
  {
    SumAppend([], h, Live(c));
    assert [] + [h] == [h];
  }

  lemma SecondTakesItsPlace(s: State, h: Hold, b: Request)
    requires s.holds == [h] && s.open == map[] && IsDue(h, s.clock)
    requires 0 < b.amount <= b.authorized && h.key != b.key
    ensures Apply(Apply(s, ReserveBegin(0, b, s.clock)), ReserveEnd(0))
         == s.(holds := [h.(state := EXPIRED), NewHold(b, s.clock)])
  {
    OneReclaimed(h, s.clock);
    OneDeadCounts(h.(state := EXPIRED), b.caseId);
    assert Find([h.(state := EXPIRED)], b.key).None?;
    UninterruptedReserve(s, b);
  }

  lemma ThenReplaced(start: State, es: seq<Event>, s: State, h: Hold, b: Request)
    requires Exec(start, es) == s && s.holds == [h] && s.open == map[] && IsDue(h, s.clock)
    requires 0 < b.amount <= b.authorized && h.key != b.key
    ensures Exec(start, es + [ReserveBegin(0, b, s.clock), ReserveEnd(0)])
         == s.(holds := [h.(state := EXPIRED), NewHold(b, s.clock)])
  {
    SecondTakesItsPlace(s, h, b);
    ExecTwo(start, es, ReserveBegin(0, b, s.clock), ReserveEnd(0), s,
            s.(holds := [h.(state := EXPIRED), NewHold(b, s.clock)]));
  }

  lemma TwoLive(g: Hold, h: Hold, c: string)
    requires g.caseId == h.caseId == c && IsLive(g) && IsLive(h)
    ensures LiveTotal([g, h], c) == g.amount + h.amount
  {
    SumAppend([g], h, Live(c));
    SumAppend([], g, Live(c));
    assert [] + [g] == [g] && [g] + [h] == [g, h];
  }

  lemma CommittedLate(s: State)
    requires s.open == map[] && |s.holds| == 2 && s.holds[0].state.EXPIRED? && s.revived == {}
    ensures Apply(Apply(s, CommitSelect(0, 0)), CommitUpdate(0))
         == s.(holds := [s.holds[0].(state := COMMITTED), s.holds[1]], revived := {0})
  {
    UninterruptedCommit(s, 0);
    assert SetState(s.holds, 0, COMMITTED) == [s.holds[0].(state := COMMITTED), s.holds[1]];
    assert {} + {0} == {0};
  }

  lemma ThenCommitted(start: State, es: seq<Event>, s: State)
    requires Exec(start, es) == s
    requires s.open == map[] && |s.holds| == 2 && s.holds[0].state.EXPIRED? && s.revived == {}
    ensures Exec(start, es + [CommitSelect(0, 0), CommitUpdate(0)])
         == s.(holds := [s.holds[0].(state := COMMITTED), s.holds[1]], revived := {0})
  {
    CommittedLate(s);
    ExecTwo(start, es, CommitSelect(0, 0), CommitUpdate(0), s,
            s.(holds := [s.holds[0].(state := COMMITTED), s.holds[1]], revived := {0}));
  }

  lemma LateCommitEnds(clock: int, a: Request, b: Request, wait: nat)
    requires 0 < a.amount <= a.authorized && 0 < b.amount <= b.authorized && a.key != b.key
    requires IsDue(NewHold(a, clock), clock + wait)
    ensures Exec(Init(clock), LateCommitRun(clock, a, b, wait))
         == State(clock + wait, [NewHold(a, clock).(state := COMMITTED), NewHold(b, clock + wait)], map[], {0})
  {
    var first := State(clock + wait, [NewHold(a, clock)], map[], {});
    FirstHeld(clock, a, wait);
    ThenReplaced(Init(clock), HeldThenLapsed(clock, a, wait), first, NewHold(a, clock), b);
    ThenCommitted(Init(clock), HeldThenReplaced(clock, a, b, wait),
                  first.(holds := [NewHold(a, clock).(state := EXPIRED), NewHold(b, clock + wait)]));
  }

  /** The revived term is needed, from an empty table on: `commit` refuses only RELEASED, so a hold
      whose budget was reclaimed and granted again is committed all the same, and the case counts
      both amounts, each as large as the whole ceiling allows. */
  lemma LateCommitExceedsCeiling(clock: int, a: Request, b: Request)
    requires 0 < a.amount <= a.authorized && 0 < b.amount <= b.authorized
    requires a.caseId == b.caseId && a.key != b.key && a.ttl.Some?
    ensures var s := Exec(Init(clock), LateCommitRun(clock, a, b, Max0(a.ttl.value)));
            && LiveTotal(s.holds, a.caseId) == a.amount + b.amount
            && s.holds == [NewHold(a, clock).(state := COMMITTED), NewHold(b, clock + Max0(a.ttl.value))]
            && s.revived == {0}
  {
    var wait := Max0(a.ttl.value);
    LateCommitEnds(clock, a, b, wait);
    TwoLive(NewHold(a, clock).(state := COMMITTED), NewHold(b, clock + wait), a.caseId);
  }
}
