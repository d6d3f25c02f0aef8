/** apps/control/main.py and apps/control/expiry.py: the reservation authority. Amounts are
    integer cents; a row's id is its position in the table. */
module Control {
  import opened Base

  datatype HoldState = HELD | COMMITTED | RELEASED | EXPIRED
  datatype Hold = Hold(caseId: string, key: string, amount: int, state: HoldState, expiresAt: Option<int>)
  datatype Request = Request(caseId: string, amount: int, key: string, authorized: int, ttl: Option<int>)

  predicate IsLive(h: Hold) { h.state.HELD? || h.state.COMMITTED? }

  /** What a row counts against the ceiling of case `c`. */
  function Live(c: string): Hold -> int {
    (h: Hold) => if h.caseId == c && IsLive(h) then h.amount else 0
  }

  function LiveTotal(holds: seq<Hold>, c: string): int { Sum(holds, Live(c)) }

  predicate IsDue(h: Hold, now: int) {
    h.state.HELD? && h.expiresAt.Some? && h.expiresAt.value <= now
  }

  function Due(holds: seq<Hold>, now: int): set<nat> {
    set i: nat | i < |holds| && IsDue(holds[i], now)
  }

  /** The rows in `ids` marked EXPIRED. */
  function Expire(holds: seq<Hold>, ids: set<nat>): (r: seq<Hold>)
    ensures |r| == |holds|
    ensures forall i: nat :: i < |holds| ==> r[i] == if i in ids then holds[i].(state := EXPIRED) else holds[i]
  {
    seq(|holds|, i requires 0 <= i < |holds| => if i in ids then holds[i].(state := EXPIRED) else holds[i])
  }

  function Find(holds: seq<Hold>, key: string): (r: Option<nat>)
    ensures r.Some? ==> r.value < |holds| && holds[r.value].key == key
    ensures r.None? ==> forall i: nat :: i < |holds| ==> holds[i].key != key
  {
    FindBy(holds, (h: Hold) => h.key, key)
  }

  function Deadline(now: int, ttl: Option<int>): Option<int> {
    match ttl case None => None case Some(t) => Some(now + t)
  }

  function NewHold(req: Request, now: int): Hold {
    Hold(req.caseId, req.key, req.amount, HELD, Deadline(now, req.ttl))
  }

  datatype Outcome = Replayed(id: nat) | Refused | CheckViolation | Grant(total: int)

  /** What `reserve` decides once lapsed holds are reclaimed. The table's CHECK (amount > 0)
      rejects the insert of anything else. */
  function Decide(holds: seq<Hold>, req: Request): Outcome {
    match Find(holds, req.key)
    case Some(id) => Replayed(id)
    case None =>
      var total := LiveTotal(holds, req.caseId);
      if total + req.amount > req.authorized then Refused
      else if req.amount <= 0 then CheckViolation
      else Grant(total)
  }

  /** A lapsed hold of the case that nobody has reclaimed yet. */
  function Lapsed(now: int, c: string): Hold -> int {
    (h: Hold) => if h.caseId == c && IsDue(h, now) then h.amount else 0
  }

  function LiveAfter(now: int, c: string): Hold -> int {
    (h: Hold) => if IsDue(h, now) then 0 else Live(c)(h)
  }

  lemma ReclaimedTotal(holds: seq<Hold>, now: int, c: string)
    ensures LiveTotal(Expire(holds, Due(holds, now)), c) == LiveTotal(holds, c) - Sum(holds, Lapsed(now, c))
  {
    SumSplit(holds, Live(c), LiveAfter(now, c), Lapsed(now, c));
    SumEq(Expire(holds, Due(holds, now)), Live(c), holds, LiveAfter(now, c));
  }

  lemma FindReclaimed(holds: seq<Hold>, ids: set<nat>, key: string)
    ensures Find(Expire(holds, ids), key).None? <==> Find(holds, key).None?
  {
    if Find(holds, key).Some? {
      assert Expire(holds, ids)[Find(holds, key).value].key == key;
    }
  }

  datatype Answer = Granted(id: nat, replayed: bool) | Conflict | NotFound | Failed | Done(state: HoldState)

  /** The answer to a reservation: granted, with the hold it names, also for a replayed key. */
  function ReserveAnswer(holds: seq<Hold>, req: Request, now: int): Answer {
    var reclaimed := Expire(holds, Due(holds, now));
    match Decide(reclaimed, req)
    case Replayed(id) => Granted(id, true)
    case Refused => Conflict
    case CheckViolation => Failed
    case Grant(_) => Granted(|reclaimed|, false)
  }

  function AfterReserve(holds: seq<Hold>, req: Request, now: int): seq<Hold> {
    var reclaimed := Expire(holds, Due(holds, now));
    match Decide(reclaimed, req)
    case CheckViolation => holds
    case Grant(_) => reclaimed + [NewHold(req, now)]
    case _ => reclaimed
  }

  /** A row with this key is in the table. */
  ghost predicate KeyUsed(holds: seq<Hold>, key: string) {
    exists i: nat :: i < |holds| && holds[i].key == key
  }

  /** The rows after reclaiming: a HELD row whose deadline has come is EXPIRED, any other is as it was. */
  ghost predicate Reclaimed(before: seq<Hold>, after: seq<Hold>, now: int) {
    && |after| == |before|
    && forall i: nat :: i < |before| ==>
         var lapsed := before[i].state.HELD? && before[i].expiresAt.Some? && before[i].expiresAt.value <= now;
         after[i] == if lapsed then before[i].(state := EXPIRED) else before[i]
  }

  /** The service, each request a single transaction. */
  class ReservationService {
    var holds: seq<Hold>

    constructor ()
      ensures holds == []
    {
      holds := [];
    }

    method ExpireDue(now: int) returns (count: nat)
      modifies this
      ensures holds == Expire(old(holds), Due(old(holds), now)) && Reclaimed(old(holds), holds, now)
      ensures count == |Due(old(holds), now)|
    {
      var due := Due(holds, now);
      holds := Expire(holds, due);
      count := |due|;
    }

    method Reserve(req: Request, now: int) returns (r: Answer)
      modifies this
      ensures r == ReserveAnswer(old(holds), req, now)
      ensures holds == AfterReserve(old(holds), req, now)
      ensures r.Granted? && r.replayed <==> KeyUsed(old(holds), req.key)
      ensures r.Granted? && r.replayed ==>
                Reclaimed(old(holds), holds, now) && r.id < |holds| && holds[r.id].key == req.key
      ensures r.Granted? && !r.replayed ==>
                && r.id == |old(holds)| && |holds| == |old(holds)| + 1 && Reclaimed(old(holds), holds[..r.id], now)
                && LiveTotal(holds[..r.id], req.caseId) + req.amount <= req.authorized && req.amount > 0
                && holds[r.id] == Hold(req.caseId, req.key, req.amount, HELD,
                                       if req.ttl.Some? then Some(now + req.ttl.value) else None)
      ensures r.Conflict? ==>
                Reclaimed(old(holds), holds, now) && LiveTotal(holds, req.caseId) + req.amount > req.authorized
      ensures r.Failed? ==> holds == old(holds) && req.amount <= 0
      ensures r.Granted? || r.Conflict? || r.Failed?
    {
      ghost var before := holds;
      var rollback := holds;
      var expired := ExpireDue(now);
      var existing := Find(holds, req.key);
      if existing.Some? {
        return Granted(existing.value, true);
      }
      var held := LiveTotal(holds, req.caseId);
      if held + req.amount > req.authorized {
        return Conflict;
      }
      if req.amount <= 0 {
        holds := rollback;
        return Failed;
      }
      var expiresAt := None;
      if req.ttl.Some? {
        expiresAt := Some(now + req.ttl.value);
      }
      holds := holds + [Hold(req.caseId, req.key, req.amount, HELD, expiresAt)];
      r := Granted(|holds| - 1, false);
      assert holds[..r.id] == Expire(before, Due(before, now));
    }

    /** R2 of the invariant catalogue, first half: COMMITTED never becomes RELEASED. */
    method Release(id: nat) returns (r: Answer)
      modifies this
      ensures id >= |old(holds)| ==> r == NotFound && holds == old(holds)
      ensures id < |old(holds)| && old(holds)[id].state == COMMITTED ==> r == Conflict && holds == old(holds)
      ensures id < |old(holds)| && old(holds)[id].state != COMMITTED ==>
                r == Done(RELEASED) && holds == old(holds)[id := old(holds)[id].(state := RELEASED)]
    {
      if id >= |holds| {
        return NotFound;
      }
      var state := holds[id].state;
      if state == RELEASED {
        assert holds == holds[id := holds[id].(state := RELEASED)];
        return Done(RELEASED);
      }
      if state == COMMITTED {
        return Conflict;
      }
      holds := holds[id := holds[id].(state := RELEASED)];
      return Done(RELEASED);
    }

    /** R2, second half: RELEASED never becomes COMMITTED. An EXPIRED hold does. */
    method Commit(id: nat) returns (r: Answer)
      modifies this
      ensures id >= |old(holds)| ==> r == NotFound && holds == old(holds)
      ensures id < |old(holds)| && old(holds)[id].state == RELEASED ==> r == Conflict && holds == old(holds)
      ensures id < |old(holds)| && old(holds)[id].state != RELEASED ==>
                r == Done(COMMITTED) && holds == old(holds)[id := old(holds)[id].(state := COMMITTED)]
    {
      if id >= |holds| {
        return NotFound;
      }
      if holds[id].state == RELEASED {
        return Conflict;
      }
      holds := holds[id := holds[id].(state := COMMITTED)];
      return Done(COMMITTED);
    }

    /** What a caller can do with the listed total: a new request is granted at `now` exactly when it
        fits beside the total less the lapsed holds, which the listing does not reclaim. */
    method ListReservations(caseId: string) returns (total: int)
      ensures forall req: Request, now: int ::
                req.caseId == caseId && Find(holds, req.key).None? && req.amount > 0 ==>
                  (Decide(Expire(holds, Due(holds, now)), req).Grant? <==>
                     total - Sum(holds, Lapsed(now, caseId)) + req.amount <= req.authorized)
    {
      total := LiveTotal(holds, caseId);
      forall req: Request, now: int | req.caseId == caseId && Find(holds, req.key).None? && req.amount > 0
        ensures Decide(Expire(holds, Due(holds, now)), req).Grant? <==>
                  total - Sum(holds, Lapsed(now, caseId)) + req.amount <= req.authorized
      {
        FindReclaimed(holds, Due(holds, now), req.key);
        ReclaimedTotal(holds, now, caseId);
      }
    }
  }
}
