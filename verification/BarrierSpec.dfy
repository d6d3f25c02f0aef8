/** What each locked section of apps/coordinator/barrier.py does to the barrier, as functions
    on its state, and what every one of them keeps. */
module BarrierSpec {
  import opened Base
  import opened Schedules

  /** `signalled` holds the keys whose threading.Event has been set. */
  datatype State = State(
    steps: seq<Step>, pointer: nat, arrivals: map<Step, nat>,
    parked: set<Key>, leases: map<Key, int>, leaseTtls: map<Key, int>,
    releaseOrder: seq<Key>, aborted: Option<string>, signalled: set<Key>)

  datatype Arrival = AlreadyAborted | Undeclared | Released(key: Key) | Parked(key: Key)

  function Init(steps: seq<Step>): State {
    State(steps, 0, map[], {}, map[], map[], [], None, {})
  }

  function Current(b: State): Option<Key> { CurrentKey(b.steps, b.pointer) }

  /** Record a release and move the pointer. */
  function Record(b: State, k: Key): State {
    b.(releaseOrder := b.releaseOrder + [k], leases := b.leases - {k}, leaseTtls := b.leaseTtls - {k},
       pointer := b.pointer + 1)
  }

  /** A waiter is taken out of `parked` and its event set. */
  function Popped(b: State, k: Key): State {
    b.(parked := b.parked - {k}, signalled := b.signalled + {k})
  }

  /** The release cascade: let go every parked waiter the pointer now reaches. */
  function Cascade(b: State): State
    decreases |b.steps| - b.pointer
  {
    match Current(b)
    case None => b
    case Some(k) =>
      if k !in b.parked then b
      else Cascade(Record(Popped(b, k), k))
  }

  function Count1(b: State, st: Step): State {
    b.(arrivals := b.arrivals[st := Counter(b.arrivals, st) + 1])
  }

  function Park(b: State, k: Key, ttl: Option<int>, now: int): State {
    var parked := b.(parked := b.parked + {k});
    match ttl
    case None => parked
    case Some(t) => parked.(leases := b.leases[k := now + t], leaseTtls := b.leaseTtls[k := t])
  }

  function Arrive(b: State, actor: string, checkpoint: string, ttl: Option<int>, now: int): (State, Arrival) {
    var st := Step(actor, checkpoint);
    var n := Counter(b.arrivals, st);
    var k := Key(actor, checkpoint, n);
    var counted := Count1(b, st);
    if b.aborted.Some? then (b, AlreadyAborted)
    else if n >= Count(b.steps, st) then (b, Undeclared)
    else if Current(b) == Some(k) then (Cascade(Record(counted, k)), Released(k))
    else (Park(counted, k, ttl, now), Parked(k))
  }

  function Abort(b: State, reason: string): State {
    b.(aborted := if b.aborted.None? then Some(reason) else b.aborted,
       parked := {}, leases := map[], leaseTtls := map[])
  }

  /** The locked half of a wait whose event was not set in time. */
  function Unpark(b: State, k: Key): State {
    b.(parked := b.parked - {k}, leases := b.leases - {k}, leaseTtls := b.leaseTtls - {k})
  }

  function Heartbeat(b: State, k: Key, now: int): State {
    if k in b.leases && k in b.leaseTtls then b.(leases := b.leases[k := now + b.leaseTtls[k]]) else b
  }

  function Expired(b: State, now: int): set<Key> {
    set k | k in b.leases && b.leases[k] <= now
  }

  ghost predicate Ahead(steps: seq<Step>, pointer: nat, k: Key) {
    exists i :: pointer <= i < |steps| && KeyAt(steps, i) == k
  }

  predicate Arrived(b: State, k: Key) {
    k.occurrence < Counter(b.arrivals, StepOf(k))
  }

  /** Everything but the clause that the cascade restores. `lost` collects the keys that were
      taken out of `parked` without being released: by a timeout or by an abort. */
  ghost predicate Consistent(b: State, lost: set<Key>) {
    && b.pointer <= |b.steps|
    && b.releaseOrder == Declared(b.steps)[..b.pointer]
    && (forall k :: k in b.parked + lost ==> Ahead(b.steps, b.pointer, k))
    && b.parked !! lost
    && (forall i :: 0 <= i < |b.steps| ==>
          (Arrived(b, KeyAt(b.steps, i)) <==>
             i < b.pointer || KeyAt(b.steps, i) in b.parked || KeyAt(b.steps, i) in lost))
    && b.leases.Keys == b.leaseTtls.Keys <= b.parked
    && (b.aborted.Some? ==> b.parked == {})
    && (b.aborted.None? ==> forall k :: k in b.signalled ==> k in b.releaseOrder)
  }

  /** Between operations the step at the pointer is never parked. */
  ghost predicate Inv(b: State, lost: set<Key>) {
    && Consistent(b, lost)
    && (Current(b).Some? ==> Current(b).value !in b.parked)
  }

  /** `k` is the step at the pointer, has arrived, and has just been taken out of `parked`. */
  ghost predicate Ready(b: State, k: Key, lost: set<Key>) {
    && b.aborted.None?
    && Current(b) == Some(k)
    && Arrived(b, k)
    && b.releaseOrder == Declared(b.steps)[..b.pointer]
    && k !in b.parked + lost
    && (forall x :: x in b.parked + lost ==> Ahead(b.steps, b.pointer, x))
    && b.parked !! lost
    && (forall i :: 0 <= i < |b.steps| && i != b.pointer ==>
          (Arrived(b, KeyAt(b.steps, i)) <==>
             i < b.pointer || KeyAt(b.steps, i) in b.parked || KeyAt(b.steps, i) in lost))
    && b.leases.Keys == b.leaseTtls.Keys <= b.parked + {k}
    && (forall x :: x in b.signalled ==> x in b.releaseOrder || x == k)
  }

  lemma OtherKeys(steps: seq<Step>, p: nat)
    requires p < |steps|
    ensures forall i :: 0 <= i < |steps| && i != p ==> KeyAt(steps, i) != KeyAt(steps, p)
  {
    forall i | 0 <= i < |steps| && i != p ensures KeyAt(steps, i) != KeyAt(steps, p) {
      if i < p { KeysDistinct(steps, i, p); } else { KeysDistinct(steps, p, i); }
    }
  }

  lemma RecordCurrent(b: State, k: Key, lost: set<Key>)
    requires Ready(b, k, lost)
    ensures Consistent(Record(b, k), lost)
    ensures k in Record(b, k).releaseOrder
  {
  }

  lemma PopIsReady(b: State, k: Key, lost: set<Key>)
    requires Consistent(b, lost) && b.aborted.None? && Current(b) == Some(k) && k in b.parked
    ensures Ready(Popped(b, k), k, lost)
  {
    var p := Popped(b, k);
    OtherKeys(b.steps, b.pointer);
    assert Arrived(b, KeyAt(b.steps, b.pointer));
  }

  /** The cascade keeps the state consistent and stops only at a step that is not parked. */
  lemma {:induction false} CascadeRestores(b: State, lost: set<Key>)
    requires Consistent(b, lost) && b.aborted.None?
    ensures Inv(Cascade(b), lost)
    decreases |b.steps| - b.pointer
  {
    match Current(b)
    case None =>
    case Some(k) =>
      if k in b.parked {
        PopIsReady(b, k, lost);
        RecordCurrent(Popped(b, k), k, lost);
        CascadeRestores(Record(Popped(b, k), k), lost);
      }
  }

  /** The cascade only releases: it never parks, re-leases, aborts or forgets a signal. */
  ghost predicate OnlyReleases(b: State, c: State) {
    && c.steps == b.steps && c.arrivals == b.arrivals && c.aborted == b.aborted
    && b.releaseOrder <= c.releaseOrder && c.parked <= b.parked
    && c.signalled == b.signalled + (b.parked - c.parked)
    && c.leases.Keys <= b.leases.Keys && c.leaseTtls.Keys <= b.leaseTtls.Keys
    && (forall k :: k in c.leases ==> c.leases[k] == b.leases[k])
    && (forall k :: k in c.leaseTtls ==> c.leaseTtls[k] == b.leaseTtls[k])
  }

  lemma {:induction false} CascadeOnlyReleases(b: State)
    ensures OnlyReleases(b, Cascade(b))
    decreases |b.steps| - b.pointer
  {
    match Current(b)
    case None =>
    case Some(k) =>
      if k in b.parked {
        var r := Record(Popped(b, k), k);
        CascadeOnlyReleases(r);
        var c := Cascade(r);
        assert b.releaseOrder <= r.releaseOrder;
      }
  }

  lemma PrefixContains(s: seq<Key>, t: seq<Key>, k: Key)
    requires s <= t && k in s
    ensures k in t
  {
  }

  /** What an arrival finds out about its own key: it is declared, new, and nowhere yet. */
  lemma ArrivingKey(b: State, lost: set<Key>, st: Step) returns (p: nat)
    requires Inv(b, lost) && Counter(b.arrivals, st) < Count(b.steps, st)
    ensures var k := Key(st.actor, st.checkpoint, Counter(b.arrivals, st));
            b.pointer <= p < |b.steps| && KeyAt(b.steps, p) == k && k !in b.parked + lost
  {
    var k := Key(st.actor, st.checkpoint, Counter(b.arrivals, st));
    DeclaredIffBelowCount(b.steps, k);
    p :| 0 <= p < |b.steps| && Declared(b.steps)[p] == k;
    assert !Arrived(b, KeyAt(b.steps, p));
  }

  lemma CountedElsewhere(b: State, lost: set<Key>, st: Step, p: nat)
    requires Inv(b, lost) && p < |b.steps|
    requires KeyAt(b.steps, p) == Key(st.actor, st.checkpoint, Counter(b.arrivals, st))
    ensures forall i :: 0 <= i < |b.steps| && i != p ==>
              (Arrived(Count1(b, st), KeyAt(b.steps, i)) <==>
                 i < b.pointer || KeyAt(b.steps, i) in b.parked || KeyAt(b.steps, i) in lost)
  {
    OtherKeys(b.steps, p);
    forall i | 0 <= i < |b.steps| && i != p
      ensures Arrived(Count1(b, st), KeyAt(b.steps, i)) <==> Arrived(b, KeyAt(b.steps, i))
    {
      assert KeyAt(b.steps, i) != KeyAt(b.steps, p);
    }
  }

  lemma ParkedArrived(b: State, lost: set<Key>, st: Step, p: nat)
    requires Inv(b, lost) && p < |b.steps|
    requires KeyAt(b.steps, p) == Key(st.actor, st.checkpoint, Counter(b.arrivals, st))
    ensures forall i :: 0 <= i < |b.steps| ==>
              (Arrived(Count1(b, st), KeyAt(b.steps, i)) <==>
                 i < b.pointer || KeyAt(b.steps, i) in b.parked + {KeyAt(b.steps, p)} || KeyAt(b.steps, i) in lost)
  {
    CountedElsewhere(b, lost, st, p);
    OtherKeys(b.steps, p);
  }

  lemma ParkedAhead(b: State, lost: set<Key>, p: nat)
    requires Inv(b, lost) && b.pointer < p < |b.steps|
    ensures forall k :: k in b.parked + {KeyAt(b.steps, p)} + lost ==> Ahead(b.steps, b.pointer, k)
  {
  }

  lemma ParkKeeps(b: State, lost: set<Key>, st: Step, p: nat, ttl: Option<int>, now: int)
    requires Inv(b, lost) && b.aborted.None? && b.pointer < p < |b.steps|
    requires KeyAt(b.steps, p) == Key(st.actor, st.checkpoint, Counter(b.arrivals, st))
    requires KeyAt(b.steps, p) !in b.parked + lost
    ensures Inv(Park(Count1(b, st), KeyAt(b.steps, p), ttl, now), lost)
  {
    var c := Park(Count1(b, st), KeyAt(b.steps, p), ttl, now);
    ParkedArrived(b, lost, st, p);
    ParkedAhead(b, lost, p);
    assert c.parked == b.parked + {KeyAt(b.steps, p)};
    assert forall k :: Arrived(c, k) == Arrived(Count1(b, st), k);
    OtherKeys(b.steps, p);
  }

  /** An arrival keeps the invariant, whichever way it goes. */
  lemma ArriveKeeps(b: State, lost: set<Key>, actor: string, checkpoint: string, ttl: Option<int>, now: int)
    requires Inv(b, lost)
    ensures Inv(Arrive(b, actor, checkpoint, ttl, now).0, lost)
  {
    var st := Step(actor, checkpoint);
    if b.aborted.None? && Counter(b.arrivals, st) < Count(b.steps, st) {
      var p := ArrivingKey(b, lost, st);
      var k := KeyAt(b.steps, p);
      if Current(b) == Some(k) {
        OtherKeys(b.steps, p);
        assert p == b.pointer;
        CountedElsewhere(b, lost, st, p);
        RecordCurrent(Count1(b, st), k, lost);
        CascadeRestores(Record(Count1(b, st), k), lost);
      } else {
        ParkKeeps(b, lost, st, p, ttl, now);
      }
    }
  }

  /** What the caller is told is what happened: a released key is in the release order, a parked
      key is newly parked with the lease it asked for, and every other answer changes nothing. */
  lemma ArriveAnswers(b: State, actor: string, checkpoint: string, ttl: Option<int>, now: int)
    ensures var (c, r) := Arrive(b, actor, checkpoint, ttl, now);
            && c.steps == b.steps && c.aborted == b.aborted
            && b.releaseOrder <= c.releaseOrder && c.signalled == b.signalled + (b.parked - c.parked)
            && (forall k :: Arrived(b, k) ==> Arrived(c, k))
            && match r {
                 case AlreadyAborted => b.aborted.Some? && c == b
                 case Undeclared => b.aborted.None? && c == b
                 case Released(k) =>
                   b.aborted.None? && k in c.releaseOrder && OnlyReleases(b, c.(arrivals := b.arrivals))
                 case Parked(k) =>
                   && b.aborted.None? && c.parked == b.parked + {k} && c.releaseOrder == b.releaseOrder
                   && !Arrived(b, k) && Arrived(c, k)
                   && c.leases == (if ttl.Some? then b.leases[k := now + ttl.value] else b.leases)
                   && c.leaseTtls == (if ttl.Some? then b.leaseTtls[k := ttl.value] else b.leaseTtls)
               }
  {
    var (c, r) := Arrive(b, actor, checkpoint, ttl, now);
    if r.Released? {
      var recorded := Record(Count1(b, Step(actor, checkpoint)), r.key);
      CascadeOnlyReleases(recorded);
      assert recorded.releaseOrder[|b.releaseOrder|] == r.key;
      PrefixContains(recorded.releaseOrder, c.releaseOrder, r.key);
      assert b.releaseOrder <= recorded.releaseOrder;
    }
  }

  /** `k` is the step the pointer waits for. */
  predicate AtPointer(b: State, k: Key) { b.pointer < |b.steps| && KeyAt(b.steps, b.pointer) == k }

  /** A declared arrival is always taken in, early or not: it is counted as the next occurrence of
      its step, and it is released if it is at the pointer and newly parked otherwise. Only a step that
      has arrived as often as it is declared is undeclared. */
  lemma ArrivalIsTakenIn(b: State, lost: set<Key>, actor: string, checkpoint: string, ttl: Option<int>, now: int)
    requires Inv(b, lost) && b.aborted.None?
    ensures var st := Step(actor, checkpoint);
            var k := Key(actor, checkpoint, Counter(b.arrivals, st));
            var (c, r) := Arrive(b, actor, checkpoint, ttl, now);
            if Counter(b.arrivals, st) >= Count(b.steps, st) then r == Undeclared && c == b
            else
              && Counter(c.arrivals, st) == Counter(b.arrivals, st) + 1
              && (forall other :: other != st ==> Counter(c.arrivals, other) == Counter(b.arrivals, other))
              && (if AtPointer(b, k) then r == Released(k) && k in c.releaseOrder
                  else r == Parked(k) && k !in b.parked && c.parked == b.parked + {k} && c.pointer == b.pointer)
  {
    var st := Step(actor, checkpoint);
    ArriveAnswers(b, actor, checkpoint, ttl, now);
    CascadeOnlyReleases(Record(Count1(b, st), Key(actor, checkpoint, Counter(b.arrivals, st))));
    if Counter(b.arrivals, st) < Count(b.steps, st) {
      var p := ArrivingKey(b, lost, st);
    }
  }

  /** A lease lasts for its ttl from the moment it was taken, and no longer. */
  lemma LeaseLastsItsTtl(b: State, actor: string, checkpoint: string, ttl: int, now: int, later: int)
    ensures var (c, r) := Arrive(b, actor, checkpoint, Some(ttl), now);
            r.Parked? ==> (r.key in Expired(c, later) <==> now + ttl <= later)
  {
  }

  /** A heartbeat buys the same ttl again, for this waiter alone. */
  lemma BeatBuysItsTtl(b: State, k: Key, now: int, later: int)
    requires b.leases.Keys == b.leaseTtls.Keys && k in b.leases
    ensures var c := Heartbeat(b, k, now);
            && (k in Expired(c, later) <==> now + b.leaseTtls[k] <= later)
            && forall x :: x != k ==> (x in Expired(c, later) <==> x in Expired(b, later))
  {
  }

  lemma AbortKeeps(b: State, lost: set<Key>, reason: string)
    requires Inv(b, lost)
    ensures Inv(Abort(b, reason), lost + b.parked)
  {
  }

  lemma UnparkKeeps(b: State, lost: set<Key>, k: Key)
    requires Inv(b, lost)
    ensures Inv(Unpark(b, k), lost + (b.parked * {k}))
  {
  }

  /** Exactly how far a run gets: every step before the pointer has arrived, and the step at the
      pointer has not arrived or was lost to a timeout or an abort. */
  lemma PointerIsFirstMissingStep(b: State, lost: set<Key>)
    requires Inv(b, lost)
    ensures b.pointer <= |b.steps|
    ensures forall i :: 0 <= i < b.pointer ==> Arrived(b, KeyAt(b.steps, i)) && KeyAt(b.steps, i) !in lost
    ensures b.pointer < |b.steps| ==>
              !Arrived(b, KeyAt(b.steps, b.pointer)) || KeyAt(b.steps, b.pointer) in lost
  {
    forall i | 0 <= i < b.pointer ensures KeyAt(b.steps, i) !in lost {
      if KeyAt(b.steps, i) in lost {
        assert Ahead(b.steps, b.pointer, KeyAt(b.steps, i));
        var j :| b.pointer <= j < |b.steps| && KeyAt(b.steps, j) == KeyAt(b.steps, i);
        KeysDistinct(b.steps, i, j);
      }
    }
  }
}
