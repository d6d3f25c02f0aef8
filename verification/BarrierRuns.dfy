/** Every interleaving of one declared run: arrivals, wake-ups, timeouts, heartbeats, lease
    scans and aborts, split wherever the lock is dropped. A run is a sequence of events; an
    event that cannot happen in a state leaves it alone. */
module BarrierRuns {
  import opened Base
  import opened Schedules
  import B = BarrierSpec

  datatype Answer = Answer(key: Option<Key>, code: int)

  /** `waiting`: threads inside event.wait. `timedOut`: event.wait returned False, the lock is not
      taken yet. `unsignalled`: popped by an abort, event not set yet. `raising`: answers whose
      handler has still to call abort. `reaping`: scans that found a lapsed lease and have still to
      abort. `lost`, `lastBeat` and `answers` record history. */
  datatype Run = Run(
    b: B.State, clock: int, faults: set<Key>,
    waiting: set<Key>, timedOut: set<Key>, unsignalled: set<Key>, raising: multiset<int>, reaping: nat,
    lost: set<Key>, lastBeat: map<Key, int>, answers: seq<Answer>)

  datatype Event =
    | Tick(elapsed: nat)
    | Reject(code: int)                // a request refused for its headers: abort, then answer
    | Await(actor: string, checkpoint: string, ttl: Option<int>)
    | SignalAborted(key: Key)
    | Wake(key: Key)
    | TimeOut(key: Key)
    | TimeOutLocked(key: Key)
    | AbortRaised(code: int)
    | Heartbeat(key: Key)
    | ReapScan(now: int)
    | ReapAbort

  function Start(steps: seq<Step>, clock: int, faults: set<Key>): Run {
    Run(B.Init(steps), clock, faults, {}, {}, {}, multiset{}, 0, {}, map[], [])
  }

  function Reply(r: Run, k: Key): Answer {
    if r.b.aborted.Some? then Answer(Some(k), 409)
    else Answer(Some(k), if k in r.faults then 500 else 200)
  }

  function Say(r: Run, a: Answer): Run { r.(answers := r.answers + [a]) }

  function DoAbort(r: Run): Run {
    r.(b := B.Abort(r.b, "aborted"), lost := r.lost + r.b.parked, unsignalled := r.unsignalled + r.b.parked)
  }

  function Apply(r: Run, e: Event): Run {
    match e
    case Tick(d) => r.(clock := r.clock + d)
    case Reject(code) => if code in {400, 409} then Say(DoAbort(r), Answer(None, code)) else r
    case Await(actor, checkpoint, ttl) =>
      var (b, arrival) := B.Arrive(r.b, actor, checkpoint, ttl, r.clock);
      (match arrival
       case AlreadyAborted => Say(r, Answer(None, 409))
       case Undeclared => r.(raising := r.raising + multiset{409})
       case Released(k) => Say(r.(b := b), Reply(r, k))
       case Parked(k) => r.(b := b, waiting := r.waiting + {k}, lastBeat := r.lastBeat[k := r.clock]))
    case SignalAborted(k) =>
      if k in r.unsignalled then r.(unsignalled := r.unsignalled - {k}, b := r.b.(signalled := r.b.signalled + {k}))
        else r
    case Wake(k) =>
      if k in r.waiting && k in r.b.signalled then Say(r.(waiting := r.waiting - {k}), Reply(r, k)) else r
    case TimeOut(k) =>
      if k in r.waiting && k !in r.b.signalled then r.(waiting := r.waiting - {k}, timedOut := r.timedOut + {k}) else r
    case TimeOutLocked(k) =>
      if k in r.timedOut
      then r.(timedOut := r.timedOut - {k}, b := B.Unpark(r.b, k), lost := r.lost + (r.b.parked * {k}),
              raising := r.raising + multiset{504})
      else r
    case AbortRaised(code) =>
      if code in r.raising then Say(DoAbort(r).(raising := r.raising - multiset{code}), Answer(None, code)) else r
    case Heartbeat(k) =>
      var b := B.Heartbeat(r.b, k, r.clock);
      r.(b := b, lastBeat := if k in r.b.leases then r.lastBeat[k := r.clock] else r.lastBeat)
    case ReapScan(now) =>
      if now <= r.clock && B.Expired(r.b, now) != {} then r.(reaping := r.reaping + 1) else r
    case ReapAbort =>
      if r.reaping > 0 then DoAbort(r).(reaping := r.reaping - 1) else r
  }

  function Exec(r: Run, es: seq<Event>): Run {
    if |es| == 0 then r else Apply(Exec(r, es[..|es| - 1]), es[|es| - 1])
  }

  ghost predicate AnswersTrue(r: Run) {
    && (forall a :: a in r.answers && a.code in {200, 500} ==> a.key.Some? && a.key.value in r.b.releaseOrder)
    && (forall a :: a in r.answers && a.code !in {200, 500} ==> r.b.aborted.Some?)
    && (forall c :: c in r.raising ==> c in {409, 504})
  }

  ghost predicate LeasesTrue(r: Run) {
    forall k :: k in r.b.leases ==>
      k in r.b.leaseTtls && k in r.lastBeat && r.b.leases[k] == r.lastBeat[k] + r.b.leaseTtls[k]
  }

  /** No wake-up is lost: while the run is live, a blocked thread is parked or its event is set. */
  ghost predicate ThreadsTrue(r: Run) {
    && (r.unsignalled != {} ==> r.b.aborted.Some?)
    && r.waiting !! r.timedOut
    && (forall k :: k in r.waiting || k in r.timedOut || k in r.unsignalled || k in r.b.signalled ==> B.Arrived(r.b, k))
    && r.b.parked <= r.waiting + r.timedOut
    && r.b.parked !! r.b.signalled
    && (forall k :: k in r.waiting ==> k in r.b.parked || k in r.b.signalled || k in r.unsignalled)
  }

  ghost predicate Inv(r: Run) {
    B.Inv(r.b, r.lost) && ThreadsTrue(r) && AnswersTrue(r) && LeasesTrue(r)
  }

  /** The release order only ever grows, an abort is permanent, and after it nothing moves. */
  ghost predicate Later(r: Run, s: Run) {
    && s.b.steps == r.b.steps
    && r.b.releaseOrder <= s.b.releaseOrder
    && (r.b.aborted.Some? ==>
          && s.b.aborted == r.b.aborted && s.b.releaseOrder == r.b.releaseOrder
          && s.b.pointer == r.b.pointer && s.b.parked <= r.b.parked && s.b.leases.Keys <= r.b.leases.Keys)
  }

  lemma InOrderLater(r: Run, s: Run)
    requires r.b.releaseOrder <= s.b.releaseOrder
    ensures forall k :: k in r.b.releaseOrder ==> k in s.b.releaseOrder
  {
  }

  lemma ApplyLater(r: Run, e: Event)
    requires Inv(r)
    ensures Later(r, Apply(r, e))
  {
    if e.Await? {
      B.ArriveAnswers(r.b, e.actor, e.checkpoint, e.ttl, r.clock);
    }
  }

  lemma AwaitThreads(r: Run, e: Event)
    requires ThreadsTrue(r) && e.Await?
    ensures ThreadsTrue(Apply(r, e))
  {
    B.ArriveAnswers(r.b, e.actor, e.checkpoint, e.ttl, r.clock);
  }

  lemma AwaitLeases(r: Run, e: Event)
    requires LeasesTrue(r) && e.Await? && forall k :: k in r.b.leases ==> B.Arrived(r.b, k)
    requires Apply(r, e).b.leases.Keys == Apply(r, e).b.leaseTtls.Keys
    ensures LeasesTrue(Apply(r, e))
  {
    B.ArriveAnswers(r.b, e.actor, e.checkpoint, e.ttl, r.clock);
    var s := Apply(r, e);
    forall k | k in s.b.leases
      ensures k in s.b.leaseTtls && k in s.lastBeat && s.b.leases[k] == s.lastBeat[k] + s.b.leaseTtls[k]
    {
    }
  }

  lemma AwaitAnswers(r: Run, e: Event)
    requires AnswersTrue(r) && e.Await?
    ensures AnswersTrue(Apply(r, e))
  {
    B.ArriveAnswers(r.b, e.actor, e.checkpoint, e.ttl, r.clock);
    InOrderLater(r, Apply(r, e));
  }

  lemma HeartbeatKeeps(b: B.State, lost: set<Key>, k: Key, now: int)
    requires B.Inv(b, lost)
    ensures B.Inv(B.Heartbeat(b, k, now), lost)
  {
  }

  lemma SignalKeeps(b: B.State, lost: set<Key>, k: Key)
    requires B.Inv(b, lost) && b.aborted.Some?
    ensures B.Inv(b.(signalled := b.signalled + {k}), lost)
  {
  }

  lemma WaiterStep(r: Run, e: Event)
    requires B.Inv(r.b, r.lost) && (r.unsignalled != {} ==> r.b.aborted.Some?)
    requires e.SignalAborted? || e.TimeOutLocked? || e.Heartbeat?
    ensures B.Inv(Apply(r, e).b, Apply(r, e).lost)
  {
    match e
    case TimeOutLocked(k) => B.UnparkKeeps(r.b, r.lost, k);
    case Heartbeat(k) => HeartbeatKeeps(r.b, r.lost, k, r.clock);
    case SignalAborted(k) => if k in r.unsignalled { SignalKeeps(r.b, r.lost, k); }
  }

  lemma AbortStep(r: Run, e: Event)
    requires B.Inv(r.b, r.lost) && (e.Reject? || e.AbortRaised? || e.ReapAbort?)
    ensures B.Inv(Apply(r, e).b, Apply(r, e).lost)
  {
    B.AbortKeeps(r.b, r.lost, "aborted");
  }

  lemma LeavesBarrier(r: Run, e: Event)
    requires e.Tick? || e.Wake? || e.TimeOut? || e.ReapScan?
    ensures Apply(r, e).b == r.b && Apply(r, e).lost == r.lost
  {
  }

  lemma ArriveStep(r: Run, e: Event)
    requires B.Inv(r.b, r.lost) && e.Await?
    ensures B.Inv(Apply(r, e).b, Apply(r, e).lost)
  {
    B.ArriveKeeps(r.b, r.lost, e.actor, e.checkpoint, e.ttl, r.clock);
    B.ArriveAnswers(r.b, e.actor, e.checkpoint, e.ttl, r.clock);
  }

  lemma BarrierStep(r: Run, e: Event)
    requires B.Inv(r.b, r.lost) && (r.unsignalled != {} ==> r.b.aborted.Some?)
    ensures B.Inv(Apply(r, e).b, Apply(r, e).lost)
  {
    match e
    case Await(_, _, _) => ArriveStep(r, e);
    case Tick(_) => LeavesBarrier(r, e);
    case Wake(_) => LeavesBarrier(r, e);
    case TimeOut(_) => LeavesBarrier(r, e);
    case ReapScan(_) => LeavesBarrier(r, e);
    case TimeOutLocked(_) => WaiterStep(r, e);
    case Heartbeat(_) => WaiterStep(r, e);
    case SignalAborted(_) => WaiterStep(r, e);
    case _ => AbortStep(r, e);
  }

  lemma AbortThreads(r: Run)
    requires ThreadsTrue(r)
    ensures ThreadsTrue(DoAbort(r))
  {
  }

  lemma WaiterThreads(r: Run, e: Event)
    requires ThreadsTrue(r) && (r.b.aborted.Some? ==> r.b.parked == {})
    requires e.SignalAborted? || e.Wake? || e.TimeOut? || e.TimeOutLocked? || e.Heartbeat?
    ensures ThreadsTrue(Apply(r, e))
  {
  }

  lemma ThreadsStep(r: Run, e: Event)
    requires ThreadsTrue(r) && (r.b.aborted.Some? ==> r.b.parked == {})
    ensures ThreadsTrue(Apply(r, e))
  {
    match e
    case Await(_, _, _) => AwaitThreads(r, e);
    case Reject(_) => AbortThreads(r);
    case AbortRaised(_) => AbortThreads(r);
    case ReapAbort => AbortThreads(r);
    case Tick(_) =>
    case ReapScan(_) =>
    case _ => WaiterThreads(r, e);
  }

  lemma WakeAnswers(r: Run, e: Event)
    requires AnswersTrue(r) && e.Wake?
    requires r.b.aborted.None? ==> forall k :: k in r.b.signalled ==> k in r.b.releaseOrder
    ensures AnswersTrue(Apply(r, e))
  {
  }

  lemma AbortAnswers(r: Run, e: Event)
    requires AnswersTrue(r) && (e.Reject? || e.AbortRaised? || e.ReapAbort?)
    ensures AnswersTrue(Apply(r, e))
  {
  }

  lemma AnswersStep(r: Run, e: Event)
    requires AnswersTrue(r)
    requires r.b.aborted.None? ==> forall k :: k in r.b.signalled ==> k in r.b.releaseOrder
    ensures AnswersTrue(Apply(r, e))
  {
    match e
    case Await(_, _, _) => AwaitAnswers(r, e);
    case Wake(_) => WakeAnswers(r, e);
    case Reject(_) => AbortAnswers(r, e);
    case AbortRaised(_) => AbortAnswers(r, e);
    case ReapAbort => AbortAnswers(r, e);
    case _ =>
  }

  lemma LeasesStep(r: Run, e: Event)
    requires LeasesTrue(r) && r.b.leases.Keys == r.b.leaseTtls.Keys
    requires forall k :: k in r.b.leases ==> B.Arrived(r.b, k)
    requires Apply(r, e).b.leases.Keys == Apply(r, e).b.leaseTtls.Keys
    ensures LeasesTrue(Apply(r, e))
  {
    if e.Await? {
      AwaitLeases(r, e);
    }
  }

  lemma ApplyKeeps(r: Run, e: Event)
    requires Inv(r)
    ensures Inv(Apply(r, e))
  {
    BarrierStep(r, e);
    ThreadsStep(r, e);
    AnswersStep(r, e);
    LeasesStep(r, e);
  }

  lemma {:induction false} RunKeeps(r: Run, es: seq<Event>)
    requires Inv(r)
    ensures Inv(Exec(r, es)) && Later(r, Exec(r, es))
  {
    if |es| > 0 {
      RunKeeps(r, es[..|es| - 1]);
      var m := Exec(r, es[..|es| - 1]);
      ApplyKeeps(m, es[|es| - 1]);
      ApplyLater(m, es[|es| - 1]);
    }
  }

  lemma StartInv(steps: seq<Step>, clock: int, faults: set<Key>)
    ensures Inv(Start(steps, clock, faults))
  {
  }

  // ------------------------------------------------------------------ what every run guarantees

  ghost predicate Reachable(r: Run, steps: seq<Step>) {
    exists clock: int, faults, es :: r == Exec(Start(steps, clock, faults), es)
  }

  lemma ReachableInv(r: Run, steps: seq<Step>)
    requires Reachable(r, steps)
    ensures Inv(r) && r.b.steps == steps
  {
    var clock: int, faults, es :| r == Exec(Start(steps, clock, faults), es);
    StartInv(steps, clock, faults);
    RunKeeps(Start(steps, clock, faults), es);
  }

  /** However the threads interleave, what was released is exactly the declared steps up to the
      pointer, in declared order with their occurrence numbers. */
  lemma ReleaseOrderIsDeclaredPrefix(r: Run, steps: seq<Step>)
    requires Reachable(r, steps)
    ensures r.b.pointer <= |steps| && r.b.releaseOrder == Declared(steps)[..r.b.pointer]
  {
    ReachableInv(r, steps);
  }

  /** Two completed runs of one schedule released in the same order, the one the runner computed
      from the file, so its check that the schedule was executed passes. */
  lemma CompletedRunsAgree(r: Run, s: Run, steps: seq<Step>)
    requires Reachable(r, steps) && Reachable(s, steps)
    requires r.b.pointer >= |steps| && s.b.pointer >= |steps|
    ensures r.b.releaseOrder == s.b.releaseOrder == Declared(steps)
  {
    ReleaseOrderIsDeclaredPrefix(r, steps);
    ReleaseOrderIsDeclaredPrefix(s, steps);
  }

  /** The runner's check, actual == expected, passes exactly on the runs that completed. */
  lemma ScheduleExecutedIffComplete(r: Run, steps: seq<Step>)
    requires Reachable(r, steps)
    ensures r.b.releaseOrder == Declared(steps) <==> r.b.pointer == |steps|
  {
    ReleaseOrderIsDeclaredPrefix(r, steps);
    assert |Declared(steps)[..r.b.pointer]| == r.b.pointer;
  }

  /** No deadlock: once every declared step has arrived and none was lost to a timeout or an
      abort, the schedule is complete, nobody is parked, and every blocked thread can wake. */
  lemma NoDeadlock(r: Run, steps: seq<Step>)
    requires Reachable(r, steps) && r.lost == {}
    requires forall i :: 0 <= i < |steps| ==> B.Arrived(r.b, KeyAt(steps, i))
    ensures r.b.pointer == |steps| && r.b.parked == {}
    ensures r.b.aborted.None? ==> r.waiting <= r.b.signalled
  {
    ReachableInv(r, steps);
    B.PointerIsFirstMissingStep(r.b, r.lost);
    assert forall k :: k in r.b.parked ==> B.Ahead(steps, |steps|, k);
  }

  /** Arrival order does not matter: runs that lost nobody and received the same arrivals are at
      the same step with the same release order and the same waiters parked. */
  lemma ArrivalOrderIrrelevant(r: Run, s: Run, steps: seq<Step>)
    requires Reachable(r, steps) && Reachable(s, steps) && r.lost == {} && s.lost == {}
    requires forall st :: Counter(r.b.arrivals, st) == Counter(s.b.arrivals, st)
    ensures r.b.pointer == s.b.pointer && r.b.releaseOrder == s.b.releaseOrder && r.b.parked == s.b.parked
  {
    ReachableInv(r, steps);
    ReachableInv(s, steps);
    B.PointerIsFirstMissingStep(r.b, r.lost);
    B.PointerIsFirstMissingStep(s.b, s.lost);
    SameParked(r, s, steps);
    SameParked(s, r, steps);
  }

  lemma SameParked(r: Run, s: Run, steps: seq<Step>)
    requires B.Inv(r.b, {}) && B.Inv(s.b, {}) && r.b.steps == s.b.steps == steps && r.b.pointer == s.b.pointer
    requires forall st :: Counter(r.b.arrivals, st) == Counter(s.b.arrivals, st)
    ensures r.b.parked <= s.b.parked
  {
    forall k | k in r.b.parked ensures k in s.b.parked {
      assert B.Ahead(steps, r.b.pointer, k);
      var i :| r.b.pointer <= i < |steps| && KeyAt(steps, i) == k;
      assert B.Arrived(r.b, KeyAt(steps, i)) && B.Arrived(s.b, KeyAt(steps, i));
    }
  }

  /** Fail closed: whatever happens after an abort, nothing is released, parked or leased again. */
  lemma FailClosed(r: Run, steps: seq<Step>, more: seq<Event>)
    requires Reachable(r, steps) && r.b.aborted.Some?
    ensures var s := Exec(r, more);
            s.b.releaseOrder == r.b.releaseOrder && s.b.aborted == r.b.aborted
            && s.b.parked == {} && s.b.leases == map[] && s.b.leaseTtls == map[]
  {
    ReachableInv(r, steps);
    RunKeeps(r, more);
    var s := Exec(r, more);
    assert s.b.leases.Keys == {} && s.b.leaseTtls.Keys == {};
  }

  /** Answers never lie, however wake-up, timeout and abort raced: 200 (or the injected 500) means
      the key was recorded as released, and every other answer leaves the run aborted. */
  lemma AnswersAreHonest(r: Run, steps: seq<Step>, a: Answer)
    requires Reachable(r, steps) && a in r.answers
    ensures a.code in {200, 500} ==> a.key.Some? && a.key.value in r.b.releaseOrder
    ensures a.code !in {200, 500} ==> r.b.aborted.Some?
  {
    ReachableInv(r, steps);
  }

  ghost predicate Beating(r: Run) {
    forall k :: k in r.b.leases ==>
      k in r.lastBeat && k in r.b.leaseTtls && r.clock < r.lastBeat[k] + r.b.leaseTtls[k]
  }

  /** In every state of the run, each leased waiter parked or beat less than its ttl ago. */
  ghost predicate Attentive(r: Run, es: seq<Event>) {
    Beating(Exec(r, es)) && (|es| > 0 ==> Attentive(r, es[..|es| - 1]))
  }

  /** Leases belong to parked waiters, and a scan finds exactly those silent for their ttl. */
  lemma ScanFindsTheSilent(r: Run, steps: seq<Step>, now: int, k: Key)
    requires Reachable(r, steps)
    ensures r.b.leases.Keys == r.b.leaseTtls.Keys <= r.b.parked
    ensures k in B.Expired(r.b, now) <==>
            k in r.b.leases && k in r.lastBeat && r.lastBeat[k] + r.b.leaseTtls[k] <= now
  {
    ReachableInv(r, steps);
  }

  /** Attentive waiters are never reaped. */
  lemma {:induction false} AttentiveRunIsNeverReaped(steps: seq<Step>, clock: int, faults: set<Key>, es: seq<Event>)
    requires Attentive(Start(steps, clock, faults), es)
    ensures Exec(Start(steps, clock, faults), es).reaping == 0
  {
    if |es| > 0 {
      var front := es[..|es| - 1];
      AttentiveRunIsNeverReaped(steps, clock, faults, front);
      var m := Exec(Start(steps, clock, faults), front);
      assert Reachable(m, steps);
      ReachableInv(m, steps);
      var e := es[|es| - 1];
      if e.ReapScan? && e.now <= m.clock {
        forall k ensures k !in B.Expired(m.b, e.now) {}
      }
    }
  }

  // ------------------------------------------------------------- what a run is certain to do

  /** Nothing goes wrong: steps arrive, time passes, woken threads answer, waiters beat. */
  predicate Peaceful(e: Event) { e.Await? || e.Tick? || e.Wake? || e.Heartbeat? }

  /** The steps that arrived, in order of arrival. */
  function Arriving(es: seq<Event>): seq<Step> {
    if |es| == 0 then []
    else
      var last := es[|es| - 1];
      Arriving(es[..|es| - 1]) + if last.Await? then [Step(last.actor, last.checkpoint)] else []
  }

  ghost predicate Told(r: Run, k: Key) { Answer(Some(k), if k in r.faults then 500 else 200) in r.answers }

  ghost predicate Calm(r: Run) {
    && r.b.aborted.None? && r.lost == {} && r.timedOut == {} && r.raising == multiset{}
    && forall k :: B.Arrived(r.b, k) ==> k in r.waiting || Told(r, k)
  }

  lemma QuietStep(r: Run, e: Event)
    requires Calm(r) && Peaceful(e) && !e.Await?
    ensures Calm(Apply(r, e)) && Apply(r, e).b.arrivals == r.b.arrivals && Apply(r, e).faults == r.faults
  {
    var s := Apply(r, e);
    forall k | B.Arrived(s.b, k) ensures k in s.waiting || Told(s, k) {
      assert B.Arrived(r.b, k);
      if Told(r, k) { assert Answer(Some(k), if k in r.faults then 500 else 200) in s.answers; }
    }
  }

  lemma AwaitStep(r: Run, e: Event)
    requires Inv(r) && Calm(r) && e.Await?
    requires Counter(r.b.arrivals, Step(e.actor, e.checkpoint)) < Count(r.b.steps, Step(e.actor, e.checkpoint))
    ensures var s, st := Apply(r, e), Step(e.actor, e.checkpoint);
            && Calm(s) && s.faults == r.faults
            && forall other :: Counter(s.b.arrivals, other)
                               == Counter(r.b.arrivals, other) + if other == st then 1 else 0
  {
    B.ArrivalIsTakenIn(r.b, r.lost, e.actor, e.checkpoint, e.ttl, r.clock);
    B.ArriveAnswers(r.b, e.actor, e.checkpoint, e.ttl, r.clock);
    var s, st := Apply(r, e), Step(e.actor, e.checkpoint);
    var k := Key(e.actor, e.checkpoint, Counter(r.b.arrivals, st));
    forall x | B.Arrived(s.b, x) ensures x in s.waiting || Told(s, x) {
      if x != k {
        assert B.Arrived(r.b, x);
        if Told(r, x) { assert Answer(Some(x), if x in r.faults then 500 else 200) in s.answers; }
      }
    }
  }

  ghost predicate Counted(r: Run, arrived: seq<Step>) {
    forall st :: Counter(r.b.arrivals, st) == multiset(arrived)[st]
  }

  lemma PeacefulStep(m: Run, e: Event, arrived: seq<Step>)
    requires Inv(m) && Calm(m) && Counted(m, arrived) && Peaceful(e)
    requires e.Await? ==>
               multiset(arrived)[Step(e.actor, e.checkpoint)] < multiset(m.b.steps)[Step(e.actor, e.checkpoint)]
    ensures Calm(Apply(m, e)) && Apply(m, e).faults == m.faults
    ensures Counted(Apply(m, e), arrived + if e.Await? then [Step(e.actor, e.checkpoint)] else [])
  {
    if e.Await? {
      CountIsMultiplicity(m.b.steps, Step(e.actor, e.checkpoint));
      AwaitStep(m, e);
    } else {
      QuietStep(m, e);
      assert arrived + [] == arrived;
    }
  }

  lemma ArrivingFront(es: seq<Event>, steps: seq<Step>)
    requires |es| > 0 && multiset(Arriving(es)) <= multiset(steps)
    ensures multiset(Arriving(es[..|es| - 1])) <= multiset(steps)
    ensures var e := es[|es| - 1];
            e.Await? ==> multiset(Arriving(es[..|es| - 1]))[Step(e.actor, e.checkpoint)]
                           < multiset(steps)[Step(e.actor, e.checkpoint)]
  {
    var front, e := Arriving(es[..|es| - 1]), es[|es| - 1];
    if e.Await? {
      assert multiset(Arriving(es)) == multiset(front) + multiset{Step(e.actor, e.checkpoint)};
      assert multiset(Arriving(es))[Step(e.actor, e.checkpoint)] <= multiset(steps)[Step(e.actor, e.checkpoint)];
    } else {
      assert Arriving(es) == front;
    }
  }

  lemma {:induction false} PeacefulRun(steps: seq<Step>, clock: int, faults: set<Key>, es: seq<Event>)
    requires (forall i :: 0 <= i < |es| ==> Peaceful(es[i])) && multiset(Arriving(es)) <= multiset(steps)
    ensures var r := Exec(Start(steps, clock, faults), es);
            Calm(r) && r.faults == faults && Counted(r, Arriving(es))
  {
    if |es| > 0 {
      var front := es[..|es| - 1];
      ArrivingFront(es, steps);
      PeacefulRun(steps, clock, faults, front);
      StartInv(steps, clock, faults);
      RunKeeps(Start(steps, clock, faults), front);
      PeacefulStep(Exec(Start(steps, clock, faults), front), es[|es| - 1], Arriving(front));
    }
  }

  lemma KeyArrives(r: Run, steps: seq<Step>, i: nat)
    requires i < |steps| && Counted(r, steps)
    ensures B.Arrived(r.b, KeyAt(steps, i))
  {
    CountIsMultiplicity(steps, steps[i]);
    assert steps[..i + 1][..i] == steps[..i];
    CountMonotone(steps, steps[i], i + 1, |steps|);
    assert steps[..|steps|] == steps;
  }

  /** Every arrival order completes: for every schedule, if its steps arrive once each in any order
      and nobody gives up, all are released in the declared order, the run is not aborted, and every
      one of them has had its 200 (or its injected 500) or has its event set and can wake. */
  lemma EveryArrivalOrderCompletes(steps: seq<Step>, clock: int, faults: set<Key>, es: seq<Event>)
    requires (forall i :: 0 <= i < |es| ==> Peaceful(es[i])) && multiset(Arriving(es)) == multiset(steps)
    ensures var r := Exec(Start(steps, clock, faults), es);
            && r.b.pointer == |steps| && r.b.releaseOrder == Declared(steps) && r.b.aborted.None?
            && forall i: nat :: i < |steps| ==>
                 Told(r, KeyAt(steps, i)) || (KeyAt(steps, i) in r.waiting && KeyAt(steps, i) in r.b.signalled)
  {
    var r := Exec(Start(steps, clock, faults), es);
    PeacefulRun(steps, clock, faults, es);
    assert Reachable(r, steps) && Counted(r, steps);
    forall i: nat | i < |steps| ensures B.Arrived(r.b, KeyAt(steps, i)) { KeyArrives(r, steps, i); }
    NoDeadlock(r, steps);
    ScheduleExecutedIffComplete(r, steps);
  }

  /** A thread whose event is set wakes and is told of its release. */
  lemma WokenIsTold(r: Run, k: Key)
    requires r.b.aborted.None? && k in r.waiting && k in r.b.signalled
    ensures k !in Apply(r, Wake(k)).waiting && Told(Apply(r, Wake(k)), k)
  {
  }

  lemma ExecOne(r: Run, es: seq<Event>, e: Event)
    ensures Exec(r, es + [e]) == Apply(Exec(r, es), e)
  {
  }

  /** An abort wakes everyone: in every state after it, each thread still blocked has its event set or
      is about to, and wakes to 409. */
  lemma AbortWakesEveryone(r: Run, steps: seq<Step>, k: Key)
    requires Reachable(r, steps) && r.b.aborted.Some? && k in r.waiting
    ensures var s := Exec(r, [SignalAborted(k), Wake(k)]);
            k !in s.waiting && |s.answers| == |r.answers| + 1 && s.answers[|r.answers|] == Answer(Some(k), 409)
  {
    ReachableInv(r, steps);
    ExecOne(r, [], SignalAborted(k));
    ExecOne(r, [SignalAborted(k)], Wake(k));
    assert [] + [SignalAborted(k)] == [SignalAborted(k)];
    assert [SignalAborted(k)] + [Wake(k)] == [SignalAborted(k), Wake(k)];
  }

  /** A refused request takes the run down with it: one refused for its headers, and one whose step has
      arrived as often as it is declared. */
  lemma RefusalsAbort(r: Run, code: int, actor: string, checkpoint: string, ttl: Option<int>)
    requires code in {400, 409} && r.b.aborted.None?
    requires Counter(r.b.arrivals, Step(actor, checkpoint)) >= Count(r.b.steps, Step(actor, checkpoint))
    ensures var s := Apply(r, Reject(code)); s.b.aborted.Some? && Answer(None, code) in s.answers
    ensures var s := Apply(Apply(r, Await(actor, checkpoint, ttl)), AbortRaised(409));
            s.b.aborted.Some? && Answer(None, 409) in s.answers
  {
  }

  lemma Reaped(r: Run, now: int)
    requires now <= r.clock && B.Expired(r.b, now) != {}
    ensures Apply(Apply(r, ReapScan(now)), ReapAbort).b.aborted.Some?
  {
  }

  /** A waiter that was silent for its ttl brings the run down at the next scan. */
  lemma SilenceIsReaped(r: Run, steps: seq<Step>, k: Key, now: int)
    requires Reachable(r, steps) && k in r.b.leases && now <= r.clock
    requires k in r.lastBeat && k in r.b.leaseTtls && r.lastBeat[k] + r.b.leaseTtls[k] <= now
    ensures Exec(r, [ReapScan(now), ReapAbort]).b.aborted.Some?
  {
    ScanFindsTheSilent(r, steps, now, k);
    ExecOne(r, [], ReapScan(now));
    ExecOne(r, [ReapScan(now)], ReapAbort);
    assert [] + [ReapScan(now)] == [ReapScan(now)] && [ReapScan(now)] + [ReapAbort] == [ReapScan(now), ReapAbort];
    assert k in B.Expired(r.b, now);
    Reaped(r, now);
  }

  lemma GivesUp(r: Run, k: Key)
    requires k in r.timedOut && k !in r.waiting
    ensures var s := Apply(Apply(r, TimeOutLocked(k)), AbortRaised(504));
            s.b.aborted.Some? && k !in s.waiting && k !in s.b.parked && Answer(None, 504) in s.answers
  {
    assert 504 in Apply(r, TimeOutLocked(k)).raising;
  }

  /** A waiter that is never released gives up with 504, and the run with it. */
  lemma NeverReleasedAborts(r: Run, k: Key)
    requires k in r.waiting && k !in r.b.signalled
    ensures var s := Exec(r, [TimeOut(k), TimeOutLocked(k), AbortRaised(504)]);
            s.b.aborted.Some? && k !in s.waiting && k !in s.b.parked && Answer(None, 504) in s.answers
  {
    var a, b := TimeOut(k), TimeOutLocked(k);
    ExecOne(r, [], a);
    ExecOne(r, [a], b);
    ExecOne(r, [a, b], AbortRaised(504));
    assert [] + [a] == [a] && [a] + [b] == [a, b] && [a, b] + [AbortRaised(504)] == [a, b, AbortRaised(504)];
    GivesUp(Apply(r, a), k);
  }
}
