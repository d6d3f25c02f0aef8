/** apps/coordinator/barrier.py and the /await handler of apps/coordinator/main.py. `wait` is
    split where the lock is dropped: `Enter` before the event, `TimedOut` after it. */
module Coordinator {
  import opened Base
  import opened Schedules
  import BarrierSpec

  class Barrier {
    const schedule: Schedule
    var parked: set<Key>
    var signalled: set<Key>
    var leases: map<Key, int>
    var leaseTtls: map<Key, int>
    var releaseOrder: seq<Key>
    var aborted: Option<string>

    ghost predicate Valid()
      reads this, schedule
    {
      schedule.Valid() && leases.Keys == leaseTtls.Keys
    }

    ghost function State(): BarrierSpec.State
      reads this, schedule
    {
      BarrierSpec.State(schedule.steps, schedule.pointer, schedule.arrivals,
                        parked, leases, leaseTtls, releaseOrder, aborted, signalled)
    }

    constructor (schedule: Schedule)
      requires schedule.Valid() && schedule.pointer == 0 && schedule.arrivals == map[]
      ensures Valid() && this.schedule == schedule && State() == BarrierSpec.Init(schedule.steps)
    {
      this.schedule := schedule;
      parked, signalled, leases, leaseTtls, releaseOrder, aborted := {}, {}, map[], map[], [], None;
    }

    /** The event of every parked waiter is set after the lock is dropped; here, at once. */
    method Abort(reason: string)
      requires Valid()
      modifies this
      ensures Valid()
      ensures State() == BarrierSpec.Abort(old(State()), reason).(signalled := old(signalled + parked))
      ensures aborted == (if old(aborted).None? then Some(reason) else old(aborted)) && parked == {}
    {
      if aborted.None? {
        aborted := Some(reason);
      }
      var waiters := parked;
      parked, leases, leaseTtls := {}, map[], map[];
      signalled := signalled + waiters;
    }

    /** The first locked section of `wait`. */
    method Enter(actor: string, checkpoint: string, ttl: Option<int>, now: int)
      returns (r: BarrierSpec.Arrival)
      requires Valid()
      modifies this, schedule
      ensures Valid()
      ensures (State(), r) == BarrierSpec.Arrive(old(State()), actor, checkpoint, ttl, now)
    {
      if aborted.Some? {
        return BarrierSpec.AlreadyAborted;
      }
      var arrival := schedule.Arrive(actor, checkpoint);
      if arrival.None? {
        return BarrierSpec.Undeclared;
      }
      var (occurrence, isNext) := arrival.value;
      var key := Key(actor, checkpoint, occurrence);
      if isNext {
        AdvanceLocked(key);
        return BarrierSpec.Released(key);
      }
      parked := parked + {key};
      if ttl.Some? {
        leases := leases[key := now + ttl.value];
        leaseTtls := leaseTtls[key := ttl.value];
      }
      return BarrierSpec.Parked(key);
    }

    /** The locked section of `wait` after its event was not set in time. */
    method TimedOut(key: Key)
      requires Valid()
      modifies this
      ensures Valid() && State() == BarrierSpec.Unpark(old(State()), key)
      ensures parked == old(parked) - {key} && leases == old(leases) - {key}
    {
      parked, leases, leaseTtls := parked - {key}, leases - {key}, leaseTtls - {key};
    }

    method Heartbeat(key: Key, now: int) returns (refreshed: bool)
      requires Valid()
      modifies this
      ensures Valid() && State() == BarrierSpec.Heartbeat(old(State()), key, now)
      ensures refreshed <==> key in old(leases)
      ensures leases == if refreshed then old(leases)[key := now + old(leaseTtls)[key]] else old(leases)
    {
      if key !in leases {
        return false;
      }
      leases := leases[key := now + leaseTtls[key]];
      return true;
    }

    method Reap(now: int) returns (expired: set<Key>)
      requires Valid()
      modifies this
      ensures Valid() && expired == set k | k in old(leases) && old(leases)[k] <= now
      ensures State() == if expired == {} then old(State())
                         else BarrierSpec.Abort(old(State()), "lease expired").(signalled := old(signalled + parked))
    {
      expired := set k | k in leases && leases[k] <= now;
      if expired != {} {
        Abort("lease expired");
      }
    }

    method AdvanceLocked(key: Key)
      requires Valid() && schedule.pointer < |schedule.steps|
      modifies this, schedule`pointer
      ensures Valid()
      ensures State() == BarrierSpec.Cascade(BarrierSpec.Record(old(State()), key))
    {
      releaseOrder := releaseOrder + [key];
      leases, leaseTtls := leases - {key}, leaseTtls - {key};
      schedule.Advance();
      ghost var recorded := BarrierSpec.Record(old(State()), key);
      assert State() == recorded;
      while true
        invariant Valid()
        invariant BarrierSpec.Cascade(State()) == BarrierSpec.Cascade(recorded)
        decreases |schedule.steps| - schedule.pointer
      {
        ghost var before := State();
        var step := schedule.CurrentStep();
        if step.None? {
          return;
        }
        if step.value !in parked {
          return;
        }
        parked := parked - {step.value};
        leases, leaseTtls := leases - {step.value}, leaseTtls - {step.value};
        releaseOrder := releaseOrder + [step.value];
        signalled := signalled + {step.value};
        schedule.Advance();
        assert State() == BarrierSpec.Record(BarrierSpec.Popped(before, step.value), step.value);
      }
    }
  }

  /** What /await has answered so far: a status code, or the waiter is blocked in `wait`. */
  datatype Reply = Answered(code: int) | Blocked(key: Key)

  class Await {
    const barrier: Barrier
    const leaseTtl: int
    const faults: set<Key>

    constructor (barrier: Barrier, leaseTtl: int, faults: set<Key>)
      ensures this.barrier == barrier && this.leaseTtl == leaseTtl && this.faults == faults
    {
      this.barrier, this.leaseTtl, this.faults := barrier, leaseTtl, faults;
    }

    predicate Missing(header: Option<string>) { header.None? || header.value == "" }

    /** Refused with 400, in the handler's order: a mismatched schedule is 409 before the actor is
        looked up. */
    predicate Malformed(actor: Option<string>, scheduleId: Option<string>) {
      || Missing(actor) || Missing(scheduleId)
      || (scheduleId.value == barrier.schedule.scheduleId
          && forall i :: 0 <= i < |barrier.schedule.steps| ==> barrier.schedule.steps[i].actor != actor.value)
    }

    /** The handler up to the point where it blocks. A missing header is None or empty. */
    method Handle(checkpoint: string, actor: Option<string>, scheduleId: Option<string>, now: int)
      returns (r: Reply)
      requires barrier.Valid()
      modifies barrier, barrier.schedule
      ensures barrier.Valid()
      ensures r.Answered? && r.code != 200 && r.code != 500 ==> barrier.aborted.Some?
      ensures old(barrier.aborted).Some? ==> r == Answered(409)
      ensures r.Answered? && (r.code == 200 || r.code == 500) ==>
                old(barrier.aborted).None? && actor.Some?
                && (exists n: nat :: Key(actor.value, checkpoint, n) in barrier.releaseOrder
                      && (r.code == 500 <==> Key(actor.value, checkpoint, n) in faults))
      ensures r.Blocked? ==> r.key in barrier.parked && barrier.releaseOrder == old(barrier.releaseOrder)
      ensures barrier.aborted.Some? ==> barrier.releaseOrder == old(barrier.releaseOrder)
      ensures old(barrier.aborted).None? ==> (r == Answered(400) <==> Malformed(actor, scheduleId))
      ensures barrier.aborted.None? ==>
                && actor.Some? && scheduleId == Some(barrier.schedule.scheduleId)
                && barrier.State()
                   == BarrierSpec.Arrive(old(barrier.State()), actor.value, checkpoint, Some(leaseTtl), now).0
    {
      if barrier.aborted.Some? {
        return Answered(409);
      }
      if actor.None? || actor.value == "" {
        barrier.Abort("missing X-Actor-Id");
        return Answered(400);
      }
      if scheduleId.None? || scheduleId.value == "" {
        barrier.Abort("missing X-Schedule-Id");
        return Answered(400);
      }
      if scheduleId.value != barrier.schedule.scheduleId {
        barrier.Abort("schedule mismatch");
        return Answered(409);
      }
      if actor.value !in barrier.schedule.KnownActors() {
        barrier.Abort("unknown actor");
        return Answered(400);
      }
      ghost var before := barrier.State();
      BarrierSpec.ArriveAnswers(before, actor.value, checkpoint, Some(leaseTtl), now);
      var arrival := barrier.Enter(actor.value, checkpoint, Some(leaseTtl), now);
      match arrival
      case AlreadyAborted =>
        assert false;
      case Undeclared =>
        barrier.Abort("undeclared occurrence");
        return Answered(409);
      case Released(key) =>
        assert key == Key(actor.value, checkpoint, key.occurrence);
        return Answered(if key in faults then 500 else 200);
      case Parked(key) =>
        return Blocked(key);
    }

    /** The rest of the handler for a waiter whose event was set: only a recorded release answers
        200 or the injected 500, also when an abort overtook the wake-up. */
    method Woken(key: Key, ghost lost: set<Key>) returns (code: int)
      requires barrier.Valid() && BarrierSpec.Inv(barrier.State(), lost) && key in barrier.signalled
      ensures code == 409 <==> barrier.aborted.Some?
      ensures code != 409 ==> key in barrier.releaseOrder && (if key in faults then code == 500 else code == 200)
    {
      if barrier.aborted.Some? {
        return 409;
      }
      code := if key in faults then 500 else 200;
    }

    /** The rest of the handler for a waiter whose event was not set in time. */
    method GaveUp(key: Key) returns (code: int)
      requires barrier.Valid()
      modifies barrier
      ensures barrier.Valid() && code == 504 && barrier.aborted.Some?
      ensures barrier.parked == {} && barrier.leases == map[] && barrier.releaseOrder == old(barrier.releaseOrder)
      ensures barrier.signalled == old(barrier.signalled + (barrier.parked - {key}))
    {
      barrier.TimedOut(key);
      barrier.Abort("never released");
      return 504;
    }
  }
}
