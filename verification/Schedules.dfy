/** apps/coordinator/schedule.py: the declared step list, its pointer, and the
    occurrence numbers the coordinator assigns. */
module Schedules {
  import opened Base

  datatype Step = Step(actor: string, checkpoint: string)
  datatype Key = Key(actor: string, checkpoint: string, occurrence: nat)

  function StepOf(k: Key): Step { Step(k.actor, k.checkpoint) }

  /** How often `st` occurs in `steps`. */
  function Count(steps: seq<Step>, st: Step): nat {
    if |steps| == 0 then 0
    else Count(steps[..|steps| - 1], st) + if steps[|steps| - 1] == st then 1 else 0
  }

  /** The key of the i-th declared step: its occurrence is the number of equal steps before it. */
  function KeyAt(steps: seq<Step>, i: nat): Key
    requires i < |steps|
  {
    Key(steps[i].actor, steps[i].checkpoint, Count(steps[..i], steps[i]))
  }

  function Declared(steps: seq<Step>): seq<Key> {
    seq(|steps|, i requires 0 <= i < |steps| => KeyAt(steps, i))
  }

  lemma {:induction false} CountMonotone(steps: seq<Step>, st: Step, i: nat, j: nat)
    requires i <= j <= |steps|
    ensures Count(steps[..i], st) <= Count(steps[..j], st)
  {
    if i < j {
      assert steps[..j][..j - 1] == steps[..j - 1];
      CountMonotone(steps, st, i, j - 1);
    }
  }

  lemma {:induction false} CountIsMultiplicity(steps: seq<Step>, st: Step)
    ensures Count(steps, st) == multiset(steps)[st]
  {
    if |steps| > 0 {
      var n := |steps| - 1;
      assert steps == steps[..n] + [steps[n]];
      CountIsMultiplicity(steps[..n], st);
    }
  }

  /** Occurrence numbering is injective: repeated steps get distinct keys. */
  lemma KeysDistinct(steps: seq<Step>, i: nat, j: nat)
    requires i < j < |steps|
    ensures KeyAt(steps, i) != KeyAt(steps, j)
  {
    if steps[i] == steps[j] {
      assert steps[..i + 1][..i] == steps[..i];
      CountMonotone(steps, steps[i], i + 1, j);
    }
  }

  /** Occurrence numbering is gap-free: a key is declared exactly when its occurrence is
      below the number of times its step is declared. */
  lemma {:induction false} DeclaredIffBelowCount(steps: seq<Step>, k: Key)
    ensures k in Declared(steps) <==> k.occurrence < Count(steps, StepOf(k))
  {
    if |steps| > 0 {
      var n := |steps| - 1;
      var front := steps[..n];
      DeclaredIffBelowCount(front, k);
      assert Declared(steps) == Declared(front) + [KeyAt(steps, n)] by {
        forall i | 0 <= i < n ensures Declared(steps)[i] == Declared(front)[i] {
          assert front[..i] == steps[..i];
        }
      }
    }
  }

  class Schedule {
    const scheduleId: string
    const steps: seq<Step>
    var pointer: nat
    var arrivals: map<Step, nat>
    const stepOccurrence: seq<nat>
    const declared: set<Key>

    ghost predicate Valid()
      reads this
    {
      && |stepOccurrence| == |steps|
      && (forall i :: 0 <= i < |steps| ==> stepOccurrence[i] == KeyAt(steps, i).occurrence)
      && (forall k :: k in declared <==> k in Declared(steps))
      && pointer <= |steps|
    }

    constructor (scheduleId: string, steps: seq<Step>)
      ensures Valid() && pointer == 0 && arrivals == map[]
      ensures this.scheduleId == scheduleId && this.steps == steps
    {
      var occurrence: seq<nat> := [];
      var seen: map<Step, nat> := map[];
      var keys: set<Key> := {};
      for i := 0 to |steps|
        invariant |occurrence| == i
        invariant forall st :: Counter(seen, st) == Count(steps[..i], st)
        invariant forall j :: 0 <= j < i ==> occurrence[j] == KeyAt(steps, j).occurrence
        invariant forall k :: k in keys <==> exists j :: 0 <= j < i && KeyAt(steps, j) == k
      {
        var st := steps[i];
        var n := Counter(seen, st);
        occurrence := occurrence + [n];
        keys := keys + {Key(st.actor, st.checkpoint, n)};
        seen := seen[st := n + 1];
        assert steps[..i + 1][..i] == steps[..i];
        assert KeyAt(steps, i) == Key(st.actor, st.checkpoint, n);
      }
      assert steps[..|steps|] == steps;
      this.scheduleId, this.steps := scheduleId, steps;
      pointer, arrivals := 0, map[];
      stepOccurrence, declared := occurrence, keys;
      new;
      forall k ensures k in declared <==> k in Declared(steps) {
        if k in Declared(steps) {
          var j :| 0 <= j < |steps| && Declared(steps)[j] == k;
          assert KeyAt(steps, j) == k;
        }
        if k in keys {
          var j :| 0 <= j < |steps| && KeyAt(steps, j) == k;
          assert Declared(steps)[j] == k;
        }
      }
    }

    predicate IsComplete()
      reads this
    {
      pointer >= |steps|
    }

    function KnownActors(): (actors: set<string>)
      reads this
      ensures forall a :: a in actors <==> exists i :: 0 <= i < |steps| && steps[i].actor == a
    {
      set i | 0 <= i < |steps| :: steps[i].actor
    }

    function CurrentStep(): (k: Option<Key>)
      requires Valid()
      reads this
      ensures k == CurrentKey(steps, pointer)
    {
      if IsComplete() then None
      else Some(Key(steps[pointer].actor, steps[pointer].checkpoint, stepOccurrence[pointer]))
    }

    /** None is UndeclaredOccurrence; otherwise the occurrence and whether it is at the pointer. */
    method Arrive(actor: string, checkpoint: string) returns (r: Option<(nat, bool)>)
      requires Valid()
      modifies this`arrivals
      ensures Valid()
      ensures var st := Step(actor, checkpoint);
              var n := Counter(old(arrivals), st);
              if n < Count(steps, st)
              then r == Some((n, CurrentKey(steps, pointer) == Some(Key(actor, checkpoint, n))))
                   && arrivals == old(arrivals)[st := n + 1]
              else r == None && arrivals == old(arrivals)
    {
      var st := Step(actor, checkpoint);
      var n := Counter(arrivals, st);
      DeclaredIffBelowCount(steps, Key(actor, checkpoint, n));
      if Key(actor, checkpoint, n) !in declared {
        return None;
      }
      arrivals := arrivals[st := n + 1];
      var isNext := MatchesPointer(st, n);
      return Some((n, isNext));
    }

    method Advance()
      requires Valid()
      modifies this`pointer
      ensures pointer == old(pointer) + 1 && (old(pointer) < |steps| ==> Valid())
    {
      pointer := pointer + 1;
    }

    predicate MatchesPointer(st: Step, occurrence: nat)
      requires Valid()
      reads this
    {
      if IsComplete() then false
      else steps[pointer] == st && stepOccurrence[pointer] == occurrence
    }
  }

  /** Reading a Counter: 0 for a key it has never seen. */
  function Counter(c: map<Step, nat>, st: Step): nat {
    if st in c then c[st] else 0
  }

  /** The key the pointer waits on, or None past the last step. */
  function CurrentKey(steps: seq<Step>, pointer: nat): Option<Key> {
    if pointer < |steps| then Some(KeyAt(steps, pointer)) else None
  }

  /** schedules/runner.py's own numbering, computed from the spec file without the coordinator. */
  method ExpectedReleaseOrder(steps: seq<Step>) returns (order: seq<Key>)
    ensures order == Declared(steps)
  {
    order := [];
    var seen: map<Step, nat> := map[];
    for i := 0 to |steps|
      invariant order == Declared(steps)[..i]
      invariant forall st :: Counter(seen, st) == Count(steps[..i], st)
    {
      var st := steps[i];
      order := order + [Key(st.actor, st.checkpoint, Counter(seen, st))];
      seen := seen[st := Counter(seen, st) + 1];
      assert steps[..i + 1][..i] == steps[..i];
    }
  }
}
