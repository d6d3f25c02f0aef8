/** libs/procguard.py: which processes descend from one this session claimed. */
module ProcGuard {
  import opened Sorting

  /** parent_of.get(pid, 0). */
  function Parent(parents: map<int, int>, pid: int): int {
    if pid in parents then parents[pid] else 0
  }

  function Ancestor(parents: map<int, int>, pid: int, n: nat): int {
    if n == 0 then pid else Parent(parents, Ancestor(parents, pid, n - 1))
  }

  ghost predicate NonZeroTo(parents: map<int, int>, pid: int, n: nat) {
    forall m: nat :: m <= n ==> Ancestor(parents, pid, m) != 0
  }

  /** Some ancestor, the pid itself included, is claimed, and no step on the way to it is 0. */
  ghost predicate Descends(claimed: set<int>, parents: map<int, int>, pid: int) {
    exists n: nat :: NonZeroTo(parents, pid, n) && Ancestor(parents, pid, n) in claimed
  }

  lemma {:induction false} AncestorOfParent(parents: map<int, int>, pid: int, n: nat)
    ensures Ancestor(parents, pid, n + 1) == Ancestor(parents, Parent(parents, pid), n)
  {
    if n == 0 {
      assert Ancestor(parents, pid, 0) == pid;
    } else {
      AncestorOfParent(parents, pid, n - 1);
    }
  }

  /** A claim extends down the process tree and no further: a process belongs to the session
      exactly when it is claimed or it is in the table and its parent there belongs. */
  lemma DescendsThroughParent(claimed: set<int>, parents: map<int, int>, pid: int)
    ensures Descends(claimed, parents, pid) <==>
            pid != 0 && (pid in claimed || (pid in parents && Descends(claimed, parents, parents[pid])))
  {
    ParentDescends(claimed, parents, pid);
    ParentDescends(claimed, parents, 0);
  }

  lemma ParentDescends(claimed: set<int>, parents: map<int, int>, pid: int)
    ensures Descends(claimed, parents, pid) <==>
            pid != 0 && (pid in claimed || Descends(claimed, parents, Parent(parents, pid)))
  {
    var up := Parent(parents, pid);
    assert Ancestor(parents, pid, 0) == pid;
    if Descends(claimed, parents, pid) {
      var n: nat :| NonZeroTo(parents, pid, n) && Ancestor(parents, pid, n) in claimed;
      assert Ancestor(parents, pid, 0) != 0;
      if n > 0 {
        AncestorOfParent(parents, pid, n - 1);
        forall m: nat | m <= n - 1 ensures Ancestor(parents, up, m) != 0 {
          AncestorOfParent(parents, pid, m);
          assert Ancestor(parents, pid, m + 1) != 0;
        }
        assert NonZeroTo(parents, up, n - 1);
      }
    }
    if pid != 0 && pid in claimed {
      assert NonZeroTo(parents, pid, 0);
    }
    if pid != 0 && Descends(claimed, parents, up) {
      var n: nat :| NonZeroTo(parents, up, n) && Ancestor(parents, up, n) in claimed;
      AncestorOfParent(parents, pid, n);
      forall m: nat | m <= n + 1 ensures Ancestor(parents, pid, m) != 0 {
        if m > 0 {
          AncestorOfParent(parents, pid, m - 1);
          assert Ancestor(parents, up, m - 1) != 0;
        }
      }
      assert NonZeroTo(parents, pid, n + 1);
    }
  }

  ghost predicate SeenBefore(parents: map<int, int>, pid: int, k: nat, x: int) {
    exists i: nat :: i < k && Ancestor(parents, pid, i) == x
  }

  /** Once the walk meets a pid again it never meets a new one. */
  lemma {:induction false} CycleAddsNothing(parents: map<int, int>, pid: int, k: nat, n: nat)
    requires SeenBefore(parents, pid, k, Ancestor(parents, pid, k))
    ensures SeenBefore(parents, pid, k, Ancestor(parents, pid, n))
  {
    if n < k {
      assert SeenBefore(parents, pid, k, Ancestor(parents, pid, n));
    } else if n > k {
      CycleAddsNothing(parents, pid, k, n - 1);
      var i: nat :| i < k && Ancestor(parents, pid, i) == Ancestor(parents, pid, n - 1);
      assert Ancestor(parents, pid, n) == Ancestor(parents, pid, i + 1);
      if i + 1 < k {
        assert SeenBefore(parents, pid, k, Ancestor(parents, pid, i + 1));
      } else {
        assert i + 1 == k;
      }
    }
  }

  ghost predicate NoneClaimed(claimed: set<int>, parents: map<int, int>, pid: int, k: nat) {
    forall i: nat :: i < k ==> Ancestor(parents, pid, i) !in claimed
  }

  lemma StoppedUnclaimed(claimed: set<int>, parents: map<int, int>, pid: int, k: nat)
    requires NoneClaimed(claimed, parents, pid, k)
    requires Ancestor(parents, pid, k) == 0 || SeenBefore(parents, pid, k, Ancestor(parents, pid, k))
    ensures !Descends(claimed, parents, pid)
  {
    forall n: nat | NonZeroTo(parents, pid, n) ensures Ancestor(parents, pid, n) !in claimed {
      if Ancestor(parents, pid, k) == 0 {
        assert n < k;
      } else {
        CycleAddsNothing(parents, pid, k, n);
      }
    }
  }

  class ProcessOwnership {
    var claimed: set<int>

    constructor ()
      ensures claimed == {}
    {
      claimed := {};
    }

    method Claim(pid: int)
      modifies this
      ensures claimed == old(claimed) + {pid}
    {
      claimed := claimed + {pid};
    }

    method Release(pid: int)
      modifies this
      ensures claimed == old(claimed) - {pid}
    {
      claimed := claimed - {pid};
    }

    /** The pids that descend from nothing claimed, sorted, each as often as it was given. */
    method Foreign(pids: seq<int>, parents: map<int, int>) returns (r: seq<int>)
      ensures forall i, j :: 0 <= i < j < |r| ==> r[i] <= r[j]
      ensures forall p :: multiset(r)[p] == if Descends(claimed, parents, p) then 0 else multiset(pids)[p]
    {
      r := [];
      for i := 0 to |pids|
        invariant Sorted(r, IntOrder)
        invariant forall p :: multiset(r)[p] == if Descends(claimed, parents, p) then 0 else multiset(pids[..i])[p]
      {
        var owned := Owns(pids[i], parents);
        assert pids[..i + 1] == pids[..i] + [pids[i]];
        if !owned {
          InsertSorts(r, pids[i], IntOrder);
          InsertPermutes(r, pids[i], IntOrder);
          r := Insert(r, pids[i], IntOrder);
        }
      }
      assert pids[..|pids|] == pids;
    }

    /** Terminates on every table, cycles included. */
    method Owns(pid: int, parents: map<int, int>) returns (owned: bool)
      ensures owned <==> Descends(claimed, parents, pid)
    {
      var seen: set<int> := {};
      var current := pid;
      ghost var k: nat := 0;
      ghost var all := parents.Keys + parents.Values + {pid, 0};
      while current != 0 && current !in seen
        invariant current == Ancestor(parents, pid, k) && current in all && seen <= all
        invariant forall x :: x in seen <==> SeenBefore(parents, pid, k, x)
        invariant NoneClaimed(claimed, parents, pid, k)
        invariant forall i: nat :: i < k ==> Ancestor(parents, pid, i) != 0
        decreases all - seen
      {
        if current in claimed {
          assert NonZeroTo(parents, pid, k);
          return true;
        }
        seen := seen + {current};
        current := Parent(parents, current);
        k := k + 1;
        forall x ensures x in seen <==> SeenBefore(parents, pid, k, x) {
          if SeenBefore(parents, pid, k - 1, x) {
            var i: nat :| i < k - 1 && Ancestor(parents, pid, i) == x;
            assert i < k;
          }
          assert Ancestor(parents, pid, k - 1) in seen;
        }
      }
      StoppedUnclaimed(claimed, parents, pid, k);
      return false;
    }
  }
}
