/** Shared value types and the sums that every money total in the project is built from. */
module Base {
  datatype Option<+T> = None | Some(value: T)

  function Max0(x: int): nat {
    if x < 0 then 0 else x
  }

  /** Where a row with this key is, if any: the row a unique column finds. */
  function FindBy<T>(rows: seq<T>, keyOf: T -> string, key: string): (r: Option<nat>)
    ensures r.Some? ==> r.value < |rows| && keyOf(rows[r.value]) == key
    ensures r.None? ==> forall i: nat :: i < |rows| ==> keyOf(rows[i]) != key
  {
    if |rows| == 0 then None
    else if keyOf(rows[|rows| - 1]) == key then Some(|rows| - 1)
    else FindBy(rows[..|rows| - 1], keyOf, key)
  }

  /** Sum of `f` over `s`: SQL's COALESCE(SUM(...), 0), the filter being part of `f`. */
  function Sum<T>(s: seq<T>, f: T -> int): int {
    if |s| == 0 then 0 else Sum(s[..|s| - 1], f) + f(s[|s| - 1])
  }

  lemma SumAppend<T>(s: seq<T>, x: T, f: T -> int)
    ensures Sum(s + [x], f) == Sum(s, f) + f(x)
  {
  }

  lemma {:induction false} SumConcat<T>(s: seq<T>, t: seq<T>, f: T -> int)
    ensures Sum(s + t, f) == Sum(s, f) + Sum(t, f)
  {
    if |t| == 0 {
      assert s + t == s;
    } else {
      assert s + t == (s + t[..|t| - 1]) + [t[|t| - 1]];
      SumAppend(s + t[..|t| - 1], t[|t| - 1], f);
      SumConcat(s, t[..|t| - 1], f);
    }
  }

  lemma {:induction false} SumUpdate<T>(s: seq<T>, i: nat, x: T, f: T -> int)
    requires i < |s|
    ensures Sum(s[i := x], f) == Sum(s, f) - f(s[i]) + f(x)
  {
    var n := |s| - 1;
    if i == n {
      assert s[i := x][..n] == s[..n];
    } else {
      assert s[i := x][..n] == s[..n][i := x];
      SumUpdate(s[..n], i, x, f);
    }
  }

  /** Pointwise comparison of two sums over sequences of one length. */
  lemma {:induction false} SumLe<T, U>(s: seq<T>, f: T -> int, t: seq<U>, g: U -> int)
    requires |s| == |t|
    requires forall i :: 0 <= i < |s| ==> f(s[i]) <= g(t[i])
    ensures Sum(s, f) <= Sum(t, g)
  {
    if |s| > 0 {
      var n := |s| - 1;
      assert s[n] == s[n] && f(s[n]) <= g(t[n]);
      forall i | 0 <= i < n ensures f(s[..n][i]) <= g(t[..n][i]) {
        assert f(s[i]) <= g(t[i]);
      }
      SumLe(s[..n], f, t[..n], g);
    }
  }

  /** A sum is unchanged, element by element, by a rewrite that keeps every weight. */
  lemma SumEq<T, U>(s: seq<T>, f: T -> int, t: seq<U>, g: U -> int)
    requires |s| == |t|
    requires forall i :: 0 <= i < |s| ==> f(s[i]) == g(t[i])
    ensures Sum(s, f) == Sum(t, g)
  {
  }

  lemma {:induction false} SumSplit<T>(s: seq<T>, f: T -> int, g: T -> int, h: T -> int)
    requires forall i :: 0 <= i < |s| ==> f(s[i]) == g(s[i]) + h(s[i])
    ensures Sum(s, f) == Sum(s, g) + Sum(s, h)
  {
    if |s| > 0 {
      var n := |s| - 1;
      assert f(s[n]) == g(s[n]) + h(s[n]);
      forall i | 0 <= i < n ensures f(s[..n][i]) == g(s[..n][i]) + h(s[..n][i]) {
        assert f(s[i]) == g(s[i]) + h(s[i]);
      }
      SumSplit(s[..n], f, g, h);
    }
  }
}
