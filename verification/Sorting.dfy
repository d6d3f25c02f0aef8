/** Python's sorted(), built by insertion, for any total order. */
module Sorting {
  ghost predicate Order<T(!new)>(le: (T, T) -> bool) {
    && (forall x, y :: le(x, y) || le(y, x))
    && (forall x, y, z :: le(x, y) && le(y, z) ==> le(x, z))
  }

  ghost predicate Sorted<T>(s: seq<T>, le: (T, T) -> bool) {
    forall i, j :: 0 <= i < j < |s| ==> le(s[i], s[j])
  }

  function Insert<T>(s: seq<T>, x: T, le: (T, T) -> bool): seq<T> {
    if |s| == 0 || le(x, s[0]) then [x] + s else [s[0]] + Insert(s[1..], x, le)
  }

  lemma {:induction false} InsertPermutes<T>(s: seq<T>, x: T, le: (T, T) -> bool)
    ensures multiset(Insert(s, x, le)) == multiset(s) + multiset{x}
  {
    if |s| > 0 && !le(x, s[0]) {
      InsertPermutes(s[1..], x, le);
      assert s == [s[0]] + s[1..];
    }
  }

  ghost predicate AllAfter<T>(s: seq<T>, lo: T, le: (T, T) -> bool) {
    forall i :: 0 <= i < |s| ==> le(lo, s[i])
  }

  lemma {:induction false} InsertAfter<T>(s: seq<T>, x: T, lo: T, le: (T, T) -> bool)
    requires AllAfter(s, lo, le) && le(lo, x)
    ensures AllAfter(Insert(s, x, le), lo, le)
  {
    if |s| > 0 && !le(x, s[0]) {
      InsertAfter(s[1..], x, lo, le);
    }
  }

  lemma {:induction false} InsertSorts<T(!new)>(s: seq<T>, x: T, le: (T, T) -> bool)
    requires Order(le) && Sorted(s, le)
    ensures Sorted(Insert(s, x, le), le)
  {
    if |s| > 0 && !le(x, s[0]) {
      InsertSorts(s[1..], x, le);
      InsertAfter(s[1..], x, s[0], le);
    }
  }

  predicate IntOrder(x: int, y: int) { x <= y }

  /** Strings compare character by character, a prefix first. */
  predicate TextOrder(x: string, y: string) {
    |x| == 0 || (|y| > 0 && (x[0] < y[0] || (x[0] == y[0] && TextOrder(x[1..], y[1..]))))
  }

  lemma {:induction false} TextTotal(x: string, y: string)
    ensures TextOrder(x, y) || TextOrder(y, x)
  {
    if |x| > 0 && |y| > 0 && x[0] == y[0] {
      TextTotal(x[1..], y[1..]);
    }
  }

  lemma {:induction false} TextTransitive(x: string, y: string, z: string)
    requires TextOrder(x, y) && TextOrder(y, z)
    ensures TextOrder(x, z)
  {
    if |x| > 0 && x[0] == y[0] == z[0] {
      TextTransitive(x[1..], y[1..], z[1..]);
    }
  }

  /** `x` is a prefix of `y`, or where they first differ it has the smaller character. */
  ghost predicate Lexicographic(x: string, y: string) {
    x <= y || exists n: nat :: n < |x| && n < |y| && x[..n] == y[..n] && x[n] < y[n]
  }

  lemma {:induction false} TextOrderIsLexicographic(x: string, y: string)
    ensures TextOrder(x, y) <==> Lexicographic(x, y)
  {
    if |x| > 0 && |y| > 0 {
      if x[0] < y[0] {
        assert x[..0] == y[..0];
      } else if x[0] == y[0] {
        TextOrderIsLexicographic(x[1..], y[1..]);
        assert x == [x[0]] + x[1..] && y == [y[0]] + y[1..];
        if n: nat :| n < |x| - 1 && n < |y| - 1 && x[1..][..n] == y[1..][..n] && x[1..][n] < y[1..][n] {
          assert x[..n + 1] == [x[0]] + x[1..][..n] && y[..n + 1] == [y[0]] + y[1..][..n];
        }
        if n: nat :| n < |x| && n < |y| && x[..n] == y[..n] && x[n] < y[n] {
          assert n > 0;
          assert x[1..][..n - 1] == x[..n][1..] && y[1..][..n - 1] == y[..n][1..];
        }
      }
    }
  }

  lemma TextIsOrder()
    ensures Order(TextOrder)
  {
    forall x, y ensures TextOrder(x, y) || TextOrder(y, x) { TextTotal(x, y); }
    forall x, y, z | TextOrder(x, y) && TextOrder(y, z) ensures TextOrder(x, z) { TextTransitive(x, y, z); }
  }
}
