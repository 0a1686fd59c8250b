/** Sorting with duplicates removed, as pandas orders the row and column labels of a pivot. */
module Ordering {

  ghost predicate StrictTotalOrder<T(!new)>(lt: (T, T) -> bool)
  {
    && (forall a :: !lt(a, a))
    && (forall a, b, c :: lt(a, b) && lt(b, c) ==> lt(a, c))
    && (forall a, b :: a == b || lt(a, b) || lt(b, a))
  }

  predicate StrictlyIncreasing<T>(s: seq<T>, lt: (T, T) -> bool)
  {
    forall i, j :: 0 <= i < j < |s| ==> lt(s[i], s[j])
  }

  function IntLess(a: int, b: int): (less: bool) { a < b }

  /** Lexicographic order on code points, Python's `<` on `str`. */
  predicate StrLess(a: string, b: string)
  {
    if a == [] then b != []
    else if b == [] then false
    else if a[0] != b[0] then a[0] < b[0]
    else StrLess(a[1..], b[1..])
  }

  lemma IntLessIsStrictTotal()
    ensures StrictTotalOrder(IntLess)
  {
  }

  lemma {:induction false} StrLessIrreflexive(a: string)
    ensures !StrLess(a, a)
  {
    if a != [] { StrLessIrreflexive(a[1..]); }
  }

  lemma {:induction false} StrLessTransitive(a: string, b: string, c: string)
    requires StrLess(a, b) && StrLess(b, c)
    ensures StrLess(a, c)
  {
    if a != [] && b != [] && c != [] && a[0] == b[0] && b[0] == c[0] {
      StrLessTransitive(a[1..], b[1..], c[1..]);
    }
  }

  lemma {:induction false} StrLessTotal(a: string, b: string)
    ensures a == b || StrLess(a, b) || StrLess(b, a)
  {
    if a != [] && b != [] && a[0] == b[0] {
      StrLessTotal(a[1..], b[1..]);
      if a[1..] == b[1..] {
        assert a == [a[0]] + a[1..] && b == [b[0]] + b[1..];
      }
    }
  }

  lemma StrLessIsStrictTotal()
    ensures StrictTotalOrder(StrLess)
  {
    forall a: string { StrLessIrreflexive(a); }
    forall a: string, b: string, c: string | StrLess(a, b) && StrLess(b, c) ensures StrLess(a, c) {
      StrLessTransitive(a, b, c);
    }
    forall a: string, b: string { StrLessTotal(a, b); }
  }

  /** Inserts `x` into an increasing sequence, unless it is already there. */
  function Insert<T(==)>(x: T, s: seq<T>, lt: (T, T) -> bool): (r: seq<T>)
  {
    if s == [] then [x]
    else if x == s[0] then s
    else if lt(x, s[0]) then [x] + s
    else [s[0]] + Insert(x, s[1..], lt)
  }

  /** The distinct elements of `xs` in increasing order. */
  function SortDistinct<T(==)>(xs: seq<T>, lt: (T, T) -> bool): (r: seq<T>)
  {
    if xs == [] then [] else Insert(xs[|xs| - 1], SortDistinct(xs[..|xs| - 1], lt), lt)
  }

  lemma {:induction false} InsertCorrect<T(!new)>(x: T, s: seq<T>, lt: (T, T) -> bool)
    requires StrictTotalOrder(lt) && StrictlyIncreasing(s, lt)
    ensures StrictlyIncreasing(Insert(x, s, lt), lt)
    ensures forall y :: y in Insert(x, s, lt) <==> y == x || y in s
  {
    if s != [] && x != s[0] && !lt(x, s[0]) {
      assert lt(s[0], x);
      assert StrictlyIncreasing(s[1..], lt);
      InsertCorrect(x, s[1..], lt);
      var tail := Insert(x, s[1..], lt);
      forall j | 0 <= j < |tail| ensures lt(s[0], tail[j]) {
        assert tail[j] in tail;
        if tail[j] != x {
          var k :| 0 <= k < |s[1..]| && s[1..][k] == tail[j];
          assert s[k + 1] == tail[j];
        }
      }
      assert s == [s[0]] + s[1..];
    } else if s != [] && x != s[0] {
      forall j | 0 <= j < |s| ensures lt(x, s[j]) {
        if j > 0 { assert lt(s[0], s[j]); }
      }
    }
  }

  /** The result is increasing and holds exactly the elements of the input. */
  lemma {:induction false} SortDistinctCorrect<T(!new)>(xs: seq<T>, lt: (T, T) -> bool)
    requires StrictTotalOrder(lt)
    ensures StrictlyIncreasing(SortDistinct(xs, lt), lt)
    ensures forall y :: y in SortDistinct(xs, lt) <==> y in xs
  {
    if xs != [] {
      var init := xs[..|xs| - 1];
      SortDistinctCorrect(init, lt);
      InsertCorrect(xs[|xs| - 1], SortDistinct(init, lt), lt);
      assert xs == init + [xs[|xs| - 1]];
    }
  }

  /** An increasing sequence holds no element twice. */
  lemma IncreasingIsDistinct<T(!new)>(s: seq<T>, lt: (T, T) -> bool, i: int, j: int)
    requires StrictTotalOrder(lt) && StrictlyIncreasing(s, lt)
    requires 0 <= i < |s| && 0 <= j < |s| && s[i] == s[j]
    ensures i == j
  {
  }
}
