/**
 * The column statistics pandas computes for the preprocessing code:
 * Series.mean, Series.median (NaN when nothing is present), the sorted
 * category list get_dummies builds, and Series.mode()[0].
 */
module Stats {
  import opened Wrappers

  function Sum(xs: seq<real>): real
  {
    if |xs| == 0 then 0.0 else Sum(xs[..|xs| - 1]) + xs[|xs| - 1]
  }

  function Mean(xs: seq<real>): real
    requires |xs| > 0
  {
    Sum(xs) / |xs| as real
  }

  lemma {:induction false} SumBounds(xs: seq<real>, lo: real, hi: real)
    requires forall i :: 0 <= i < |xs| ==> lo <= xs[i] <= hi
    ensures |xs| as real * lo <= Sum(xs) <= |xs| as real * hi
  {
    if |xs| > 0 {
      SumBounds(xs[..|xs| - 1], lo, hi);
    }
  }

  /** A mean lies between any bounds that hold of every value. */
  lemma MeanWithin(xs: seq<real>, lo: real, hi: real)
    requires |xs| > 0
    requires forall i :: 0 <= i < |xs| ==> lo <= xs[i] <= hi
    ensures lo <= Mean(xs) <= hi
  {
    SumBounds(xs, lo, hi);
    var n := |xs| as real;
    assert Sum(xs) / n >= lo by {
      assert Sum(xs) >= n * lo;
    }
    assert Sum(xs) / n <= hi by {
      assert Sum(xs) <= n * hi;
    }
  }

  /** Sum does not depend on how the values are grouped. */
  lemma {:induction false} SumAppend(xs: seq<real>, ys: seq<real>)
    ensures Sum(xs + ys) == Sum(xs) + Sum(ys)
    decreases |ys|
  {
    if |ys| == 0 {
      assert xs + ys == xs;
    } else {
      var zs := xs + ys;
      assert zs[..|zs| - 1] == xs + ys[..|ys| - 1];
      SumAppend(xs, ys[..|ys| - 1]);
    }
  }

  predicate SortedReals(s: seq<real>) {
    forall i, j :: 0 <= i < j < |s| ==> s[i] <= s[j]
  }

  function InsertReal(x: real, s: seq<real>): (r: seq<real>)
    ensures |r| == |s| + 1
  {
    if |s| == 0 then [x]
    else if x <= s[0] then [x] + s
    else [s[0]] + InsertReal(x, s[1..])
  }

  /** Inserting into a sorted list keeps it sorted. */
  lemma {:induction false} InsertRealSorted(x: real, s: seq<real>)
    requires SortedReals(s)
    ensures SortedReals(InsertReal(x, s))
    ensures InsertReal(x, s)[0] == x || (|s| > 0 && InsertReal(x, s)[0] == s[0])
  {
    if |s| > 0 && x > s[0] {
      var rest := InsertReal(x, s[1..]);
      SortedTail(s);
      InsertRealSorted(x, s[1..]);
      assert InsertReal(x, s) == [s[0]] + rest;
      forall i, j | 0 <= i < j < |rest| + 1 ensures ([s[0]] + rest)[i] <= ([s[0]] + rest)[j] {
        if i == 0 {
          assert s[0] <= rest[0] <= rest[j - 1];
        }
      }
    }
  }

  /** Inserting adds exactly x to the values. */
  lemma {:induction false} InsertRealAdds(x: real, s: seq<real>)
    ensures multiset(InsertReal(x, s)) == multiset(s) + multiset{x}
  {
    if |s| > 0 && x > s[0] {
      InsertRealAdds(x, s[1..]);
      assert s == [s[0]] + s[1..];
    }
  }

  /** The values in ascending order. */
  function SortReals(s: seq<real>): (r: seq<real>)
    ensures |r| == |s|
  {
    if |s| == 0 then [] else InsertReal(s[|s| - 1], SortReals(s[..|s| - 1]))
  }

  /** SortReals is sorted and holds the same values as its input. */
  lemma {:induction false} SortRealsSorted(s: seq<real>)
    ensures SortedReals(SortReals(s)) && multiset(SortReals(s)) == multiset(s)
  {
    if |s| > 0 {
      SortRealsSorted(s[..|s| - 1]);
      InsertRealSorted(s[|s| - 1], SortReals(s[..|s| - 1]));
      InsertRealAdds(s[|s| - 1], SortReals(s[..|s| - 1]));
      assert s == s[..|s| - 1] + [s[|s| - 1]];
    }
  }

  /**
   * Series.median() over the present values: the middle value of the sorted
   * list, or the average of the two middle ones; None (NaN) when there are none.
   */
  function Median(s: seq<real>): (m: Option<real>)
    ensures m.None? <==> |s| == 0
  {
    if |s| == 0 then None else Some(Middle(SortReals(s)))
  }

  /** The median lies between two of the values. */
  lemma MedianWithin(s: seq<real>)
    ensures Median(s).Some? ==> (exists x :: x in s && x <= Median(s).value) && (exists y :: y in s && Median(s).value <= y)
  {
    if |s| > 0 {
      MiddleWithin(s);
    }
  }

  /** The middle value of a sorted non-empty list, or the mean of the two middle values. */
  function Middle(t: seq<real>): real
    requires |t| > 0
  {
    var n := |t|;
    if n % 2 == 1 then t[n / 2] else (t[n / 2 - 1] + t[n / 2]) / 2.0
  }

  lemma MiddleWithin(s: seq<real>)
    requires |s| > 0
    ensures |SortReals(s)| > 0
    ensures (exists x :: x in s && x <= Middle(SortReals(s))) && (exists y :: y in s && Middle(SortReals(s)) <= y)
  {
    var t := SortReals(s);
    SortRealsSorted(s);
    var n := |t|;
    assert |t| == |multiset(t)| == |s|;
    assert t[0] in multiset(s) && t[n - 1] in multiset(s);
    assert t[0] in s && t[n - 1] in s;
    assert t[0] <= t[n / 2] <= t[n - 1];
    if n % 2 == 0 {
      assert t[0] <= t[n / 2 - 1] <= t[n - 1];
    }
  }

  /** Two sorted lists holding the same values start with the same, smallest, value. */
  lemma SortedHeads(a: seq<real>, b: seq<real>)
    requires SortedReals(a) && SortedReals(b) && multiset(a) == multiset(b) && |a| > 0
    ensures |b| == |a| && a[0] == b[0]
  {
    assert |b| == |multiset(b)| == |a|;
    assert a[0] in multiset(b) && b[0] in multiset(a);
    var i :| 0 <= i < |b| && b[i] == a[0];
    var j :| 0 <= j < |a| && a[j] == b[0];
    assert b[0] <= b[i] && a[0] <= a[j];
  }

  lemma DropHead(a: seq<real>)
    requires |a| > 0
    ensures multiset(a[1..]) == multiset(a) - multiset{a[0]}
  {
    assert a == [a[0]] + a[1..];
  }

  lemma SortedTail(a: seq<real>)
    requires SortedReals(a) && |a| > 0
    ensures SortedReals(a[1..])
  {
    forall i, j | 0 <= i < j < |a| - 1 ensures a[1..][i] <= a[1..][j] {
      assert a[1..][i] == a[i + 1] && a[1..][j] == a[j + 1];
    }
  }

  /** Two sorted lists holding the same values are the same list. */
  lemma {:induction false} SortedUnique(a: seq<real>, b: seq<real>)
    requires SortedReals(a) && SortedReals(b) && multiset(a) == multiset(b)
    ensures a == b
    decreases |a|
  {
    if |a| > 0 {
      SortedHeads(a, b);
      DropHead(a);
      DropHead(b);
      SortedTail(a);
      SortedTail(b);
      SortedUnique(a[1..], b[1..]);
      assert a == [a[0]] + a[1..] && b == [b[0]] + b[1..];
    } else {
      assert |b| == |multiset(b)| == 0;
    }
  }

  /** The median depends on the multiset of values only, never on row order. */
  lemma MedianOrderFree(s: seq<real>, u: seq<real>)
    requires multiset(s) == multiset(u)
    ensures Median(s) == Median(u)
  {
    assert |s| == |multiset(s)| == |u|;
    if |s| > 0 {
      SortRealsSorted(s);
      SortRealsSorted(u);
      SortedUnique(SortReals(s), SortReals(u));
    }
  }

  /** The number of occurrences of x in s. */
  function Count<T(==)>(s: seq<T>, x: T): nat
  {
    multiset(s)[x]
  }

  ghost predicate StrictTotalOrder<T(!new)>(lt: (T, T) -> bool) {
    && (forall a :: !lt(a, a))
    && (forall a, b, c :: lt(a, b) && lt(b, c) ==> lt(a, c))
    && (forall a, b :: a == b || lt(a, b) || lt(b, a))
  }

  predicate StrictlySorted<T(==)>(s: seq<T>, lt: (T, T) -> bool) {
    forall i, j :: 0 <= i < j < |s| ==> lt(s[i], s[j])
  }

  /** Adds x to an ascending list of distinct values, unless it is there already. */
  function InsertDistinct<T(==,!new)>(x: T, s: seq<T>, lt: (T, T) -> bool): (r: seq<T>)
    ensures forall y :: y in r <==> y in s || y == x
  {
    if |s| == 0 then [x]
    else if x == s[0] then s
    else if lt(x, s[0]) then [x] + s
    else [s[0]] + InsertDistinct(x, s[1..], lt)
  }

  /** The distinct values of s in ascending order: the categories pandas derives from a column. */
  function SortedDistinct<T(==,!new)>(s: seq<T>, lt: (T, T) -> bool): (r: seq<T>)
    ensures forall y :: y in r <==> y in s
  {
    if |s| == 0 then []
    else InsertDistinct(s[|s| - 1], SortedDistinct(s[..|s| - 1], lt), lt)
  }

  lemma {:induction false} InsertDistinctSorted<T(!new)>(x: T, s: seq<T>, lt: (T, T) -> bool)
    requires StrictTotalOrder(lt) && StrictlySorted(s, lt)
    ensures StrictlySorted(InsertDistinct(x, s, lt), lt)
    decreases |s|
  {
    if |s| > 0 && x != s[0] && !lt(x, s[0]) {
      assert lt(s[0], x);
      InsertDistinctSorted(x, s[1..], lt);
      var rest := InsertDistinct(x, s[1..], lt);
      forall k | 0 <= k < |rest| ensures lt(s[0], rest[k]) {
        assert rest[k] in rest;
        if rest[k] != x {
          assert rest[k] in s[1..];
        }
      }
    } else if |s| > 0 && x != s[0] {
      forall i, j | 0 <= i < j < |[x] + s| ensures lt(([x] + s)[i], ([x] + s)[j]) {
        if i == 0 && j > 1 {
          assert lt(s[0], s[j - 1]);
        }
      }
    }
  }

  /** The category list is strictly ascending. */
  lemma {:induction false} SortedDistinctSorted<T(!new)>(s: seq<T>, lt: (T, T) -> bool)
    requires StrictTotalOrder(lt)
    ensures StrictlySorted(SortedDistinct(s, lt), lt)
  {
    if |s| > 0 {
      SortedDistinctSorted(s[..|s| - 1], lt);
      InsertDistinctSorted(s[|s| - 1], SortedDistinct(s[..|s| - 1], lt), lt);
    }
  }

  /** A strictly ascending list is determined by its set of values. */
  lemma {:induction false} StrictlySortedUnique<T(!new)>(a: seq<T>, b: seq<T>, lt: (T, T) -> bool)
    requires StrictTotalOrder(lt) && StrictlySorted(a, lt) && StrictlySorted(b, lt)
    requires forall y :: y in a <==> y in b
    ensures a == b
    decreases |a| + |b|
  {
    assert |a| > 0 ==> a[0] in a;
    assert |b| > 0 ==> b[0] in b;
    if |a| > 0 && |b| > 0 {
      assert a[0] in b && b[0] in a;
      assert a[0] == b[0];
      forall y ensures y in a[1..] <==> y in b[1..] {
        if y in a[1..] {
          var k :| 1 <= k < |a| && a[k] == y;
          assert lt(a[0], y);
          assert y in b && y != b[0];
        }
        if y in b[1..] {
          var k :| 1 <= k < |b| && b[k] == y;
          assert lt(b[0], y);
          assert y in a && y != a[0];
        }
      }
      StrictlySortedUnique(a[1..], b[1..], lt);
      assert a == [a[0]] + a[1..] && b == [b[0]] + b[1..];
    }
  }

  /** The first position in d holding a value of highest frequency in s. */
  function FirstMaxIndex<T(==)>(d: seq<T>, s: seq<T>): (k: nat)
    requires |d| > 0
    ensures k < |d|
    ensures forall i :: 0 <= i < |d| ==> Count(s, d[i]) <= Count(s, d[k])
    ensures forall i :: 0 <= i < k ==> Count(s, d[i]) < Count(s, d[k])
  {
    if |d| == 1 then 0
    else
      var k := FirstMaxIndex(d[1..], s);
      if Count(s, d[0]) >= Count(s, d[k + 1]) then 0 else k + 1
  }

  /**
   * Series.mode()[0]: the smallest of the most frequent values. None stands
   * for the KeyError pandas raises when the column has no present value.
   */
  function FirstMode<T(==,!new)>(s: seq<T>, lt: (T, T) -> bool): (m: Option<T>)
    ensures m.None? <==> |s| == 0
    ensures m.Some? ==> m.value in s && forall y :: y in s ==> Count(s, y) <= Count(s, m.value)
  {
    if |s| == 0 then None
    else
      var d := SortedDistinct(s, lt);
      assert s[0] in d;
      var k := FirstMaxIndex(d, s);
      assert forall y :: y in s ==> y in d;
      Some(d[k])
  }

  /** On a tie in frequency the mode is the smallest of the tied values. */
  lemma ModeSmallestOnTie<T(!new)>(s: seq<T>, lt: (T, T) -> bool, y: T)
    requires StrictTotalOrder(lt) && |s| > 0
    requires y in s && y != FirstMode(s, lt).value
    requires Count(s, y) == Count(s, FirstMode(s, lt).value)
    ensures lt(FirstMode(s, lt).value, y)
  {
    var d := SortedDistinct(s, lt);
    SortedDistinctSorted(s, lt);
    var k := FirstMaxIndex(d, s);
    assert y in d;
    var i :| 0 <= i < |d| && d[i] == y;
    assert !(i < k);
  }

  function IntLess(a: int, b: int): bool {
    a < b
  }

  function RealLess(a: real, b: real): bool {
    a < b
  }

  lemma IntLessIsOrder()
    ensures StrictTotalOrder(IntLess)
  {
  }
}
