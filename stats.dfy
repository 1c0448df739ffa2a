/**
 * The statistics the analytics layer takes from pandas, over exact reals:
 * sorting, linearly interpolated quantiles (position `(n-1)·q`), the median,
 * a stable arg-sort of row indices, order-preserving `unique`, and sums.
 */
module Stats {

  // ------------------------------------------------------------- sorting

  predicate Sorted(s: seq<real>) {
    forall i, j :: 0 <= i < j < |s| ==> s[i] <= s[j]
  }

  /** A value no larger than the head of a sorted sequence can go in front. */
  lemma ConsSorted(h: real, t: seq<real>)
    requires Sorted(t) && forall i :: 0 <= i < |t| ==> h <= t[i]
    ensures Sorted([h] + t)
  {
  }

  /** A lower bound of every element of `rest` and of `x` bounds every element of a rearrangement `t`. */
  lemma BoundsAll(h: real, x: real, rest: seq<real>, t: seq<real>)
    requires multiset(t) == multiset(rest) + multiset{x}
    requires h <= x && forall i :: 0 <= i < |rest| ==> h <= rest[i]
    ensures forall i :: 0 <= i < |t| ==> h <= t[i]
  {
    forall i | 0 <= i < |t| ensures h <= t[i] {
      assert t[i] in multiset(t);
      if t[i] != x {
        assert t[i] in multiset(rest);
      }
    }
  }

  /** `x` placed into a sorted sequence. */
  function InsertSorted(x: real, s: seq<real>): (r: seq<real>)
    requires Sorted(s)
    ensures Sorted(r) && multiset(r) == multiset(s) + multiset{x} && |r| == |s| + 1
    decreases |s|
  {
    if s == [] then [x]
    else if x <= s[0] then ConsSorted(x, s); [x] + s
    else
      var t := InsertSorted(x, s[1..]);
      assert s == [s[0]] + s[1..];
      BoundsAll(s[0], x, s[1..], t);
      ConsSorted(s[0], t);
      [s[0]] + t
  }

  /** The values in ascending order (`sort_values`). */
  function SortedOf(s: seq<real>): (r: seq<real>)
    ensures Sorted(r) && multiset(r) == multiset(s) && |r| == |s|
    decreases |s|
  {
    if s == [] then []
    else
      var p := s[..|s| - 1];
      assert s == p + [s[|s| - 1]];
      InsertSorted(s[|s| - 1], SortedOf(p))
  }

  /** The head of a sorted sequence is its smallest element. */
  lemma HeadIsLeast(a: seq<real>, y: real)
    requires Sorted(a) && y in multiset(a)
    ensures a != [] && a[0] <= y
  {
    assert y in a;
  }

  /** Two sorted sequences with the same elements have the same head. */
  lemma SameHead(a: seq<real>, b: seq<real>)
    requires Sorted(a) && Sorted(b) && multiset(a) == multiset(b) && a != []
    ensures b != [] && a[0] == b[0]
  {
    assert a[0] in a;
    HeadIsLeast(b, a[0]);
    assert b[0] in b;
    HeadIsLeast(a, b[0]);
  }

  /** Dropping equal heads keeps the elements equal. */
  lemma SameTails(a: seq<real>, b: seq<real>)
    requires a != [] && b != [] && a[0] == b[0] && multiset(a) == multiset(b)
    ensures multiset(a[1..]) == multiset(b[1..])
  {
    assert a == [a[0]] + a[1..];
    assert b == [b[0]] + b[1..];
    assert multiset(a[1..]) == multiset(a) - multiset{a[0]};
    assert multiset(b[1..]) == multiset(b) - multiset{b[0]};
  }

  /** A sorted arrangement of a multiset is unique. */
  lemma {:induction false} SortedUnique(a: seq<real>, b: seq<real>)
    requires Sorted(a) && Sorted(b) && multiset(a) == multiset(b)
    ensures a == b
    decreases |a|
  {
    if a == [] {
      assert |multiset(b)| == 0;
    } else {
      SameHead(a, b);
      SameTails(a, b);
      SortedUnique(a[1..], b[1..]);
      assert a == [a[0]] + a[1..] && b == [b[0]] + b[1..];
    }
  }

  /** Sorting depends only on the values, not on the order the rows came in. */
  lemma SortedOfPermutation(s: seq<real>, t: seq<real>)
    requires multiset(s) == multiset(t)
    ensures SortedOf(s) == SortedOf(t)
  {
    SortedUnique(SortedOf(s), SortedOf(t));
  }

  // ------------------------------------------------------------- quantiles

  /** The real position `(n-1)·q` that the `q` quantile of `n` values reads from. */
  function Position(n: nat, q: real): (p: real)
    requires n > 0 && 0.0 <= q <= 1.0
    ensures 0.0 <= p <= (n - 1) as real
  {
    MulNonNeg((n - 1) as real, q);
    MulNonNeg((n - 1) as real, 1.0 - q);
    assert (n - 1) as real - (n - 1) as real * q == (n - 1) as real * (1.0 - q);
    (n - 1) as real * q
  }

  lemma MulNonNeg(x: real, y: real)
    requires x >= 0.0 && y >= 0.0
    ensures x * y >= 0.0
  {
  }

  lemma PositionMonotone(n: nat, q1: real, q2: real)
    requires n > 0 && 0.0 <= q1 <= q2 <= 1.0
    ensures Position(n, q1) <= Position(n, q2)
  {
    MulNonNeg((n - 1) as real, q2 - q1);
    assert Position(n, q2) - Position(n, q1) == (n - 1) as real * (q2 - q1);
  }

  /** The point a fraction `f` of the way from `a` to `b`. */
  function Lerp(a: real, b: real, f: real): (r: real)
    ensures a <= b && 0.0 <= f <= 1.0 ==> a <= r <= b
    ensures f == 0.0 ==> r == a
  {
    var r := a + f * (b - a);
    ScaleWithin(a, b, f, r);
    r
  }

  lemma ScaleWithin(a: real, b: real, f: real, r: real)
    requires r == a + f * (b - a)
    ensures a <= b && 0.0 <= f <= 1.0 ==> a <= r <= b
    ensures f == 0.0 ==> r == a
  {
    if a <= b && 0.0 <= f <= 1.0 {
      MulNonNeg(f, b - a);
      MulNonNeg(1.0 - f, b - a);
      assert b - r == (1.0 - f) * (b - a);
    }
  }

  lemma LerpMonotone(a: real, b: real, f: real, g: real)
    requires a <= b && f <= g
    ensures Lerp(a, b, f) <= Lerp(a, b, g)
  {
    MulNonNeg(g - f, b - a);
    assert Lerp(a, b, g) - Lerp(a, b, f) == (g - f) * (b - a);
  }

  /** The value at real position `pos` of a sorted sequence, interpolating linearly between neighbours. */
  function Interp(v: seq<real>, pos: real): real
    requires |v| > 0 && 0.0 <= pos <= (|v| - 1) as real
  {
    var lo := pos.Floor;
    if lo + 1 < |v| then Lerp(v[lo], v[lo + 1], pos - lo as real) else v[lo]
  }

  /** `Series.quantile(q)` with pandas' default linear interpolation. */
  function Quantile(s: seq<real>, q: real): real
    requires |s| > 0 && 0.0 <= q <= 1.0
  {
    Interp(SortedOf(s), Position(|s|, q))
  }

  /** `Series.median()`: the middle value, or the mean of the two middle values. */
  function Median(s: seq<real>): real
    requires |s| > 0
  {
    var v := SortedOf(s);
    var h := |s| / 2;
    if |s| % 2 == 1 then v[h] else (v[h - 1] + v[h]) / 2.0
  }

  /** An interpolated value lies between the two neighbours of its position. */
  lemma InterpBetween(v: seq<real>, pos: real)
    requires Sorted(v) && |v| > 0 && 0.0 <= pos <= (|v| - 1) as real
    ensures 0 <= pos.Floor < |v| && v[pos.Floor] <= Interp(v, pos)
    ensures pos.Floor + 1 < |v| ==> Interp(v, pos) <= v[pos.Floor + 1]
  {
    var lo := pos.Floor;
    if lo + 1 < |v| {
      assert v[lo] <= v[lo + 1];
    }
  }

  /** Interpolation of a sorted sequence is monotone in the position. */
  lemma InterpMonotone(v: seq<real>, p: real, q: real)
    requires Sorted(v) && |v| > 0 && 0.0 <= p <= q <= (|v| - 1) as real
    ensures Interp(v, p) <= Interp(v, q)
  {
    InterpBetween(v, p);
    InterpBetween(v, q);
    var lp, lq := p.Floor, q.Floor;
    if lp == lq {
      if lp + 1 < |v| {
        assert v[lp] <= v[lp + 1];
        LerpMonotone(v[lp], v[lp + 1], p - lp as real, q - lq as real);
      }
    } else {
      assert v[lp + 1] <= v[lq];
    }
  }

  /** Quantiles are monotone in `q`: in particular Q1 <= median <= Q3. */
  lemma QuantileMonotone(s: seq<real>, q1: real, q2: real)
    requires |s| > 0 && 0.0 <= q1 <= q2 <= 1.0
    ensures Quantile(s, q1) <= Quantile(s, q2)
  {
    PositionMonotone(|s|, q1, q2);
    InterpMonotone(SortedOf(s), Position(|s|, q1), Position(|s|, q2));
  }

  /** The 0 and 1 quantiles are the smallest and the largest value. */
  lemma QuantileEnds(s: seq<real>)
    requires |s| > 0
    ensures Quantile(s, 0.0) == SortedOf(s)[0]
    ensures Quantile(s, 1.0) == SortedOf(s)[|s| - 1]
  {
    assert Position(|s|, 0.0) == 0.0;
    assert Position(|s|, 1.0) == (|s| - 1) as real;
  }

  /** Every quantile lies between the smallest and the largest value, which are values of `s`. */
  lemma QuantileWithin(s: seq<real>, q: real)
    requires |s| > 0 && 0.0 <= q <= 1.0
    ensures Quantile(s, 0.0) <= Quantile(s, q) <= Quantile(s, 1.0)
    ensures Quantile(s, 0.0) in s && Quantile(s, 1.0) in s
    ensures forall i :: 0 <= i < |s| ==> Quantile(s, 0.0) <= s[i] <= Quantile(s, 1.0)
  {
    QuantileMonotone(s, 0.0, q);
    QuantileMonotone(s, q, 1.0);
    QuantileEnds(s);
    var v := SortedOf(s);
    assert v[0] in multiset(s) && v[|s| - 1] in multiset(s);
    forall i | 0 <= i < |s| ensures v[0] <= s[i] <= v[|s| - 1] {
      assert s[i] in multiset(v);
    }
  }

  /** Where the 0.5 quantile reads from: the middle, or halfway between the two middle values. */
  lemma MiddlePosition(n: nat)
    requires n > 0
    ensures n % 2 == 1 ==> Position(n, 0.5) == (n / 2) as real
    ensures n % 2 == 0 ==> Position(n, 0.5) == (n / 2 - 1) as real + 0.5
  {
  }

  /** The median is the 0.5 quantile. */
  lemma MedianIsQuantile(s: seq<real>)
    requires |s| > 0
    ensures Median(s) == Quantile(s, 0.5)
  {
    MiddlePosition(|s|);
    var v, h := SortedOf(s), |s| / 2;
    if |s| % 2 == 0 {
      assert Position(|s|, 0.5).Floor == h - 1;
      assert Lerp(v[h - 1], v[h], 0.5) == (v[h - 1] + v[h]) / 2.0;
    } else {
      assert Position(|s|, 0.5).Floor == h;
    }
  }

  /** Quantiles and the median depend only on the values, not on the row order. */
  lemma QuantilePermutation(s: seq<real>, t: seq<real>, q: real)
    requires |s| > 0 && multiset(s) == multiset(t) && 0.0 <= q <= 1.0
    ensures |t| == |s| && Quantile(s, q) == Quantile(t, q) && Median(s) == Median(t)
  {
    assert |t| == |multiset(t)| == |multiset(s)| == |s|;
    SortedOfPermutation(s, t);
    SameSorted(s, t, q);
    SameSorted(s, t, 0.5);
    MedianIsQuantile(s);
    MedianIsQuantile(t);
  }

  /** A quantile reads only the sorted values and their count. */
  lemma SameSorted(s: seq<real>, t: seq<real>, q: real)
    requires |s| > 0 && |s| == |t| && SortedOf(s) == SortedOf(t) && 0.0 <= q <= 1.0
    ensures Quantile(s, q) == Quantile(t, q)
  {
  }

  // ------------------------------------------------------------- fences

  function Max(a: real, b: real): real {
    if a >= b then a else b
  }

  /** Tukey's fences around the interquartile range: `max(0, Q1 − 1.5·IQR)` and `Q3 + 1.5·IQR`. */
  datatype Fences = Fences(lower: real, upper: real)

  function TukeyFences(s: seq<real>): (f: Fences)
    requires |s| > 0
    ensures f.lower >= 0.0 && Quantile(s, 0.75) <= f.upper
    ensures f.lower > 0.0 ==> f.lower <= Quantile(s, 0.25)
  {
    var q1, q3 := Quantile(s, 0.25), Quantile(s, 0.75);
    QuantileMonotone(s, 0.25, 0.75);
    var iqr := q3 - q1;
    Fences(Max(0.0, q1 - 1.5 * iqr), q3 + 1.5 * iqr)
  }

  predicate NonNegative(s: seq<real>) {
    forall i :: 0 <= i < |s| ==> s[i] >= 0.0
  }

  /** For non-negative prices: lower fence <= Q1 <= median <= Q3 <= upper fence. */
  lemma FencesOrdered(s: seq<real>)
    requires |s| > 0 && NonNegative(s)
    ensures var f := TukeyFences(s);
      f.lower <= Quantile(s, 0.25) <= Median(s) <= Quantile(s, 0.75) <= f.upper
  {
    QuantileMonotone(s, 0.25, 0.5);
    QuantileMonotone(s, 0.5, 0.75);
    MedianIsQuantile(s);
    QuantileWithin(s, 0.25);
    assert s[0] >= 0.0;
  }

  /** The fences depend only on the values, not on the row order. */
  lemma FencesPermutation(s: seq<real>, t: seq<real>)
    requires |s| > 0 && multiset(s) == multiset(t)
    ensures |t| > 0 && TukeyFences(s) == TukeyFences(t)
  {
    QuantilePermutation(s, t, 0.25);
    QuantilePermutation(s, t, 0.75);
  }

  // ------------------------------------------------------------- arg-sort

  /** Row `i` comes before row `j`: a smaller key, or an equal key and an earlier row. */
  predicate Before(keys: seq<real>, i: nat, j: nat)
    requires i < |keys| && j < |keys|
  {
    keys[i] < keys[j] || (keys[i] == keys[j] && i < j)
  }

  predicate Ranked(keys: seq<real>, r: seq<nat>) {
    && (forall k :: 0 <= k < |r| ==> r[k] < |keys|)
    && (forall a, b :: 0 <= a < b < |r| ==> Before(keys, r[a], r[b]))
  }

  function InsertIndex(keys: seq<real>, j: nat, r: seq<nat>): (r': seq<nat>)
    requires j < |keys| && Ranked(keys, r)
    requires forall k :: 0 <= k < |r| ==> r[k] != j
    ensures Ranked(keys, r') && |r'| == |r| + 1
    ensures forall x: int :: x in r' <==> x in r || x == j
    decreases |r|
  {
    if r == [] then [j]
    else if Before(keys, j, r[0]) then
      assert forall k :: 0 <= k < |r| ==> Before(keys, r[0], r[k]) || k == 0;
      [j] + r
    else
      var t := InsertIndex(keys, j, r[1..]);
      assert forall k :: 0 <= k < |t| ==> Before(keys, r[0], t[k]) by {
        forall k | 0 <= k < |t| ensures Before(keys, r[0], t[k]) {
          assert t[k] in t;
          if t[k] != j {
            var m :| 0 <= m < |r[1..]| && r[1..][m] == t[k];
            assert Before(keys, r[0], r[m + 1]);
          }
        }
      }
      [r[0]] + t
  }

  /** The indices `0..n-1` ordered by key, ties by position: a stable `argsort`. */
  function ArgSort(keys: seq<real>, n: nat): (r: seq<nat>)
    requires n <= |keys|
    ensures Ranked(keys, r) && |r| == n
    ensures forall x: int :: x in r <==> 0 <= x < n
    decreases n
  {
    if n == 0 then []
    else
      var r := ArgSort(keys, n - 1);
      assert forall k :: 0 <= k < |r| ==> r[k] in r;
      InsertIndex(keys, n - 1, r)
  }

  /** An index listed earlier never has a larger key than one listed later, or than one not listed. */
  lemma ArgSortPrefix(keys: seq<real>, k: nat, a: nat, j: nat)
    requires k <= |keys| && a < k && j < |keys|
    requires j !in ArgSort(keys, |keys|)[..k]
    ensures keys[ArgSort(keys, |keys|)[a]] <= keys[j]
  {
    var r := ArgSort(keys, |keys|);
    assert j in r;
    var b :| 0 <= b < |r| && r[b] == j;
    assert Before(keys, r[a], r[b]);
  }

  // ------------------------------------------------------------- unique

  /** The position of the first occurrence of `x`. */
  function FirstIndex(s: seq<int>, x: int): (i: nat)
    requires x in s
    ensures i < |s| && s[i] == x && forall j :: 0 <= j < i ==> s[j] != x
    decreases |s|
  {
    if s[0] == x then 0 else 1 + FirstIndex(s[1..], x)
  }

  /** A value first seen in a prefix is first seen at the same position in the whole. */
  lemma FirstIndexInPrefix(s: seq<int>, k: nat, x: int)
    requires k <= |s| && x in s[..k]
    ensures FirstIndex(s, x) == FirstIndex(s[..k], x)
  {
    var i := FirstIndex(s[..k], x);
    assert s[i] == x;
  }

  /** `Series.unique()`: the distinct values in order of first appearance. */
  function Distinct(s: seq<int>): (r: seq<int>)
    ensures |r| <= |s|
    ensures forall x :: x in r <==> x in s
    ensures forall a, b :: 0 <= a < b < |r| ==> r[a] != r[b]
    ensures forall a, b :: 0 <= a < b < |r| ==> FirstIndex(s, r[a]) < FirstIndex(s, r[b])
    decreases |s|
  {
    if s == [] then []
    else
      var p := s[..|s| - 1];
      var d := Distinct(p);
      var x := s[|s| - 1];
      assert forall y :: y in s <==> y in p || y == x by {
        assert s == p + [x];
      }
      assert p == s[..|s| - 1];
      forall y | y in d ensures FirstIndex(s, y) == FirstIndex(p, y) {
        FirstIndexInPrefix(s, |s| - 1, y);
      }
      if x in d then d
      else
        assert FirstIndex(s, x) == |s| - 1;
        d + [x]
  }

  /** A sequence without repeats is its own `unique`. */
  lemma {:induction false} DistinctOfDistinct(s: seq<int>)
    requires forall a, b :: 0 <= a < b < |s| ==> s[a] != s[b]
    ensures Distinct(s) == s
    decreases |s|
  {
    if s != [] {
      var p := s[..|s| - 1];
      DistinctOfDistinct(p);
      assert s[|s| - 1] !in p;
      assert s == p + [s[|s| - 1]];
    }
  }

  // ------------------------------------------------------------- sums

  function Sum(s: seq<real>): real
    decreases |s|
  {
    if s == [] then 0.0 else Sum(s[..|s| - 1]) + s[|s| - 1]
  }
}
