/** Count, minimum, maximum, mean and median of a non-empty list, in exact arithmetic. */
module DescriptiveStatistics {
  import opened Sequences
  import opened Rationals

  datatype Statistics = Statistics(count: nat, minimum: real, maximum: real, mean: real, median: real)

  function Least(values: seq<real>): (m: real)
    requires values != []
    ensures m in values && forall i | 0 <= i < |values| :: m <= values[i]
  {
    var last := values[|values| - 1];
    if |values| == 1 then last
    else
      var m := Least(values[..|values| - 1]);
      if last < m then last else m
  }

  function Greatest(values: seq<real>): (m: real)
    requires values != []
    ensures m in values && forall i | 0 <= i < |values| :: values[i] <= m
  {
    var last := values[|values| - 1];
    if |values| == 1 then last
    else
      var m := Greatest(values[..|values| - 1]);
      if last > m then last else m
  }

  function Total(values: seq<real>): real {
    if values == [] then 0.0 else Total(values[..|values| - 1]) + values[|values| - 1]
  }

  function Mean(values: seq<real>): real
    requires values != []
  {
    Total(values) / |values| as real
  }

  predicate IsSorted(s: seq<real>) {
    forall i, j | 0 <= i < j < |s| :: s[i] <= s[j]
  }

  function Insert(x: real, s: seq<real>): (r: seq<real>)
    ensures multiset(r) == multiset(s) + multiset{x}
  {
    if s == [] || x <= s[0] then [x] + s
    else
      assert s == [s[0]] + s[1..];
      [s[0]] + Insert(x, s[1..])
  }

  lemma {:induction false} InsertSorted(x: real, s: seq<real>)
    requires IsSorted(s)
    ensures IsSorted(Insert(x, s))
  {
    if s != [] && s[0] < x {
      InsertSorted(x, s[1..]);
      var rest := Insert(x, s[1..]);
      forall j | 0 <= j < |rest| ensures s[0] <= rest[j] {
        assert rest[j] in multiset(s[1..]) + multiset{x};
      }
    }
  }

  function Sorted(s: seq<real>): (r: seq<real>)
    ensures IsSorted(r) && multiset(r) == multiset(s) && |r| == |s|
  {
    if s == [] then []
    else
      assert s == [s[0]] + s[1..];
      InsertSorted(s[0], Sorted(s[1..]));
      var r := Insert(s[0], Sorted(s[1..]));
      assert |multiset(r)| == |multiset(s)|;
      r
  }

  function MedianOf(sorted: seq<real>): real
    requires sorted != []
  {
    var n := |sorted|;
    if n % 2 == 1 then sorted[n / 2] else (sorted[n / 2 - 1] + sorted[n / 2]) / 2.0
  }

  function Describe(values: seq<real>): Statistics
    requires values != []
  {
    Statistics(|values|, Least(values), Greatest(values), Mean(values), MedianOf(Sorted(values)))
  }

  // ----- the bounds a reader checks -----

  lemma {:induction false} TotalBetween(values: seq<real>, low: real, high: real)
    requires forall i | 0 <= i < |values| :: low <= values[i] <= high
    ensures low * |values| as real <= Total(values) <= high * |values| as real
  {
    if values != [] {
      TotalBetween(values[..|values| - 1], low, high);
      OneMore(low, |values| - 1);
      OneMore(high, |values| - 1);
    }
  }

  lemma OneMore(x: real, n: nat)
    ensures x * (n + 1) as real == x * n as real + x
  {
    assert (n + 1) as real == n as real + 1.0;
  }

  lemma QuotientBetween(total: real, n: real, low: real, high: real)
    requires n > 0.0 && low * n <= total <= high * n
    ensures low <= total / n <= high
  {
    var q := total / n;
    assert q * n == total;
    if q < low { Scaled(q, low, n); }
    if q > high { Scaled(high, q, n); }
  }

  lemma Scaled(x: real, y: real, n: real)
    requires x < y && n > 0.0
    ensures x * n < y * n
  {
  }

  predicate Ordered(s: Statistics) {
    s.minimum <= s.mean <= s.maximum && s.minimum <= s.median <= s.maximum
  }

  lemma DescribeOrdered(values: seq<real>)
    requires values != []
    ensures Ordered(Describe(values))
  {
    var low, high := Least(values), Greatest(values);
    TotalBetween(values, low, high);
    QuotientBetween(Total(values), |values| as real, low, high);
    var sorted := Sorted(values);
    forall i | 0 <= i < |sorted| ensures low <= sorted[i] <= high {
      assert sorted[i] in multiset(sorted);
      assert sorted[i] in values;
    }
  }

  // ----- order is irrelevant -----

  lemma {:induction false} TotalConcat(s: seq<real>, t: seq<real>)
    ensures Total(s + t) == Total(s) + Total(t)
  {
    if t == [] {
      assert s + t == s;
    } else {
      assert (s + t)[..|s + t| - 1] == s + t[..|t| - 1];
      TotalConcat(s, t[..|t| - 1]);
    }
  }

  lemma TotalWithout(s: seq<real>, i: nat)
    requires i < |s|
    ensures Total(s) == Total(Without(s, i)) + s[i]
  {
    SplitAt(s, i);
    TotalConcat(s[..i], [s[i]] + s[i + 1..]);
    TotalConcat([s[i]], s[i + 1..]);
    TotalConcat(s[..i], s[i + 1..]);
    assert [s[i]][..0] == [];
    assert Total([s[i]]) == Total([s[i]][..0]) + s[i];
  }

  lemma {:induction false} TotalPermutation(s: seq<real>, t: seq<real>)
    requires multiset(s) == multiset(t)
    ensures Total(s) == Total(t)
  {
    PermutationLength(s, t);
    if s != [] {
      var i := PermutationStep(s, t);
      TotalPermutation(s[1..], Without(t, i));
      TotalWithout(s, 0);
      TotalWithout(t, i);
      assert Without(s, 0) == s[1..];
    }
  }

  lemma SameFirst(s: seq<real>, t: seq<real>)
    requires IsSorted(s) && IsSorted(t) && s != [] && t != [] && multiset(s) == multiset(t)
    ensures s[0] <= t[0]
  {
    assert t[0] in multiset(t);
    assert t[0] in multiset(s);
    var j :| 0 <= j < |s| && s[j] == t[0];
  }

  lemma TailMultiset(s: seq<real>)
    requires s != []
    ensures multiset(s[1..]) == multiset(s) - multiset{s[0]}
  {
    WithoutMultiset(s, 0);
    assert Without(s, 0) == s[1..];
  }

  /** A sorted list is determined by its elements. */
  lemma {:induction false} SortedUnique(s: seq<real>, t: seq<real>)
    requires IsSorted(s) && IsSorted(t) && multiset(s) == multiset(t)
    ensures s == t
  {
    PermutationLength(s, t);
    if s != [] {
      SameFirst(s, t);
      SameFirst(t, s);
      TailMultiset(s);
      TailMultiset(t);
      SortedUnique(s[1..], t[1..]);
      assert s == [s[0]] + s[1..] && t == [t[0]] + t[1..];
    }
  }

  lemma ExtremesPermutation(s: seq<real>, t: seq<real>)
    requires s != [] && t != [] && multiset(s) == multiset(t)
    ensures Least(s) == Least(t) && Greatest(s) == Greatest(t)
  {
    forall x | x in s ensures x in t { assert x in multiset(s); assert x in multiset(t); }
    forall x | x in t ensures x in s { assert x in multiset(t); assert x in multiset(s); }
  }

  lemma DescribePermutation(s: seq<real>, t: seq<real>)
    requires s != [] && t != [] && multiset(s) == multiset(t)
    ensures Describe(s) == Describe(t)
  {
    PermutationLength(s, t);
    ExtremesPermutation(s, t);
    TotalPermutation(s, t);
    SortedUnique(Sorted(s), Sorted(t));
  }

  // ----- what the statistics are, without sorting -----

  function UpTo(v: real): real -> bool { (x: real) => x <= v }

  function Under(v: real): real -> bool { (x: real) => x < v }

  function Keep(p: real -> bool): real -> seq<real> { (x: real) => if p(x) then [x] else [] }

  function Those(values: seq<real>, p: real -> bool): seq<real> {
    FlatMap(Keep(p), values)
  }

  /** Fewer than k of the values lie under v, and at least k do not exceed it. */
  ghost predicate IsKth(values: seq<real>, k: nat, v: real) {
    v in values && |Those(values, Under(v))| < k <= |Those(values, UpTo(v))|
  }

  /** Half-way between the two middle values, which are one and the same for an odd number of them. */
  ghost predicate IsMiddle(values: seq<real>, m: real) {
    exists low, high :: IsLowerMiddle(values, low) && IsUpperMiddle(values, high) && m == (low + high) / 2.0
  }

  ghost predicate IsLowerMiddle(values: seq<real>, v: real) {
    IsKth(values, (|values| + 1) / 2, v)
  }

  ghost predicate IsUpperMiddle(values: seq<real>, v: real) {
    IsKth(values, |values| / 2 + 1, v)
  }

  ghost predicate IsStatistics(s: Statistics, values: seq<real>) {
    && values != [] && s.count == |values|
    && s.minimum in values && s.maximum in values && (forall i | 0 <= i < |values| :: s.minimum <= values[i] <= s.maximum)
    && s.mean == Total(values) / |values| as real
    && IsMiddle(values, s.median)
  }

  lemma {:induction false} ThoseAtMost(values: seq<real>, p: real -> bool)
    ensures |Those(values, p)| <= |values|
  {
    if values != [] { ThoseAtMost(values[..|values| - 1], p); }
  }

  lemma ThoseAll(values: seq<real>, p: real -> bool)
    requires forall i | 0 <= i < |values| :: p(values[i])
    ensures |Those(values, p)| == |values|
  {
    FlatMapSingles(Keep(p), values);
  }

  lemma ThoseNone(values: seq<real>, p: real -> bool)
    requires forall i | 0 <= i < |values| :: !p(values[i])
    ensures |Those(values, p)| == 0
  {
    FlatMapNone(Keep(p), values);
  }

  lemma ThoseSplit(values: seq<real>, p: real -> bool, k: nat)
    requires k <= |values|
    ensures |Those(values, p)| == |Those(values[..k], p)| + |Those(values[k..], p)|
  {
    FlatMapConcat(Keep(p), values[..k], values[k..]);
    assert values == values[..k] + values[k..];
  }

  lemma SortedKth(s: seq<real>, k: nat)
    requires IsSorted(s) && 1 <= k <= |s|
    ensures IsKth(s, k, s[k - 1])
  {
    var v := s[k - 1];
    ThoseSplit(s, UpTo(v), k);
    ThoseAll(s[..k], UpTo(v));
    ThoseSplit(s, Under(v), k - 1);
    ThoseNone(s[k - 1..], Under(v));
    ThoseAtMost(s[..k - 1], Under(v));
  }

  lemma KthPermutation(s: seq<real>, t: seq<real>, k: nat, v: real)
    requires multiset(s) == multiset(t) && IsKth(s, k, v)
    ensures IsKth(t, k, v)
  {
    FlatMapPermutation(Keep(Under(v)), s, t);
    PermutationLength(Those(s, Under(v)), Those(t, Under(v)));
    FlatMapPermutation(Keep(UpTo(v)), s, t);
    PermutationLength(Those(s, UpTo(v)), Those(t, UpTo(v)));
    assert v in multiset(s);
    assert v in multiset(t);
  }

  lemma MiddlePositions(n: nat)
    requires n > 0
    ensures 0 <= (n + 1) / 2 - 1 <= n / 2 < n
    ensures (n + 1) / 2 - 1 == if n % 2 == 1 then n / 2 else n / 2 - 1
  {
  }

  lemma MedianOfMiddle(sorted: seq<real>)
    requires sorted != []
    ensures var n := |sorted|;
            0 <= (n + 1) / 2 - 1 <= n / 2 < n && MedianOf(sorted) == (sorted[(n + 1) / 2 - 1] + sorted[n / 2]) / 2.0
  {
    MiddlePositions(|sorted|);
  }

  lemma SortedMiddle(sorted: seq<real>, values: seq<real>, k: nat)
    requires IsSorted(sorted) && multiset(sorted) == multiset(values) && 1 <= k <= |sorted|
    ensures IsKth(values, k, sorted[k - 1])
  {
    SortedKth(sorted, k);
    KthPermutation(sorted, values, k, sorted[k - 1]);
  }

  lemma {:induction false} MiddleFrom(values: seq<real>, m: real, low: real, high: real)
    requires IsLowerMiddle(values, low) && IsUpperMiddle(values, high) && m == (low + high) / 2.0
    ensures IsMiddle(values, m)
  {
  }

  lemma {:induction false} LowerMiddle(sorted: seq<real>, values: seq<real>, k: nat)
    requires IsSorted(sorted) && multiset(sorted) == multiset(values) && |sorted| == |values| > 0 && k == (|values| + 1) / 2
    ensures 1 <= k <= |sorted| && IsLowerMiddle(values, sorted[k - 1])
  {
    SortedMiddle(sorted, values, k);
  }

  lemma {:induction false} UpperMiddle(sorted: seq<real>, values: seq<real>, k: nat)
    requires IsSorted(sorted) && multiset(sorted) == multiset(values) && |sorted| == |values| > 0 && k == |values| / 2 + 1
    ensures 1 <= k <= |sorted| && IsUpperMiddle(values, sorted[k - 1])
  {
    SortedMiddle(sorted, values, k);
  }

  lemma {:induction false} MedianIsMiddle(values: seq<real>)
    requires values != []
    ensures IsMiddle(values, MedianOf(Sorted(values)))
  {
    var sorted := Sorted(values);
    var i: nat, j: nat := (|values| + 1) / 2, |values| / 2 + 1;
    MedianOfMiddle(sorted);
    LowerMiddle(sorted, values, i);
    UpperMiddle(sorted, values, j);
    MiddleFrom(values, MedianOf(sorted), sorted[i - 1], sorted[j - 1]);
  }

  /** Count, extremes, mean and median are what their names say of any non-empty list. */
  lemma {:induction false} DescribeIs(values: seq<real>)
    requires values != []
    ensures IsStatistics(Describe(values), values)
  {
    MedianIsMiddle(values);
  }

  // ----- integer readings give quotients of integers -----

  ghost predicate AllRational(values: seq<real>) {
    forall i | 0 <= i < |values| :: Rational(values[i])
  }

  ghost predicate RationalStatistics(s: Statistics) {
    Rational(s.minimum) && Rational(s.maximum) && Rational(s.mean) && Rational(s.median)
  }

  lemma {:induction false} TotalIsRational(values: seq<real>)
    requires AllRational(values)
    ensures Rational(Total(values))
  {
    if values == [] {
      IntegerIsRational(0);
    } else {
      var n := |values| - 1;
      TotalIsRational(values[..n]);
      SumIsRational(Total(values[..n]), values[n]);
    }
  }

  lemma MedianIsRational(sorted: seq<real>)
    requires sorted != [] && AllRational(sorted)
    ensures Rational(MedianOf(sorted))
  {
    var n := |sorted|;
    if n % 2 == 0 {
      var sum, two: nat := sorted[n / 2 - 1] + sorted[n / 2], 2;
      SumIsRational(sorted[n / 2 - 1], sorted[n / 2]);
      QuotientIsRational(sum, two);
      assert MedianOf(sorted) == sum / two as real;
    }
  }

  lemma DescribeRational(values: seq<real>)
    requires values != [] && AllRational(values)
    ensures RationalStatistics(Describe(values))
  {
    TotalIsRational(values);
    QuotientIsRational(Total(values), |values|);
    var sorted := Sorted(values);
    forall i | 0 <= i < |sorted| ensures Rational(sorted[i]) {
      assert sorted[i] in multiset(sorted);
      assert sorted[i] in values;
    }
    MedianIsRational(sorted);
  }
}
