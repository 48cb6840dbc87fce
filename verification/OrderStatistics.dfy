/**
Nearest-rank order statistics over integer nanosecond readings.

`NearestRank` sorts and indexes, as the evidence code does. Its meaning is given
without sorting: the k-th smallest value is the one with fewer than k values
strictly below it and at least k values at or below it. Every theorem about
medians (the bootstrap scan, order independence, dominance) goes through that
counting characterisation.
*/
module OrderStatistics {
  import opened Wrappers
  import opened Sequences

  datatype StatisticsError = EmptyValues | PercentileOutOfRange

  // ----- counting -----

  function CountAtMost(s: seq<int>, v: int): nat {
    if s == [] then 0 else (if s[0] <= v then 1 else 0) + CountAtMost(s[1..], v)
  }

  function Occurrences(s: seq<int>, v: int): nat {
    if s == [] then 0 else (if s[0] == v then 1 else 0) + Occurrences(s[1..], v)
  }

  /** Readings are integers, so "strictly below v" is "at most v - 1". */
  function CountBelow(s: seq<int>, v: int): nat {
    CountAtMost(s, v - 1)
  }

  /** v is the k-th smallest value of s, counting from one. */
  ghost predicate IsKthSmallest(s: seq<int>, k: nat, v: int) {
    v in s && CountBelow(s, v) < k <= CountAtMost(s, v)
  }

  lemma {:induction false} CountBounds(s: seq<int>, v: int)
    ensures CountAtMost(s, v) <= |s|
    ensures CountAtMost(s, v) == CountBelow(s, v) + Occurrences(s, v)
  {
    if s != [] { CountBounds(s[1..], v); }
  }

  lemma {:induction false} CountMonotone(s: seq<int>, v: int, w: int)
    requires v <= w
    ensures CountAtMost(s, v) <= CountAtMost(s, w)
  {
    if s != [] { CountMonotone(s[1..], v, w); }
  }

  lemma {:induction false} CountConcat(s: seq<int>, t: seq<int>, v: int)
    ensures CountAtMost(s + t, v) == CountAtMost(s, v) + CountAtMost(t, v)
    ensures Occurrences(s + t, v) == Occurrences(s, v) + Occurrences(t, v)
  {
    if s == [] {
      assert s + t == t;
    } else {
      assert (s + t)[1..] == s[1..] + t;
      CountConcat(s[1..], t, v);
    }
  }

  /** If no value lies strictly between lo and hi, stepping from lo to hi adds exactly hi's copies. */
  lemma {:induction false} CountStep(s: seq<int>, lo: int, hi: int)
    requires lo < hi
    requires forall i | 0 <= i < |s| :: s[i] <= lo || hi <= s[i]
    ensures CountAtMost(s, hi) == CountAtMost(s, lo) + Occurrences(s, hi)
  {
    if s != [] {
      CountStep(s[1..], lo, hi);
    }
  }

  lemma {:induction false} CountNone(s: seq<int>, v: int)
    requires forall i | 0 <= i < |s| :: v < s[i]
    ensures CountAtMost(s, v) == 0
  {
    if s != [] { CountNone(s[1..], v); }
  }

  lemma {:induction false} CountAll(s: seq<int>, v: int)
    requires forall i | 0 <= i < |s| :: s[i] <= v
    ensures CountAtMost(s, v) == |s|
  {
    if s != [] { CountAll(s[1..], v); }
  }

  /** Counts depend on the multiset of values only. */
  lemma {:induction false} CountPermutation(s: seq<int>, t: seq<int>, v: int)
    requires multiset(s) == multiset(t)
    ensures CountAtMost(s, v) == CountAtMost(t, v)
  {
    PermutationLength(s, t);
    if s != [] {
      var i := PermutationStep(s, t);
      CountPermutation(s[1..], Without(t, i), v);
      CountConcat(t[..i], t[i + 1..], v);
      CountConcat(t[..i], t[i..], v);
      assert t[..i] + t[i..] == t;
    }
  }

  // ----- uniqueness and ordering of order statistics -----

  lemma KthMonotone(s: seq<int>, j: nat, v: int, k: nat, w: int)
    requires j <= k
    requires IsKthSmallest(s, j, v) && IsKthSmallest(s, k, w)
    ensures v <= w
  {
    if w < v {
      CountMonotone(s, w, v - 1);
      assert false;
    }
  }

  lemma KthUnique(s: seq<int>, k: nat, v: int, w: int)
    requires IsKthSmallest(s, k, v) && IsKthSmallest(s, k, w)
    ensures v == w
  {
    KthMonotone(s, k, v, k, w);
    KthMonotone(s, k, w, k, v);
  }

  /** Pointwise dominance lifts to every order statistic. */
  lemma KthDominance(s: seq<int>, t: seq<int>, k: nat, v: int, w: int)
    requires |s| == |t|
    requires forall i | 0 <= i < |s| :: s[i] <= t[i]
    requires IsKthSmallest(s, k, v) && IsKthSmallest(t, k, w)
    ensures v <= w
  {
    if w < v {
      DominatedCount(s, t, w);
      CountMonotone(s, w, v - 1);
      assert false;
    }
  }

  lemma {:induction false} DominatedCount(s: seq<int>, t: seq<int>, v: int)
    requires |s| == |t|
    requires forall i | 0 <= i < |s| :: s[i] <= t[i]
    ensures CountAtMost(t, v) <= CountAtMost(s, v)
  {
    if s != [] { DominatedCount(s[1..], t[1..], v); }
  }

  lemma KthPermutation(s: seq<int>, t: seq<int>, k: nat, v: int)
    requires multiset(s) == multiset(t)
    ensures IsKthSmallest(s, k, v) <==> IsKthSmallest(t, k, v)
  {
    CountPermutation(s, t, v);
    CountPermutation(s, t, v - 1);
    assert v in s <==> v in multiset(s);
    assert v in t <==> v in multiset(t);
  }

  // ----- sorting -----

  predicate IsSorted(s: seq<int>) {
    forall i, j | 0 <= i < j < |s| :: s[i] <= s[j]
  }

  function Insert(x: int, s: seq<int>): (r: seq<int>)
    ensures multiset(r) == multiset(s) + multiset{x}
  {
    if s == [] || x <= s[0] then [x] + s
    else
      assert s == [s[0]] + s[1..];
      [s[0]] + Insert(x, s[1..])
  }

  lemma {:induction false} InsertSorted(x: int, s: seq<int>)
    requires IsSorted(s)
    ensures IsSorted(Insert(x, s))
  {
    if s != [] && s[0] < x {
      InsertSorted(x, s[1..]);
      var rest := Insert(x, s[1..]);
      forall j | 0 <= j < |rest| ensures s[0] <= rest[j] {
        assert rest[j] in multiset(s[1..]) + multiset{x};
      }
    }
  }

  function Sorted(s: seq<int>): (r: seq<int>)
    ensures IsSorted(r) && multiset(r) == multiset(s)
    ensures |r| == |s|
  {
    if s == [] then []
    else
      assert s == [s[0]] + s[1..];
      InsertSorted(s[0], Sorted(s[1..]));
      var r := Insert(s[0], Sorted(s[1..]));
      assert |multiset(r)| == |multiset(s)|;
      r
  }

  lemma SortedIndexIsKth(s: seq<int>, k: nat)
    requires IsSorted(s) && 1 <= k <= |s|
    ensures IsKthSmallest(s, k, s[k - 1])
  {
    var v := s[k - 1];
    CountAll(s[..k], v);
    CountConcat(s[..k], s[k..], v);
    assert s == s[..k] + s[k..];
    CountNone(s[k - 1..], v - 1);
    CountConcat(s[..k - 1], s[k - 1..], v - 1);
    assert s == s[..k - 1] + s[k - 1..];
    CountBounds(s[..k - 1], v - 1);
  }

  // ----- nearest rank -----

  function Ceiling(x: real): int {
    if x.Floor as real == x then x.Floor else x.Floor + 1
  }

  /** The one-based rank selected for a percentile in (0, 100]. */
  function Rank(percentile: real, n: nat): int {
    Ceiling(percentile / 100.0 * n as real)
  }

  lemma RankInRange(percentile: real, n: nat)
    requires 0.0 < percentile <= 100.0 && 0 < n
    ensures 1 <= Rank(percentile, n) <= n
  {
    var share := percentile / 100.0;
    assert 0.0 < share <= 1.0;
    ShareOf(share, n as real);
  }

  lemma ShareOf(share: real, whole: real)
    requires 0.0 < share <= 1.0 && 0.0 < whole
    ensures 0.0 < share * whole <= whole
  {
    assert share * whole <= 1.0 * whole;
  }

  lemma RankMonotone(p: real, q: real, n: nat)
    requires 0.0 < p <= q <= 100.0
    ensures Rank(p, n) <= Rank(q, n)
  {
    ScaleMonotone(p / 100.0, q / 100.0, n as real);
  }

  lemma ScaleMonotone(x: real, y: real, whole: real)
    requires x <= y && 0.0 <= whole
    ensures x * whole <= y * whole
  {
  }

  /** The integer form of the median rank. */
  lemma MedianRank(n: nat)
    ensures Rank(50.0, n) == (n + 1) / 2
  {
    assert 50.0 / 100.0 * n as real == n as real / 2.0;
    if n % 2 == 0 {
      assert n as real / 2.0 == (n / 2) as real;
    } else {
      assert n as real / 2.0 == (n / 2) as real + 0.5;
    }
  }

  function NearestRank(values: seq<int>, percentile: real): Result<int, StatisticsError> {
    if values == [] then Failure(EmptyValues)
    else if !(0.0 < percentile <= 100.0) then Failure(PercentileOutOfRange)
    else
      RankInRange(percentile, |values|);
      Success(Sorted(values)[Rank(percentile, |values|) - 1])
  }

  /** Sorting and indexing finds exactly the value that counting designates. */
  lemma NearestRankIsKth(values: seq<int>, percentile: real, v: int)
    requires values != [] && 0.0 < percentile <= 100.0
    ensures 1 <= Rank(percentile, |values|) <= |values|
    ensures NearestRank(values, percentile) == Success(v)
       <==> IsKthSmallest(values, Rank(percentile, |values|), v)
  {
    RankInRange(percentile, |values|);
    var ordered, k := Sorted(values), Rank(percentile, |values|);
    SortedIndexIsKth(ordered, k);
    KthPermutation(ordered, values, k, ordered[k - 1]);
    if IsKthSmallest(values, k, v) {
      KthUnique(values, k, v, ordered[k - 1]);
    }
  }

  // ----- what a percentile is, without ranks -----

  /** At least the given share of the values lies at or below v. */
  predicate Reaches(values: seq<int>, percentile: real, v: int) {
    CountAtMost(values, v) as real >= percentile / 100.0 * |values| as real
  }

  /** The least of the values at or below which the given share of them lies. */
  ghost predicate IsQuantile(values: seq<int>, percentile: real, v: int) {
    && v in values && Reaches(values, percentile, v)
    && forall i | 0 <= i < |values| && Reaches(values, percentile, values[i]) :: v <= values[i]
  }

  lemma QuantileUnique(values: seq<int>, percentile: real, v: int, w: int)
    requires IsQuantile(values, percentile, v) && IsQuantile(values, percentile, w)
    ensures v == w
  {
    var i :| 0 <= i < |values| && values[i] == v;
    var j :| 0 <= j < |values| && values[j] == w;
  }

  /** A rank is the least whole number not below its share. */
  lemma RankCovers(percentile: real, n: nat, count: nat)
    ensures count as real >= percentile / 100.0 * n as real <==> count >= Rank(percentile, n)
  {
    CeilingIsLeast(percentile / 100.0 * n as real, count);
  }

  lemma CeilingIsLeast(x: real, n: int)
    ensures n as real >= x <==> n >= Ceiling(x)
  {
  }

  lemma KthIsQuantile(values: seq<int>, percentile: real, v: int)
    requires values != [] && 0.0 < percentile <= 100.0
    requires IsKthSmallest(values, Rank(percentile, |values|), v)
    ensures IsQuantile(values, percentile, v)
  {
    RankCovers(percentile, |values|, CountAtMost(values, v));
    forall i | 0 <= i < |values| && Reaches(values, percentile, values[i]) ensures v <= values[i] {
      RankCovers(percentile, |values|, CountAtMost(values, values[i]));
      if values[i] < v { CountMonotone(values, values[i], v - 1); }
    }
  }

  /** The value taken is the least that reaches its share; nothing is taken only from nothing or off the scale. */
  lemma NearestRankIsQuantile(values: seq<int>, percentile: real)
    ensures NearestRank(values, percentile) == Failure(EmptyValues) <==> values == []
    ensures NearestRank(values, percentile) == Failure(PercentileOutOfRange)
       <==> values != [] && !(0.0 < percentile <= 100.0)
    ensures forall v ::
              (NearestRank(values, percentile) == Success(v)
               <==> values != [] && 0.0 < percentile <= 100.0 && IsQuantile(values, percentile, v))
  {
    if values != [] && 0.0 < percentile <= 100.0 {
      var taken := NearestRank(values, percentile).value;
      NearestRankIsKth(values, percentile, taken);
      KthIsQuantile(values, percentile, taken);
      forall v | IsQuantile(values, percentile, v) ensures v == taken { QuantileUnique(values, percentile, v, taken); }
    }
  }

  /** The median is the value of the middle rank, the lower one of two. */
  ghost predicate IsMedian(values: seq<int>, v: int) {
    IsKthSmallest(values, (|values| + 1) / 2, v)
  }

  lemma NearestRankMedian(values: seq<int>, v: int)
    requires values != []
    ensures NearestRank(values, 50.0) == Success(v) <==> IsMedian(values, v)
  {
    MedianRank(|values|);
    NearestRankIsKth(values, 50.0, v);
  }

  /** Reordering the observations changes no percentile, nor whether one can be taken. */
  lemma NearestRankPermutation(s: seq<int>, t: seq<int>, percentile: real)
    requires multiset(s) == multiset(t)
    ensures NearestRank(s, percentile) == NearestRank(t, percentile)
  {
    assert |s| == |multiset(s)| == |multiset(t)| == |t|;
    if s != [] && 0.0 < percentile <= 100.0 {
      var v := NearestRank(s, percentile).value;
      NearestRankIsKth(s, percentile, v);
      KthPermutation(s, t, Rank(percentile, |s|), v);
      NearestRankIsKth(t, percentile, v);
    }
  }

  /** If every observation of s is at most its partner in t, so is every percentile. */
  lemma NearestRankDominance(s: seq<int>, t: seq<int>, percentile: real)
    requires |s| == |t| && s != [] && 0.0 < percentile <= 100.0
    requires forall i | 0 <= i < |s| :: s[i] <= t[i]
    ensures NearestRank(s, percentile).Success? && NearestRank(t, percentile).Success?
    ensures NearestRank(s, percentile).value <= NearestRank(t, percentile).value
  {
    var v, w := NearestRank(s, percentile).value, NearestRank(t, percentile).value;
    NearestRankIsKth(s, percentile, v);
    NearestRankIsKth(t, percentile, w);
    KthDominance(s, t, Rank(percentile, |s|), v, w);
  }

  lemma NearestRankMember(values: seq<int>, percentile: real)
    requires values != [] && 0.0 < percentile <= 100.0
    ensures NearestRank(values, percentile).Success?
    ensures NearestRank(values, percentile).value in values
  {
    NearestRankIsKth(values, percentile, NearestRank(values, percentile).value);
  }

  /** Percentiles of one population are ordered as their percentages are. */
  lemma NearestRankMonotone(values: seq<int>, p: real, q: real)
    requires values != [] && 0.0 < p <= q <= 100.0
    ensures NearestRank(values, p).Success? && NearestRank(values, q).Success?
    ensures NearestRank(values, p).value <= NearestRank(values, q).value
  {
    var v, w := NearestRank(values, p).value, NearestRank(values, q).value;
    NearestRankIsKth(values, p, v);
    NearestRankIsKth(values, q, w);
    RankMonotone(p, q, |values|);
    KthMonotone(values, Rank(p, |values|), v, Rank(q, |values|), w);
  }
}
