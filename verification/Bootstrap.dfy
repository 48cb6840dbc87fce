/**
The recorded-block cluster bootstrap of a pooled median.

Each replicate draws block positions with replacement, adds the drawn blocks'
histograms into one table and scans it cumulatively for the median rank. The
theorem is that this scan returns the nearest-rank median of the concatenation
of the drawn blocks, whatever was drawn. The generator's draws are a parameter;
blocks come in their block-index order.
*/
module Bootstrap {
  import opened Wrappers
  import opened OrderStatistics

  datatype BootstrapError = NoRepetitions | EmptyBlock | UnequalBlocks | PopulationIncomplete

  datatype ConfidenceInterval = ConfidenceInterval(
    blockCount: nat, unitsPerBlock: nat, populationSize: nat, repetitions: nat, lower: int, upper: int)

  // ----- the simple form -----

  /** Every observation of every drawn block, in drawing order. */
  function Resample(blocks: seq<seq<int>>, draw: seq<nat>): seq<int>
    requires InRange(draw, |blocks|)
  {
    if draw == [] then []
    else Resample(blocks, draw[..|draw| - 1]) + blocks[draw[|draw| - 1]]
  }

  predicate InRange(draw: seq<nat>, n: nat) {
    forall j | 0 <= j < |draw| :: draw[j] < n
  }

  predicate EqualBlocks(blocks: seq<seq<int>>) {
    blocks != [] && forall i | 0 <= i < |blocks| :: 0 < |blocks[i]| == |blocks[0]|
  }

  predicate HasEmpty(blocks: seq<seq<int>>) {
    exists i | 0 <= i < |blocks| :: blocks[i] == []
  }

  /** x is an observation of the original population. */
  predicate InSome(blocks: seq<seq<int>>, x: int) {
    exists i | 0 <= i < |blocks| :: x in blocks[i]
  }

  predicate IsDraw(blocks: seq<seq<int>>, draw: seq<nat>) {
    |draw| == |blocks| && InRange(draw, |blocks|)
  }

  predicate AreDraws(blocks: seq<seq<int>>, draws: seq<seq<nat>>) {
    forall i | 0 <= i < |draws| :: IsDraw(blocks, draws[i])
  }

  lemma OneBlockMore(n: nat, units: nat)
    ensures (n + 1) * units == n * units + units
  {
  }

  lemma {:induction false} ResampleSize(blocks: seq<seq<int>>, draw: seq<nat>)
    requires EqualBlocks(blocks) && InRange(draw, |blocks|)
    ensures |Resample(blocks, draw)| == |draw| * |blocks[0]|
  {
    if draw != [] {
      var n := |draw| - 1;
      ResampleSize(blocks, draw[..n]);
      OneBlockMore(n, |blocks[0]|);
    }
  }

  lemma {:induction false} ResampleMember(blocks: seq<seq<int>>, draw: seq<nat>, x: int)
    requires InRange(draw, |blocks|)
    requires x in Resample(blocks, draw)
    ensures InSome(blocks, x)
  {
    var last := draw[|draw| - 1];
    if x !in blocks[last] { ResampleMember(blocks, draw[..|draw| - 1], x); }
  }

  /** The resample laid out: the j-th observation of the i-th drawn block. */
  lemma {:induction false} ResampleAt(blocks: seq<seq<int>>, draw: seq<nat>, i: nat, j: nat)
    requires EqualBlocks(blocks) && InRange(draw, |blocks|) && i < |draw| && j < |blocks[0]|
    ensures i * |blocks[0]| + j < |Resample(blocks, draw)|
    ensures Resample(blocks, draw)[i * |blocks[0]| + j] == blocks[draw[i]][j]
  {
    var n := |draw| - 1;
    ResampleSize(blocks, draw[..n]);
    if i < n { ResampleAt(blocks, draw[..n], i, j); }
  }

  /** The nearest-rank median of one resampled population. */
  function ReplicateMedian(blocks: seq<seq<int>>, draw: seq<nat>): int
    requires EqualBlocks(blocks) && IsDraw(blocks, draw)
  {
    ResampleSize(blocks, draw);
    NearestRankMember(Resample(blocks, draw), 50.0);
    NearestRank(Resample(blocks, draw), 50.0).value
  }

  function ReplicateMedians(blocks: seq<seq<int>>, draws: seq<seq<nat>>): (r: seq<int>)
    requires EqualBlocks(blocks) && AreDraws(blocks, draws)
    ensures |r| == |draws|
  {
    if draws == [] then []
    else ReplicateMedians(blocks, draws[..|draws| - 1]) + [ReplicateMedian(blocks, draws[|draws| - 1])]
  }

  lemma {:induction false} ReplicateMedianAt(blocks: seq<seq<int>>, draws: seq<seq<nat>>, i: nat)
    requires EqualBlocks(blocks) && AreDraws(blocks, draws) && i < |draws|
    ensures ReplicateMedians(blocks, draws)[i] == ReplicateMedian(blocks, draws[i])
  {
    if i < |draws| - 1 { ReplicateMedianAt(blocks, draws[..|draws| - 1], i); }
  }

  // ----- histograms -----

  /** One counted value more, appended when it was not yet counted. */
  function Bump(items: seq<(int, nat)>, v: int): seq<(int, nat)> {
    if items == [] then [(v, 1)]
    else if items[0].0 == v then [(v, items[0].1 + 1)] + items[1..]
    else [items[0]] + Bump(items[1..], v)
  }

  function Counter(block: seq<int>): seq<(int, nat)> {
    if block == [] then [] else Bump(Counter(block[..|block| - 1]), block[|block| - 1])
  }

  /** What a list of counted values says in total about v. */
  function Total(items: seq<(int, nat)>, v: int): nat {
    if items == [] then 0
    else Total(items[..|items| - 1], v) + if items[|items| - 1].0 == v then items[|items| - 1].1 else 0
  }

  lemma {:induction false} TotalConcat(s: seq<(int, nat)>, t: seq<(int, nat)>, v: int)
    ensures Total(s + t, v) == Total(s, v) + Total(t, v)
  {
    if t == [] {
      assert s + t == s;
    } else {
      assert (s + t)[..|s + t| - 1] == s + t[..|t| - 1];
      TotalConcat(s, t[..|t| - 1], v);
    }
  }

  lemma {:induction false} TotalBump(items: seq<(int, nat)>, x: int, v: int)
    ensures Total(Bump(items, x), v) == Total(items, v) + if x == v then 1 else 0
  {
    if items != [] {
      TotalConcat([items[0]], items[1..], v);
      assert items == [items[0]] + items[1..];
      if items[0].0 == x {
        TotalConcat([(x, items[0].1 + 1)], items[1..], v);
      } else {
        TotalConcat([items[0]], Bump(items[1..], x), v);
        TotalBump(items[1..], x, v);
      }
    }
  }

  lemma {:induction false} CounterTotal(block: seq<int>, v: int)
    ensures Total(Counter(block), v) == Occurrences(block, v)
  {
    if block != [] {
      var rest, last := block[..|block| - 1], block[|block| - 1];
      CounterTotal(rest, v);
      TotalBump(Counter(rest), last, v);
      CountConcat(rest, [last], v);
      assert block == rest + [last];
    }
  }

  lemma {:induction false} BumpMember(items: seq<(int, nat)>, x: int, i: nat)
    requires i < |Bump(items, x)|
    ensures Bump(items, x)[i].0 == x || exists j | 0 <= j < |items| :: items[j].0 == Bump(items, x)[i].0
  {
    if items != [] && items[0].0 != x && i != 0 { BumpMember(items[1..], x, i - 1); }
  }

  lemma {:induction false} CounterMember(block: seq<int>, i: nat)
    requires i < |Counter(block)|
    ensures Counter(block)[i].0 in block
  {
    if block != [] {
      var rest, last := block[..|block| - 1], block[|block| - 1];
      BumpMember(Counter(rest), last, i);
      if Counter(block)[i].0 != last {
        var j :| 0 <= j < |Counter(rest)| && Counter(rest)[j].0 == Counter(block)[i].0;
        CounterMember(rest, j);
      }
    }
  }

  // ----- sorted distinct values -----

  predicate Increasing(u: seq<int>) {
    forall i, j | 0 <= i < j < |u| :: u[i] < u[j]
  }

  function InsertDistinct(x: int, u: seq<int>): (r: seq<int>)
    ensures forall y :: y in r <==> y == x || y in u
  {
    if u == [] || x < u[0] then [x] + u
    else if x == u[0] then u
    else
      assert forall y :: y in u <==> y == u[0] || y in u[1..];
      [u[0]] + InsertDistinct(x, u[1..])
  }

  lemma {:induction false} InsertDistinctIncreasing(x: int, u: seq<int>)
    requires Increasing(u)
    ensures Increasing(InsertDistinct(x, u))
  {
    if u != [] && u[0] < x {
      InsertDistinctIncreasing(x, u[1..]);
      var rest := InsertDistinct(x, u[1..]);
      forall j | 0 <= j < |rest| ensures u[0] < rest[j] {
        assert rest[j] in rest;
        if rest[j] != x { var k :| 0 <= k < |u[1..]| && u[1..][k] == rest[j]; }
      }
    }
  }

  function SortedDistinct(values: seq<int>): (u: seq<int>)
    ensures Increasing(u) && forall y :: y in u <==> y in values
  {
    if values == [] then []
    else
      var rest := SortedDistinct(values[1..]);
      InsertDistinctIncreasing(values[0], rest);
      assert forall y :: y in values <==> y == values[0] || y in values[1..];
      InsertDistinct(values[0], rest)
  }

  function Pool(blocks: seq<seq<int>>): seq<int> {
    if blocks == [] then [] else blocks[0] + Pool(blocks[1..])
  }

  lemma {:induction false} PoolMember(blocks: seq<seq<int>>, x: int)
    ensures x in Pool(blocks) <==> InSome(blocks, x)
  {
    if blocks != [] {
      PoolMember(blocks[1..], x);
      assert blocks == [blocks[0]] + blocks[1..];
    }
  }

  predicate Indexed(block: seq<int>, index: map<int, nat>) {
    forall j | 0 <= j < |block| :: block[j] in index
  }

  predicate AllIndexed(blocks: seq<seq<int>>, index: map<int, nat>) {
    forall i | 0 <= i < |blocks| :: Indexed(blocks[i], index)
  }

  predicate IndexesOf(index: map<int, nat>, unique: seq<int>) {
    && (forall i | 0 <= i < |unique| :: unique[i] in index)
    && (forall v <- index :: index[v] < |unique| && unique[index[v]] == v)
  }

  /** A block's histogram with values replaced by their positions among the distinct values. */
  function Histogram(block: seq<int>, index: map<int, nat>): seq<(nat, nat)>
    requires Indexed(block, index)
  {
    var items := Counter(block);
    seq(|items|, i requires 0 <= i < |items| => CounterMember(block, i); (index[items[i].0], items[i].1))
  }

  // ----- the weighted table -----

  /** Copies of v contributed by all blocks, each taken as often as its multiplicity says. */
  function Weighted(multiplicity: seq<nat>, blocks: seq<seq<int>>, v: int): nat
    requires |multiplicity| == |blocks|
  {
    if blocks == [] then 0
    else
      var n := |blocks| - 1;
      Weighted(multiplicity[..n], blocks[..n], v) + multiplicity[n] * Occurrences(blocks[n], v)
  }

  lemma {:induction false} WeightedBump(multiplicity: seq<nat>, blocks: seq<seq<int>>, d: nat, v: int)
    requires |multiplicity| == |blocks| && d < |blocks|
    ensures Weighted(multiplicity[d := multiplicity[d] + 1], blocks, v)
         == Weighted(multiplicity, blocks, v) + Occurrences(blocks[d], v)
  {
    var n := |blocks| - 1;
    var bumped := multiplicity[d := multiplicity[d] + 1];
    if d == n {
      assert bumped[..n] == multiplicity[..n];
      Distribute(multiplicity[n], Occurrences(blocks[n], v));
    } else {
      assert bumped[..n] == multiplicity[..n][d := multiplicity[d] + 1];
      WeightedBump(multiplicity[..n], blocks[..n], d, v);
    }
  }

  lemma Distribute(m: nat, c: nat)
    ensures (m + 1) * c == m * c + c
  {
  }

  lemma {:induction false} WeightedZero(multiplicity: seq<nat>, blocks: seq<seq<int>>, v: int)
    requires |multiplicity| == |blocks| && forall i | 0 <= i < |multiplicity| :: multiplicity[i] == 0
    ensures Weighted(multiplicity, blocks, v) == 0
  {
    if blocks != [] { WeightedZero(multiplicity[..|blocks| - 1], blocks[..|blocks| - 1], v); }
  }

  /** One more draw adds its block's values once. */
  lemma DrawNext(blocks: seq<seq<int>>, draw: seq<nat>, j: nat, before: seq<nat>, v: int)
    requires InRange(draw, |blocks|) && j < |draw| && |before| == |blocks|
    requires Weighted(before, blocks, v) == Occurrences(Resample(blocks, draw[..j]), v)
    ensures Weighted(before[draw[j] := before[draw[j]] + 1], blocks, v)
         == Occurrences(Resample(blocks, draw[..j + 1]), v)
  {
    assert draw[..j + 1][..j] == draw[..j];
    WeightedBump(before, blocks, draw[j], v);
    CountConcat(Resample(blocks, draw[..j]), blocks[draw[j]], v);
  }

  /** How often each block was drawn. */
  method SelectMultiplicities(blocks: seq<seq<int>>, draw: seq<nat>) returns (selected: array<nat>)
    requires InRange(draw, |blocks|)
    ensures fresh(selected) && selected.Length == |blocks|
    ensures forall b | 0 <= b < |blocks| :: selected[b] == multiset(draw)[b]
    ensures forall v :: Weighted(selected[..], blocks, v) == Occurrences(Resample(blocks, draw), v)
  {
    selected := new nat[|blocks|](_ => 0);
    forall v ensures Weighted(selected[..], blocks, v) == 0 { WeightedZero(selected[..], blocks, v); }
    assert draw[..0] == [];
    for j := 0 to |draw|
      invariant forall b | 0 <= b < |blocks| :: selected[b] == multiset(draw[..j])[b]
      invariant forall v :: Weighted(selected[..], blocks, v) == Occurrences(Resample(blocks, draw[..j]), v)
    {
      ghost var before := selected[..];
      selected[draw[j]] := selected[draw[j]] + 1;
      assert selected[..] == before[draw[j] := before[draw[j]] + 1];
      assert draw[..j + 1] == draw[..j] + [draw[j]];
      forall v ensures Weighted(selected[..], blocks, v) == Occurrences(Resample(blocks, draw[..j + 1]), v) {
        DrawNext(blocks, draw, j, before, v);
      }
    }
    assert draw[..|draw|] == draw;
  }

  /** Adds one block's histogram into the table, as many times as the block was drawn. */
  method AddHistogram(counts: array<nat>, multiplicity: nat, ghost block: seq<int>,
                      histogram: seq<(nat, nat)>, unique: seq<int>, ghost index: map<int, nat>)
    requires IndexesOf(index, unique) && Increasing(unique) && counts.Length == |unique|
    requires Indexed(block, index)
    requires histogram == Histogram(block, index)
    modifies counts
    ensures forall i | 0 <= i < |unique| ::
              counts[i] == old(counts[i]) + multiplicity * Occurrences(block, unique[i])
  {
    ghost var items := Counter(block);
    for j := 0 to |histogram|
      invariant forall i | 0 <= i < |unique| ::
                  counts[i] == old(counts[i]) + multiplicity * Total(items[..j], unique[i])
    {
      var (valueIndex, count) := histogram[j];
      CounterMember(block, j);
      ghost var before := counts[..];
      counts[valueIndex] := counts[valueIndex] + multiplicity * count;
      assert items[..j + 1][..j] == items[..j];
      forall i | 0 <= i < |unique|
        ensures counts[i] == old(counts[i]) + multiplicity * Total(items[..j + 1], unique[i])
      {
        assert unique[valueIndex] == items[j].0;
        assert i != valueIndex ==> unique[i] != unique[valueIndex];
        DistributeSum(multiplicity, Total(items[..j], unique[i]), count);
      }
    }
    assert items[..|items|] == items;
    forall i | 0 <= i < |unique|
      ensures counts[i] == old(counts[i]) + multiplicity * Occurrences(block, unique[i])
    {
      CounterTotal(block, unique[i]);
    }
  }

  lemma DistributeSum(m: nat, a: nat, b: nat)
    ensures m * (a + b) == m * a + m * b
  {
  }

  /** The table of one replicate: how often each distinct value occurs in the resampled population. */
  method ResampledCounts(blocks: seq<seq<int>>, histograms: seq<seq<(nat, nat)>>, unique: seq<int>,
                         ghost index: map<int, nat>, draw: seq<nat>) returns (counts: array<nat>)
    requires IndexesOf(index, unique) && Increasing(unique)
    requires AllIndexed(blocks, index)
    requires |histograms| == |blocks|
    requires forall i | 0 <= i < |blocks| :: histograms[i] == Histogram(blocks[i], index)
    requires InRange(draw, |blocks|)
    ensures fresh(counts) && counts.Length == |unique|
    ensures forall i | 0 <= i < |unique| :: counts[i] == Occurrences(Resample(blocks, draw), unique[i])
  {
    var selected := SelectMultiplicities(blocks, draw);
    counts := new nat[|unique|](_ => 0);
    ghost var chosen := selected[..];
    for b := 0 to |blocks|
      invariant selected[..] == chosen
      invariant forall i | 0 <= i < |unique| :: counts[i] == Weighted(chosen[..b], blocks[..b], unique[i])
    {
      assert chosen[..b + 1][..b] == chosen[..b] && blocks[..b + 1][..b] == blocks[..b];
      assert chosen[..b + 1][b] == chosen[b] && blocks[..b + 1][b] == blocks[b];
      if selected[b] != 0 {
        AddHistogram(counts, selected[b], blocks[b], histograms[b], unique, index);
      }
    }
    assert chosen[..|blocks|] == chosen && blocks[..|blocks|] == blocks;
  }

  // ----- the cumulative scan -----

  lemma {:induction false} OccurrencesMember(s: seq<int>, v: int)
    ensures Occurrences(s, v) > 0 ==> v in s
  {
    if s != [] { OccurrencesMember(s[1..], v); }
  }

  predicate Covers(unique: seq<int>, population: seq<int>) {
    forall j | 0 <= j < |population| :: population[j] in unique
  }

  /** Before position i, everything the scan has accumulated lies strictly below unique[i]. */
  lemma ScanStep(population: seq<int>, unique: seq<int>, i: nat)
    requires Increasing(unique) && Covers(unique, population)
    requires i < |unique|
    ensures CountBelow(population, unique[i]) == if i == 0 then 0 else CountAtMost(population, unique[i - 1])
  {
    var lo := if i == 0 then unique[0] - 1 else unique[i - 1];
    forall j | 0 <= j < |population| ensures population[j] <= lo || unique[i] <= population[j] {
      assert population[j] in unique;
    }
    CountStep(population, lo, unique[i]);
    CountBounds(population, unique[i]);
    if i == 0 {
      assert forall j | 0 <= j < |population| :: population[j] in unique;
      CountNone(population, lo);
    }
  }

  /** The scan finds the designated value; its "population incomplete" exit is never taken. */
  method ScanForRank(unique: seq<int>, counts: array<nat>, rank: nat, ghost population: seq<int>)
    returns (r: Result<int, BootstrapError>)
    requires Increasing(unique) && counts.Length == |unique|
    requires Covers(unique, population)
    requires forall i | 0 <= i < |unique| :: counts[i] == Occurrences(population, unique[i])
    requires 1 <= rank <= |population|
    ensures r.Success? && IsKthSmallest(population, rank, r.value)
  {
    var cumulative := 0;
    for i := 0 to |unique|
      invariant cumulative == if i == 0 then 0 else CountAtMost(population, unique[i - 1])
      invariant cumulative < rank
    {
      ScanStep(population, unique, i);
      CountBounds(population, unique[i]);
      cumulative := cumulative + counts[i];
      if cumulative >= rank {
        OccurrencesMember(population, unique[i]);
        return Success(unique[i]);
      }
    }
    ScanCovers(population, unique);
    r := Failure(PopulationIncomplete);
  }

  lemma ScanCovers(population: seq<int>, unique: seq<int>)
    requires Increasing(unique) && population != [] && Covers(unique, population)
    ensures unique != [] && CountAtMost(population, unique[|unique| - 1]) == |population|
  {
    assert population[0] in unique;
    var top := unique[|unique| - 1];
    forall j | 0 <= j < |population| ensures population[j] <= top {
      assert population[j] in unique;
    }
    CountAll(population, top);
  }


  /** What every replicate starts from: the indexed histograms of equal blocks, and the rank of the median. */
  predicate Prepared(blocks: seq<seq<int>>, histograms: seq<seq<(nat, nat)>>, unique: seq<int>,
                     index: map<int, nat>, medianRank: nat)
  {
    && EqualBlocks(blocks)
    && IndexesOf(index, unique) && unique == SortedDistinct(Pool(blocks))
    && AllIndexed(blocks, index)
    && |histograms| == |blocks|
    && (forall i | 0 <= i < |blocks| :: histograms[i] == Histogram(blocks[i], index))
    && medianRank == Rank(50.0, |blocks| * |blocks[0]|)
  }

  /** One replicate by histogram equals one replicate by concatenating, sorting and indexing. */
  method Replicate(blocks: seq<seq<int>>, histograms: seq<seq<(nat, nat)>>, unique: seq<int>,
                   ghost index: map<int, nat>, medianRank: nat, draw: seq<nat>)
    returns (r: Result<int, BootstrapError>)
    requires Prepared(blocks, histograms, unique, index, medianRank) && IsDraw(blocks, draw)
    ensures r == Success(ReplicateMedian(blocks, draw))
  {
    var counts := ResampledCounts(blocks, histograms, unique, index, draw);
    ghost var population := Resample(blocks, draw);
    ResampleSize(blocks, draw);
    forall j | 0 <= j < |population| ensures population[j] in unique {
      ResampleMember(blocks, draw, population[j]);
      PoolMember(blocks, population[j]);
    }
    RankInRange(50.0, |population|);
    r := ScanForRank(unique, counts, medianRank, population);
    NearestRankIsKth(population, 50.0, r.value);
  }

  // ----- the whole interval -----

  method Prepare(blocks: seq<seq<int>>)
    returns (unique: seq<int>, index: map<int, nat>, histograms: seq<seq<(nat, nat)>>)
    ensures unique == SortedDistinct(Pool(blocks)) && IndexesOf(index, unique)
    ensures AllIndexed(blocks, index)
    ensures |histograms| == |blocks|
    ensures forall i | 0 <= i < |blocks| :: histograms[i] == Histogram(blocks[i], index)
  {
    unique := SortedDistinct(Pool(blocks));
    index := map[];
    for i := 0 to |unique|
      invariant forall j | 0 <= j < i :: unique[j] in index
      invariant forall v <- index :: index[v] < |unique| && unique[index[v]] == v
    {
      index := index[unique[i] := i];
    }
    forall i, j | 0 <= i < |blocks| && 0 <= j < |blocks[i]| ensures blocks[i][j] in index {
      PoolMember(blocks, blocks[i][j]);
    }
    histograms := [];
    for i := 0 to |blocks|
      invariant |histograms| == i
      invariant forall j | 0 <= j < i :: histograms[j] == Histogram(blocks[j], index)
    {
      histograms := histograms + [Histogram(blocks[i], index)];
    }
  }

  /** One replicate per draw; the first that cannot be completed would end the computation. */
  method ReplicateAll(blocks: seq<seq<int>>, histograms: seq<seq<(nat, nat)>>, unique: seq<int>,
                      ghost index: map<int, nat>, medianRank: nat, draws: seq<seq<nat>>)
    returns (r: Result<seq<int>, BootstrapError>)
    requires Prepared(blocks, histograms, unique, index, medianRank) && AreDraws(blocks, draws)
    ensures r == Success(ReplicateMedians(blocks, draws))
  {
    var medians := [];
    for i := 0 to |draws|
      invariant medians == ReplicateMedians(blocks, draws[..i])
    {
      assert draws[..i + 1][..i] == draws[..i];
      var median := Replicate(blocks, histograms, unique, index, medianRank, draws[i]);
      if median.Failure? {
        return Failure(PopulationIncomplete);
      }
      medians := medians + [median.value];
    }
    assert draws[..|draws|] == draws;
    r := Success(medians);
  }

  /** One median per resample, and the ends the least of them that 2.5 and 97.5 percent of them do not exceed. */
  ghost predicate EndsOfMedians(blocks: seq<seq<int>>, draws: seq<seq<nat>>, lower: int, upper: int)
    requires AreDraws(blocks, draws)
  {
    exists medians: seq<int> ::
      && AreMedians(blocks, draws, medians)
      && IsQuantile(medians, 2.5, lower) && IsQuantile(medians, 97.5, upper)
  }

  ghost predicate AreMedians(blocks: seq<seq<int>>, draws: seq<seq<nat>>, medians: seq<int>)
    requires AreDraws(blocks, draws)
  {
    |medians| == |draws| && forall i | 0 <= i < |draws| :: IsMedian(Resample(blocks, draws[i]), medians[i])
  }

  lemma ReplicatesAreMedians(blocks: seq<seq<int>>, draws: seq<seq<nat>>)
    requires EqualBlocks(blocks) && AreDraws(blocks, draws)
    ensures AreMedians(blocks, draws, ReplicateMedians(blocks, draws))
  {
    var medians := ReplicateMedians(blocks, draws);
    forall i | 0 <= i < |draws| ensures IsMedian(Resample(blocks, draws[i]), medians[i]) {
      ReplicateMedianAt(blocks, draws, i);
      ResampleSize(blocks, draws[i]);
      NearestRankMember(Resample(blocks, draws[i]), 50.0);
      NearestRankMedian(Resample(blocks, draws[i]), medians[i]);
    }
  }

  lemma EndsAreQuantiles(blocks: seq<seq<int>>, draws: seq<seq<nat>>, lower: int, upper: int)
    requires EqualBlocks(blocks) && AreDraws(blocks, draws) && draws != []
    requires NearestRank(ReplicateMedians(blocks, draws), 2.5) == Success(lower)
    requires NearestRank(ReplicateMedians(blocks, draws), 97.5) == Success(upper)
    ensures EndsOfMedians(blocks, draws, lower, upper)
  {
    var medians := ReplicateMedians(blocks, draws);
    ReplicatesAreMedians(blocks, draws);
    NearestRankIsQuantile(medians, 2.5);
    NearestRankIsQuantile(medians, 97.5);
  }

  method BlockBootstrapMedianCi(blocks: seq<seq<int>>, draws: seq<seq<nat>>)
    returns (r: Result<ConfidenceInterval, BootstrapError>)
    requires AreDraws(blocks, draws)
    ensures r == Failure(NoRepetitions) <==> draws == []
    ensures r == Failure(EmptyBlock) <==> draws != [] && (blocks == [] || HasEmpty(blocks))
    ensures r.Success? <==> draws != [] && EqualBlocks(blocks)
    ensures r != Failure(PopulationIncomplete)
    ensures r.Success? ==>
              var medians := ReplicateMedians(blocks, draws);
              && NearestRank(medians, 2.5) == Success(r.value.lower)
              && NearestRank(medians, 97.5) == Success(r.value.upper)
              && r.value.blockCount == |blocks| && r.value.unitsPerBlock == |blocks[0]|
              && r.value.populationSize == |Resample(blocks, draws[0])|
              && r.value.repetitions == |medians|
              && r.value.lower <= r.value.upper
              && InSome(blocks, r.value.lower)
              && InSome(blocks, r.value.upper)
    ensures r.Success? ==> EndsOfMedians(blocks, draws, r.value.lower, r.value.upper)
  {
    if draws == [] {
      return Failure(NoRepetitions);
    }
    if blocks == [] || HasEmpty(blocks) {
      return Failure(EmptyBlock);
    }
    var unitsPerBlock := |blocks[0]|;
    if exists i | 0 <= i < |blocks| :: |blocks[i]| != unitsPerBlock {
      return Failure(UnequalBlocks);
    }
    var unique, index, histograms := Prepare(blocks);
    var size := |blocks| * unitsPerBlock;
    SizePositive(|blocks|, unitsPerBlock);
    RankInRange(50.0, size);
    var medianRank := Rank(50.0, size);
    var replicated := ReplicateAll(blocks, histograms, unique, index, medianRank, draws);
    if replicated.Failure? {
      return Failure(PopulationIncomplete);
    }
    var medians := replicated.value;
    IntervalFacts(blocks, draws, medians);
    ResampleSize(blocks, draws[0]);
    var lower, upper := NearestRank(medians, 2.5), NearestRank(medians, 97.5);
    EndsAreQuantiles(blocks, draws, lower.value, upper.value);
    r := Success(ConfidenceInterval(|blocks|, unitsPerBlock, size, |draws|, lower.value, upper.value));
  }

  lemma SizePositive(a: nat, b: nat)
    requires a > 0 && b > 0
    ensures a * b > 0
  {
  }

  lemma MedianObserved(blocks: seq<seq<int>>, draw: seq<nat>)
    requires EqualBlocks(blocks) && IsDraw(blocks, draw)
    ensures InSome(blocks, ReplicateMedian(blocks, draw))
  {
    ResampleSize(blocks, draw);
    NearestRankMember(Resample(blocks, draw), 50.0);
    ResampleMember(blocks, draw, ReplicateMedian(blocks, draw));
  }

  /** Both ends are observed values, in order. */
  lemma IntervalFacts(blocks: seq<seq<int>>, draws: seq<seq<nat>>, medians: seq<int>)
    requires draws != [] && EqualBlocks(blocks) && AreDraws(blocks, draws)
    requires medians == ReplicateMedians(blocks, draws)
    ensures NearestRank(medians, 2.5).Success? && NearestRank(medians, 97.5).Success?
    ensures NearestRank(medians, 2.5).value <= NearestRank(medians, 97.5).value
    ensures InSome(blocks, NearestRank(medians, 2.5).value)
    ensures InSome(blocks, NearestRank(medians, 97.5).value)
  {
    NearestRankMonotone(medians, 2.5, 97.5);
    NearestRankMember(medians, 2.5);
    NearestRankMember(medians, 97.5);
    forall i | 0 <= i < |medians| ensures InSome(blocks, medians[i]) {
      ReplicateMedianAt(blocks, draws, i);
      MedianObserved(blocks, draws[i]);
    }
  }
}
