/**
Batch summaries and batch comparisons: repetitions collapsed into one median per
block/permutation/surface unit, then surfaces compared inside each unit.
*/
module Batches {
  import opened Wrappers
  import opened Sequences
  import opened Ordering
  import opened Grouping
  import opened OrderStatistics
  import opened Population

  datatype BatchError =
    | RepetitionCount(key: Key) | RepetitionCoordinates(key: Key) | UnknownSurfaceName | MissingComposition
    | CompositionOutsideC | EmptyBatch
    | DuplicateSurface(unit: Key) | IncompleteUnit(unit: Key) | MissingCompositionMedian | ReferenceNotPositive

  /** unit is (run, layer, scenario, block, permutation). */
  datatype BatchSummary = BatchSummary(
    unit: Key, surface: string, repetitionCount: nat,
    producerMedian: int, compositionMedian: Option<int>, totalMedian: int)

  function UnitOf(sample: Sample): Key {
    [Text(sample.runId), Text(sample.layer), Text(sample.scenario), Number(sample.block), Number(sample.permutation)]
  }

  function BatchKey(sample: Sample): Key {
    UnitOf(sample) + [Text(sample.surface)]
  }

  predicate IsBatchKey(key: Key) {
    |key| == 6 && key[5].Text?
  }

  // ----- the simple form of grouping -----

  function BatchKeys(samples: seq<Sample>): seq<Key> {
    KeysOf(samples, BatchKey)
  }

  function Group(samples: seq<Sample>, key: Key): seq<Sample> {
    GroupOf(samples, BatchKey, key)
  }

  function Producers(group: seq<Sample>): seq<int> {
    FlatMap((s: Sample) => [s.producerNs], group)
  }

  function Totals(group: seq<Sample>): seq<int> {
    FlatMap((s: Sample) => [s.totalNs], group)
  }

  function Compositions(group: seq<Sample>): seq<int> {
    FlatMap((s: Sample) => if s.compositionNs.Some? then [s.compositionNs.value] else [], group)
  }

  function Repetitions(group: seq<Sample>): seq<int> {
    FlatMap((s: Sample) => [s.repetition], group)
  }

  function Median(values: seq<int>): Result<int, BatchError> {
    match NearestRank(values, 50.0)
    case Success(v) => Success(v)
    case Failure(_) => Failure(EmptyBatch)
  }

  function CompositionMedian(surface: Surface, group: seq<Sample>): Result<Option<int>, BatchError> {
    var laps := Compositions(group);
    if surface == C then
      if |laps| != |group| then Failure(MissingComposition)
      else
        var m :- Median(laps);
        Success(Some(m))
    else if laps != [] then Failure(CompositionOutsideC)
    else Success(None)
  }

  function Summarize(key: Key, group: seq<Sample>, repetitions: int): Result<BatchSummary, BatchError>
    requires IsBatchKey(key)
  {
    if |group| != repetitions then Failure(RepetitionCount(key))
    else if ToSet(Repetitions(group)) != Range(repetitions) then Failure(RepetitionCoordinates(key))
    else
      match ParseSurface(key[5].text)
      case None => Failure(UnknownSurfaceName)
      case Some(surface) => SummarizeLaps(key, surface, group)
  }

  function SummarizeLaps(key: Key, surface: Surface, group: seq<Sample>): Result<BatchSummary, BatchError>
    requires IsBatchKey(key)
  {
    BuildSummary(key, |group|, CompositionMedian(surface, group), Median(Producers(group)), Median(Totals(group)))
  }

  function BuildSummary(key: Key, count: nat, composition: Result<Option<int>, BatchError>,
                        producer: Result<int, BatchError>, total: Result<int, BatchError>): Result<BatchSummary, BatchError>
    requires IsBatchKey(key)
  {
    var c :- composition;
    var p :- producer;
    var t :- total;
    Success(BatchSummary(key[..5], key[5].text, count, p, c, t))
  }

  predicate AreBatchKeys(keys: seq<Key>) {
    forall i | 0 <= i < |keys| :: IsBatchKey(keys[i])
  }

  /** Summaries of the given batches in order; the first failing batch decides. */
  function SummarizeAll(keys: seq<Key>, samples: seq<Sample>, repetitions: int): Result<seq<BatchSummary>, BatchError>
    requires AreBatchKeys(keys)
  {
    if keys == [] then Success([])
    else
      var n := |keys| - 1;
      var earlier :- SummarizeAll(keys[..n], samples, repetitions);
      var last :- Summarize(keys[n], Group(samples, keys[n]), repetitions);
      Success(earlier + [last])
  }

  function SummaryKeys(samples: seq<Sample>): (keys: seq<Key>)
    ensures AreBatchKeys(keys)
  {
    var keys := SortedKeys(BatchKeys(samples));
    assert forall i | 0 <= i < |keys| :: keys[i] in BatchKeys(samples);
    keys
  }

  function BatchSummaries(samples: seq<Sample>, repetitions: int): Result<seq<BatchSummary>, BatchError> {
    SummarizeAll(SummaryKeys(samples), samples, repetitions)
  }

  // ----- the dictionary form refines it -----

  method ComputeBatchSummaries(samples: seq<Sample>, repetitions: int)
    returns (r: Result<seq<BatchSummary>, BatchError>)
    ensures r == BatchSummaries(samples, repetitions)
  {
    var groups, order := Collect(samples, BatchKey);
    var keys := SortedKeys(order);
    AscendingUnique(keys, SummaryKeys(samples));
    forall i | 0 <= i < |keys| ensures keys[i] in groups && groups[keys[i]] == Group(samples, keys[i]) {
      assert keys[i] in keys;
    }
    r := SummarizeGroups(groups, keys, samples, repetitions);
  }

  method SummarizeGroups(groups: map<Key, seq<Sample>>, keys: seq<Key>, samples: seq<Sample>, repetitions: int)
    returns (r: Result<seq<BatchSummary>, BatchError>)
    requires AreBatchKeys(keys)
    requires forall i | 0 <= i < |keys| :: keys[i] in groups && groups[keys[i]] == Group(samples, keys[i])
    ensures r == SummarizeAll(keys, samples, repetitions)
  {
    var summaries := [];
    for i := 0 to |keys|
      invariant SummarizeAll(keys[..i], samples, repetitions) == Success(summaries)
    {
      assert keys[..i + 1][..i] == keys[..i];
      var summary := Summarize(keys[i], groups[keys[i]], repetitions);
      if summary.Failure? {
        FailurePersists(keys, samples, repetitions, i + 1);
        return Failure(summary.error);
      }
      summaries := summaries + [summary.value];
    }
    assert keys[..|keys|] == keys;
    r := Success(summaries);
  }

  lemma {:induction false} FailurePersists(keys: seq<Key>, samples: seq<Sample>, repetitions: int, n: nat)
    requires AreBatchKeys(keys) && n <= |keys|
    requires SummarizeAll(keys[..n], samples, repetitions).Failure?
    ensures SummarizeAll(keys, samples, repetitions) == SummarizeAll(keys[..n], samples, repetitions)
    decreases |keys|
  {
    if n == |keys| {
      assert keys[..n] == keys;
    } else {
      var rest := keys[..|keys| - 1];
      assert rest[..n] == keys[..n];
      FailurePersists(rest, samples, repetitions, n);
    }
  }

  // ----- sample order is irrelevant -----

  lemma SummarizePermutation(key: Key, g: seq<Sample>, h: seq<Sample>, repetitions: int)
    requires IsBatchKey(key) && multiset(g) == multiset(h)
    ensures Summarize(key, g, repetitions) == Summarize(key, h, repetitions)
  {
    PermutationLength(g, h);
    RepetitionsPermutation(g, h);
    match ParseSurface(key[5].text)
    case None =>
    case Some(surface) => SummarizeLapsPermutation(key, surface, g, h);
  }

  lemma RepetitionsPermutation(g: seq<Sample>, h: seq<Sample>)
    requires multiset(g) == multiset(h)
    ensures ToSet(Repetitions(g)) == ToSet(Repetitions(h))
  {
    FlatMapPermutation((s: Sample) => [s.repetition], g, h);
    SameElements(Repetitions(g), Repetitions(h));
  }

  lemma SummarizeLapsPermutation(key: Key, surface: Surface, g: seq<Sample>, h: seq<Sample>)
    requires IsBatchKey(key) && multiset(g) == multiset(h)
    ensures SummarizeLaps(key, surface, g) == SummarizeLaps(key, surface, h)
  {
    PermutationLength(g, h);
    LapsPermutation(g, h);
  }

  lemma LapsPermutation(g: seq<Sample>, h: seq<Sample>)
    requires multiset(g) == multiset(h)
    ensures Median(Producers(g)) == Median(Producers(h))
    ensures Median(Totals(g)) == Median(Totals(h))
    ensures forall surface :: CompositionMedian(surface, g) == CompositionMedian(surface, h)
  {
    FlatMapPermutation((s: Sample) => [s.producerNs], g, h);
    NearestRankPermutation(Producers(g), Producers(h), 50.0);
    FlatMapPermutation((s: Sample) => [s.totalNs], g, h);
    NearestRankPermutation(Totals(g), Totals(h), 50.0);
    CompositionPermutation(g, h);
  }

  lemma CompositionPermutation(g: seq<Sample>, h: seq<Sample>)
    requires multiset(g) == multiset(h)
    ensures forall surface :: CompositionMedian(surface, g) == CompositionMedian(surface, h)
  {
    PermutationLength(g, h);
    FlatMapPermutation((s: Sample) => if s.compositionNs.Some? then [s.compositionNs.value] else [], g, h);
    NearestRankPermutation(Compositions(g), Compositions(h), 50.0);
    PermutationLength(Compositions(g), Compositions(h));
  }

  lemma SameElements(s: seq<int>, t: seq<int>)
    requires multiset(s) == multiset(t)
    ensures ToSet(s) == ToSet(t)
  {
    assert forall x :: x in s <==> x in multiset(s);
    assert forall x :: x in t <==> x in multiset(t);
  }

  lemma {:induction false} SummarizeAllPermutation(keys: seq<Key>, s: seq<Sample>, t: seq<Sample>, repetitions: int)
    requires AreBatchKeys(keys) && multiset(s) == multiset(t)
    ensures SummarizeAll(keys, s, repetitions) == SummarizeAll(keys, t, repetitions)
  {
    if keys != [] {
      var key := keys[|keys| - 1];
      SummarizeAllPermutation(keys[..|keys| - 1], s, t, repetitions);
      GroupPermutation(s, t, BatchKey, key);
      SummarizePermutation(key, Group(s, key), Group(t, key), repetitions);
    }
  }

  /** Any reordering of the samples gives the identical output sequence, or the identical error. */
  lemma BatchSummariesPermutation(s: seq<Sample>, t: seq<Sample>, repetitions: int)
    requires multiset(s) == multiset(t)
    ensures BatchSummaries(s, repetitions) == BatchSummaries(t, repetitions)
  {
    forall k ensures k in SummaryKeys(s) <==> k in SummaryKeys(t) {
      if k in BatchKeys(s) { KeysPermutation(s, t, BatchKey, k); }
      if k in BatchKeys(t) { KeysPermutation(t, s, BatchKey, k); }
    }
    AscendingUnique(SummaryKeys(s), SummaryKeys(t));
    SummarizeAllPermutation(SummaryKeys(s), s, t, repetitions);
  }
}
