/**
What batch summaries and batch comparisons mean, for any samples and any summaries: when they
can be computed, and every number in them, in terms of the samples' own fields.
*/
module BatchMeaning {
  import opened Wrappers
  import opened Sequences
  import opened Ordering
  import opened Grouping
  import opened OrderStatistics
  import opened Population
  import opened Batches
  import opened Comparisons
  import opened PopulationBatches

  // ----- a batch -----

  predicate SameUnit(s: Sample, t: Sample) {
    s.runId == t.runId && s.layer == t.layer && s.scenario == t.scenario && s.block == t.block && s.permutation == t.permutation
  }

  predicate SameBatch(s: Sample, t: Sample) {
    SameUnit(s, t) && s.surface == t.surface
  }

  /** The samples of s's own batch, in order. */
  function BatchOf(samples: seq<Sample>, s: Sample): seq<Sample> {
    FlatMap((x: Sample) => if SameBatch(x, s) then [x] else [], samples)
  }

  lemma BatchKeyExact(s: Sample, t: Sample)
    ensures BatchKey(s) == BatchKey(t) <==> SameBatch(s, t)
  {
    var k, l := BatchKey(s), BatchKey(t);
    if k == l {
      assert k[0] == l[0] && k[1] == l[1] && k[2] == l[2] && k[3] == l[3] && k[4] == l[4] && k[5] == l[5];
    }
  }

  lemma {:induction false} BatchIsGroup(samples: seq<Sample>, s: Sample)
    ensures Group(samples, BatchKey(s)) == BatchOf(samples, s)
  {
    if samples != [] {
      var n := |samples| - 1;
      BatchIsGroup(samples[..n], s);
      GroupNext(samples[..n], samples[n], BatchKey, BatchKey(s));
      BatchKeyExact(samples[n], s);
      assert samples == samples[..n] + [samples[n]];
    }
  }

  /** Each repetition exactly once. */
  predicate Complete(batch: seq<Sample>, repetitions: int) {
    && |batch| == repetitions
    && (forall i | 0 <= i < |batch| :: 0 <= batch[i].repetition < repetitions)
    && (forall r | 0 <= r < repetitions :: HasRepetition(batch, r))
  }

  predicate HasRepetition(batch: seq<Sample>, r: int) {
    exists i | 0 <= i < |batch| :: batch[i].repetition == r
  }

  /** Composition laps belong to surface C and to nothing else. */
  predicate CompositionFits(batch: seq<Sample>, surface: string) {
    forall i | 0 <= i < |batch| :: batch[i].compositionNs.Some? <==> surface == "C"
  }

  predicate Fits(batch: seq<Sample>, surface: string, repetitions: int) {
    Complete(batch, repetitions) && (surface == "A" || surface == "B" || surface == "C") && CompositionFits(batch, surface)
  }

  function ProducerLaps(batch: seq<Sample>): seq<int> {
    seq(|batch|, i requires 0 <= i < |batch| => batch[i].producerNs)
  }

  function TotalTimes(batch: seq<Sample>): seq<int> {
    seq(|batch|, i requires 0 <= i < |batch| => batch[i].totalNs)
  }

  function CompositionTimes(batch: seq<Sample>): seq<int>
    requires AllLapped(batch)
  {
    seq(|batch|, i requires 0 <= i < |batch| => batch[i].compositionNs.value)
  }

  /** The summary of s's batch: its place, its size, and the medians of its own laps. */
  ghost predicate Summarises(summary: BatchSummary, batch: seq<Sample>, s: Sample) {
    && summary.unit == [Text(s.runId), Text(s.layer), Text(s.scenario), Number(s.block), Number(s.permutation)]
    && summary.surface == s.surface && summary.repetitionCount == |batch|
    && IsMedian(ProducerLaps(batch), summary.producerMedian)
    && IsMedian(TotalTimes(batch), summary.totalMedian)
    && CompositionFits(batch, s.surface)
    && (s.surface == "C" ==> summary.compositionMedian.Some? && IsMedian(CompositionTimes(batch), summary.compositionMedian.value))
    && (s.surface != "C" ==> summary.compositionMedian.None?)
  }

  // ----- one summary -----

  lemma SurfaceIs(name: string)
    ensures ParseSurface(name).Some? <==> name == "A" || name == "B" || name == "C"
    ensures forall f: Surface :: ParseSurface(name) == Some(f) <==> name == f.Name()
  {
  }

  lemma MedianIs(values: seq<int>)
    requires values != []
    ensures Median(values).Success? && IsMedian(values, Median(values).value)
  {
    NearestRankMember(values, 50.0);
    NearestRankMedian(values, NearestRank(values, 50.0).value);
  }

  lemma RepetitionsComplete(batch: seq<Sample>, repetitions: int)
    ensures |batch| == repetitions && ToSet(Repetitions(batch)) == Range(repetitions) <==> Complete(batch, repetitions)
  {
    var found := ToSet(Repetitions(batch));
    forall r ensures r in found <==> HasRepetition(batch, r) { RepetitionMember(batch, r); }
    if found == Range(repetitions) {
      forall i | 0 <= i < |batch| ensures 0 <= batch[i].repetition < repetitions {
        assert HasRepetition(batch, batch[i].repetition);
        assert batch[i].repetition in found;
      }
      forall r | 0 <= r < repetitions ensures HasRepetition(batch, r) { assert r in found; }
    }
    if Complete(batch, repetitions) {
      forall r ensures r in found <==> r in Range(repetitions) {
        if r in found { var i :| 0 <= i < |batch| && batch[i].repetition == r; }
      }
    }
  }

  predicate AllLapped(batch: seq<Sample>) {
    forall i | 0 <= i < |batch| :: batch[i].compositionNs.Some?
  }

  predicate NoneLapped(batch: seq<Sample>) {
    forall i | 0 <= i < |batch| :: batch[i].compositionNs.None?
  }

  lemma LappedNext(batch: seq<Sample>, s: Sample)
    ensures AllLapped(batch + [s]) <==> AllLapped(batch) && s.compositionNs.Some?
    ensures NoneLapped(batch + [s]) <==> NoneLapped(batch) && s.compositionNs.None?
  {
    var all := batch + [s];
    assert all[|batch|] == s && forall i | 0 <= i < |batch| :: all[i] == batch[i];
  }

  lemma {:induction false} CompositionCount(batch: seq<Sample>)
    ensures |Compositions(batch)| <= |batch|
    ensures |Compositions(batch)| == |batch| <==> AllLapped(batch)
    ensures Compositions(batch) == [] <==> NoneLapped(batch)
  {
    if batch != [] {
      var n := |batch| - 1;
      CompositionCount(batch[..n]);
      LappedNext(batch[..n], batch[n]);
      assert batch == batch[..n] + [batch[n]];
    }
  }

  lemma CompositionLaps(batch: seq<Sample>)
    requires AllLapped(batch)
    ensures Compositions(batch) == CompositionTimes(batch)
  {
    var pick := (s: Sample) => if s.compositionNs.Some? then [s.compositionNs.value] else [];
    FlatMapSingles(pick, batch);
    assert Compositions(batch) == FlatMap(pick, batch);
  }

  lemma CompositionMedianIs(surface: Surface, batch: seq<Sample>)
    requires batch != []
    ensures CompositionMedian(surface, batch).Success? <==> CompositionFits(batch, surface.Name())
    ensures CompositionMedian(surface, batch).Success? ==>
              var c := CompositionMedian(surface, batch).value;
              && (surface == C ==> c.Some? && IsMedian(CompositionTimes(batch), c.value))
              && (surface != C ==> c.None?)
  {
    CompositionCount(batch);
    SurfaceIs(surface.Name());
    if surface == C && CompositionFits(batch, "C") {
      CompositionLaps(batch);
      MedianIs(Compositions(batch));
    }
  }

  lemma LapsAre(batch: seq<Sample>)
    ensures Producers(batch) == ProducerLaps(batch) && Totals(batch) == TotalTimes(batch)
  {
    LapLengths(batch);
  }

  lemma SummarizeLapsIff(key: Key, surface: Surface, batch: seq<Sample>, s: Sample)
    requires key == BatchKey(s) && s.surface == surface.Name() && batch != []
    ensures IsBatchKey(key)
    ensures SummarizeLaps(key, surface, batch).Success? <==> CompositionFits(batch, s.surface)
    ensures SummarizeLaps(key, surface, batch).Success? ==> Summarises(SummarizeLaps(key, surface, batch).value, batch, s)
  {
    LapsAre(batch);
    MedianIs(Producers(batch));
    MedianIs(Totals(batch));
    CompositionMedianIs(surface, batch);
    BuiltMeans(surface, batch, s, CompositionMedian(surface, batch), Median(Producers(batch)), Median(Totals(batch)));
  }

  lemma BuiltMeans(surface: Surface, batch: seq<Sample>, s: Sample, composition: Result<Option<int>, BatchError>,
                   producer: Result<int, BatchError>, total: Result<int, BatchError>)
    requires s.surface == surface.Name() && producer.Success? && total.Success?
    requires IsMedian(ProducerLaps(batch), producer.value) && IsMedian(TotalTimes(batch), total.value)
    requires composition.Success? <==> CompositionFits(batch, surface.Name())
    requires composition.Success? && surface == C ==>
               AllLapped(batch) && composition.value.Some? && IsMedian(CompositionTimes(batch), composition.value.value)
    requires composition.Success? && surface != C ==> composition.value.None?
    ensures IsBatchKey(BatchKey(s))
    ensures BuildSummary(BatchKey(s), |batch|, composition, producer, total).Success? <==> CompositionFits(batch, s.surface)
    ensures CompositionFits(batch, s.surface) ==>
              Summarises(BuildSummary(BatchKey(s), |batch|, composition, producer, total).value, batch, s)
  {
    SurfaceIs(s.surface);
  }

  lemma SummarizeChecks(key: Key, batch: seq<Sample>, repetitions: int)
    requires IsBatchKey(key)
    ensures var surface := ParseSurface(key[5].text);
            && (Summarize(key, batch, repetitions).Success? <==>
                && |batch| == repetitions && ToSet(Repetitions(batch)) == Range(repetitions)
                && surface.Some? && SummarizeLaps(key, surface.value, batch).Success?)
            && (Summarize(key, batch, repetitions).Success? ==>
                  Summarize(key, batch, repetitions) == SummarizeLaps(key, surface.value, batch))
  {
  }

  /** A batch can be summarised exactly when it fits, and then its summary means what it says. */
  lemma SummarizeIff(batch: seq<Sample>, s: Sample, repetitions: int)
    requires batch != []
    ensures IsBatchKey(BatchKey(s))
    ensures Summarize(BatchKey(s), batch, repetitions).Success? <==> Fits(batch, s.surface, repetitions)
    ensures Summarize(BatchKey(s), batch, repetitions).Success? ==>
              Summarises(Summarize(BatchKey(s), batch, repetitions).value, batch, s)
  {
    SummarizeChecks(BatchKey(s), batch, repetitions);
    RepetitionsComplete(batch, repetitions);
    SurfaceIs(s.surface);
    if ParseSurface(s.surface).Some? {
      SummarizeLapsIff(BatchKey(s), ParseSurface(s.surface).value, batch, s);
    }
  }

  // ----- all of them -----

  /** The summary, or the reason against it, of one key. */
  function SummaryAt(samples: seq<Sample>, repetitions: int, key: Key): Result<BatchSummary, BatchError> {
    if IsBatchKey(key) then Summarize(key, Group(samples, key), repetitions) else Failure(EmptyBatch)
  }

  function Summariser(samples: seq<Sample>, repetitions: int): Key -> Result<BatchSummary, BatchError> {
    (key: Key) => SummaryAt(samples, repetitions, key)
  }

  function SummariesAt(samples: seq<Sample>, repetitions: int, keys: seq<Key>): seq<Result<BatchSummary, BatchError>> {
    Image(Summariser(samples, repetitions), keys)
  }

  lemma ImageNext<T, U>(f: T -> U, s: seq<T>)
    requires s != []
    ensures Image(f, s) == Image(f, s[..|s| - 1]) + [f(s[|s| - 1])]
  {
  }

  predicate AllSucceed<T, E>(results: seq<Result<T, E>>) {
    forall i | 0 <= i < |results| :: results[i].Success?
  }

  predicate ValuesOf<T(==), E>(values: seq<T>, results: seq<Result<T, E>>) {
    |values| == |results| && forall i | 0 <= i < |results| :: results[i].Success? && results[i].value == values[i]
  }

  lemma SucceedNext<T, E>(results: seq<Result<T, E>>, last: Result<T, E>)
    ensures AllSucceed(results + [last]) <==> AllSucceed(results) && last.Success?
  {
    var all := results + [last];
    assert all[|results|] == last && forall i | 0 <= i < |results| :: all[i] == results[i];
  }

  lemma ValuesNext<T, E>(values: seq<T>, results: seq<Result<T, E>>, last: Result<T, E>)
    requires ValuesOf(values, results) && last.Success?
    ensures ValuesOf(values + [last.value], results + [last])
  {
  }

  lemma AllNext<T, E>(whole: Result<seq<T>, E>, before: Result<seq<T>, E>, earlier: seq<Result<T, E>>, last: Result<T, E>)
    requires before.Success? <==> AllSucceed(earlier)
    requires before.Success? ==> ValuesOf(before.value, earlier)
    requires whole.Success? <==> before.Success? && last.Success?
    requires whole.Success? ==> whole.value == before.value + [last.value]
    ensures whole.Success? <==> AllSucceed(earlier + [last])
    ensures whole.Success? ==> ValuesOf(whole.value, earlier + [last])
  {
    SucceedNext(earlier, last);
    if whole.Success? { ValuesNext(before.value, earlier, last); }
  }

  lemma SummarizeAllNext(keys: seq<Key>, samples: seq<Sample>, repetitions: int, earlier: Result<seq<BatchSummary>, BatchError>)
    requires AreBatchKeys(keys) && keys != [] && SummarizeAll(keys[..|keys| - 1], samples, repetitions) == earlier
    ensures var last := SummaryAt(samples, repetitions, keys[|keys| - 1]);
            && (SummarizeAll(keys, samples, repetitions).Success? <==> earlier.Success? && last.Success?)
            && (earlier.Success? && last.Success? ==>
                  SummarizeAll(keys, samples, repetitions) == Success(earlier.value + [last.value]))
  {
  }

  lemma {:induction false} SummarizeAllIff(keys: seq<Key>, samples: seq<Sample>, repetitions: int)
    requires AreBatchKeys(keys)
    ensures var results := SummariesAt(samples, repetitions, keys);
            && (SummarizeAll(keys, samples, repetitions).Success? <==> AllSucceed(results))
            && (SummarizeAll(keys, samples, repetitions).Success? ==>
                  ValuesOf(SummarizeAll(keys, samples, repetitions).value, results))
  {
    if keys != [] {
      var n := |keys| - 1;
      SummarizeAllIff(keys[..n], samples, repetitions);
      var earlier, last := SummariesAt(samples, repetitions, keys[..n]), SummaryAt(samples, repetitions, keys[n]);
      var before := SummarizeAll(keys[..n], samples, repetitions);
      SummarizeAllNext(keys, samples, repetitions, before);
      ImageNext(Summariser(samples, repetitions), keys);
      AllNext(SummarizeAll(keys, samples, repetitions), before, earlier, last);
    }
  }

  /** Every batch of the samples fits. */
  predicate AllFit(samples: seq<Sample>, repetitions: int) {
    forall w | 0 <= w < |samples| :: Fits(BatchOf(samples, samples[w]), samples[w].surface, repetitions)
  }

  lemma SampleInBatch(samples: seq<Sample>, w: nat)
    requires w < |samples|
    ensures BatchOf(samples, samples[w]) != []
  {
    FlatMapMember((x: Sample) => if SameBatch(x, samples[w]) then [x] else [], samples, samples[w]);
  }

  lemma SampleSummarizes(samples: seq<Sample>, repetitions: int, w: nat)
    requires w < |samples|
    ensures var key, batch := BatchKey(samples[w]), BatchOf(samples, samples[w]);
            && IsBatchKey(key)
            && (SummaryAt(samples, repetitions, key).Success? <==> Fits(batch, samples[w].surface, repetitions))
            && (SummaryAt(samples, repetitions, key).Success? ==>
                  Summarises(SummaryAt(samples, repetitions, key).value, batch, samples[w]))
  {
    BatchIsGroup(samples, samples[w]);
    SampleInBatch(samples, w);
    SummarizeIff(BatchOf(samples, samples[w]), samples[w], repetitions);
  }

  /** Summaries in order of their place: one for each batch there is, and each of some batch. */
  ghost predicate SummariseAll(summaries: seq<BatchSummary>, samples: seq<Sample>) {
    && (forall i, j | 0 <= i < j < |summaries| ::
          KeyLess(summaries[i].unit + [Text(summaries[i].surface)], summaries[j].unit + [Text(summaries[j].surface)]))
    && (forall i | 0 <= i < |summaries| ::
          exists w | 0 <= w < |samples| :: Summarises(summaries[i], BatchOf(samples, samples[w]), samples[w]))
    && (forall w | 0 <= w < |samples| ::
          exists i | 0 <= i < |summaries| :: Summarises(summaries[i], BatchOf(samples, samples[w]), samples[w]))
  }

  lemma SummaryOfKey(samples: seq<Sample>, repetitions: int, i: nat) returns (w: nat)
    requires BatchSummaries(samples, repetitions).Success? && i < |BatchSummaries(samples, repetitions).value|
    ensures |BatchSummaries(samples, repetitions).value| == |SummaryKeys(samples)|
    ensures w < |samples| && SummaryKeys(samples)[i] == BatchKey(samples[w])
    ensures Summarises(BatchSummaries(samples, repetitions).value[i], BatchOf(samples, samples[w]), samples[w])
  {
    var keys := SummaryKeys(samples);
    SummarizeAllIff(keys, samples, repetitions);
    assert keys[i] in keys;
    w := KeyWitness(samples, keys[i]);
    SampleSummarizes(samples, repetitions, w);
  }

  lemma KeyOfSummary(summary: BatchSummary, batch: seq<Sample>, s: Sample)
    requires Summarises(summary, batch, s)
    ensures summary.unit + [Text(summary.surface)] == BatchKey(s)
  {
  }

  /**
   For any samples at all: summaries are computed exactly when every batch holds each repetition once, is of
   a known surface and has composition laps exactly on surface C; each summary then is the medians, of
   middle rank, of its own batch's laps.
   */
  lemma SummariesMean(samples: seq<Sample>, repetitions: int)
    ensures BatchSummaries(samples, repetitions).Success? <==> AllFit(samples, repetitions)
    ensures BatchSummaries(samples, repetitions).Success? ==>
              SummariseAll(BatchSummaries(samples, repetitions).value, samples)
  {
    var keys := SummaryKeys(samples);
    SummarizeAllIff(keys, samples, repetitions);
    forall i | 0 <= i < |keys| && AllFit(samples, repetitions)
      ensures SummariesAt(samples, repetitions, keys)[i].Success?
    {
      assert keys[i] in keys;
      var w := KeyWitness(samples, keys[i]);
      SampleSummarizes(samples, repetitions, w);
    }
    if BatchSummaries(samples, repetitions).Success? {
      forall w | 0 <= w < |samples| ensures Fits(BatchOf(samples, samples[w]), samples[w].surface, repetitions) {
        var i := KeyPosition(samples, w);
        SampleSummarizes(samples, repetitions, w);
      }
      SummariesInPlace(samples, repetitions);
    }
  }

  lemma KeyPosition(samples: seq<Sample>, w: nat) returns (i: nat)
    requires w < |samples|
    ensures i < |SummaryKeys(samples)| && SummaryKeys(samples)[i] == BatchKey(samples[w])
  {
    KeyOfSample(samples, w);
    i :| 0 <= i < |SummaryKeys(samples)| && SummaryKeys(samples)[i] == BatchKey(samples[w]);
  }

  lemma SummariesInPlace(samples: seq<Sample>, repetitions: int)
    requires BatchSummaries(samples, repetitions).Success?
    ensures SummariseAll(BatchSummaries(samples, repetitions).value, samples)
  {
    var keys, all := SummaryKeys(samples), BatchSummaries(samples, repetitions).value;
    SummarizeAllIff(keys, samples, repetitions);
    forall i | 0 <= i < |all|
      ensures all[i].unit + [Text(all[i].surface)] == keys[i]
      ensures exists w | 0 <= w < |samples| :: Summarises(all[i], BatchOf(samples, samples[w]), samples[w])
    {
      var w := SummaryOfKey(samples, repetitions, i);
      KeyOfSummary(all[i], BatchOf(samples, samples[w]), samples[w]);
    }
    forall w | 0 <= w < |samples|
      ensures exists i | 0 <= i < |all| :: Summarises(all[i], BatchOf(samples, samples[w]), samples[w])
    {
      var i := KeyPosition(samples, w);
      SampleSummarizes(samples, repetitions, w);
      assert Summarises(all[i], BatchOf(samples, samples[w]), samples[w]);
    }
  }

  // ----- comparisons -----

  predicate Of(summary: BatchSummary, unit: Key, surface: string) {
    summary.unit == unit && summary.surface == surface
  }

  /** The unit has all three surfaces, a composition median for C and a positive total for A. */
  ghost predicate Comparable(summaries: seq<BatchSummary>, unit: Key) {
    exists a, b, c | a in summaries && b in summaries && c in summaries ::
      Of(a, unit, "A") && Of(b, unit, "B") && Of(c, unit, "C") && c.compositionMedian.Some? && a.totalMedian > 0
  }

  ghost predicate AllComparable(summaries: seq<BatchSummary>) {
    && KnownSurfaces(summaries) && DistinctSummaries(summaries)
    && forall i | 0 <= i < |summaries| :: Comparable(summaries, summaries[i].unit)
  }

  /** An estimate in nanoseconds, and in percent of its reference. */
  predicate Estimates(e: BatchComparison, unit: Key, kind: ComparisonKind, estimateNs: int, referenceNs: int) {
    && e.unit == unit && e.kind == kind && e.estimateNs == estimateNs && e.referenceNs == referenceNs
    && e.relativePercent * referenceNs as real == 100.0 * estimateNs as real
  }

  predicate Compares(block: seq<BatchComparison>, unit: Key, a: BatchSummary, b: BatchSummary, c: BatchSummary) {
    && |block| == 4 && c.compositionMedian.Some?
    && Estimates(block[0], unit, EndToEndBA, b.totalMedian - a.totalMedian, a.totalMedian)
    && Estimates(block[1], unit, CompositionLap, c.compositionMedian.value, a.totalMedian)
    && Estimates(block[2], unit, EndToEndCA, c.totalMedian - a.totalMedian, a.totalMedian)
    && Estimates(block[3], unit, TotalCB, c.totalMedian - b.totalMedian, a.totalMedian)
  }

  lemma EstimateMeans(unit: Key, kind: ComparisonKind, estimateNs: int, referenceNs: int)
    requires referenceNs > 0
    ensures Estimates(Estimate(unit, kind, estimateNs, referenceNs), unit, kind, estimateNs, referenceNs)
  {
    PercentOf(estimateNs as real, referenceNs as real);
  }

  lemma PercentOf(x: real, y: real)
    requires y > 0.0
    ensures x / y * 100.0 * y == 100.0 * x
  {
    var q := x / y;
    assert q * y == x;
    assert q * 100.0 * y == 100.0 * (q * y);
  }

  lemma CompareUnitIff(unit: Key, row: Row)
    ensures CompareUnit(unit, row).Success? <==>
            row.Keys == {A, B, C} && row[C].compositionMedian.Some? && row[A].totalMedian > 0
    ensures CompareUnit(unit, row).Success? ==> Compares(CompareUnit(unit, row).value, unit, row[A], row[B], row[C])
  {
    if row.Keys == {A, B, C} {
      assert A in row.Keys && B in row.Keys && C in row.Keys;
      var a, b, c := row[A], row[B], row[C];
      if c.compositionMedian.Some? && a.totalMedian > 0 {
        EstimateMeans(unit, EndToEndBA, b.totalMedian - a.totalMedian, a.totalMedian);
        EstimateMeans(unit, CompositionLap, c.compositionMedian.value, a.totalMedian);
        EstimateMeans(unit, EndToEndCA, c.totalMedian - a.totalMedian, a.totalMedian);
        EstimateMeans(unit, TotalCB, c.totalMedian - b.totalMedian, a.totalMedian);
      }
    }
  }

  /** What the table of units says of one of them. */
  predicate RowCompares(units: map<Key, Row>, unit: Key) {
    unit in units && CompareUnit(unit, units[unit]).Success?
  }

  ghost predicate BlocksCompare(comparisons: seq<BatchComparison>, keys: seq<Key>, units: map<Key, Row>) {
    && |comparisons| == 4 * |keys|
    && forall u | 0 <= u < |keys| ::
         && keys[u] in units && units[keys[u]].Keys == {A, B, C}
         && Compares(comparisons[4 * u..4 * u + 4], keys[u], units[keys[u]][A], units[keys[u]][B], units[keys[u]][C])
  }

  lemma BlocksCompareNext(keys: seq<Key>, units: map<Key, Row>, earlier: seq<BatchComparison>, block: seq<BatchComparison>)
    requires keys != [] && BlocksCompare(earlier, keys[..|keys| - 1], units)
    requires var unit := keys[|keys| - 1];
             && unit in units && units[unit].Keys == {A, B, C}
             && Compares(block, unit, units[unit][A], units[unit][B], units[unit][C])
    ensures BlocksCompare(earlier + block, keys, units)
  {
    var n, all := |keys| - 1, earlier + block;
    forall u | 0 <= u < |keys|
      ensures && keys[u] in units && units[keys[u]].Keys == {A, B, C}
              && Compares(all[4 * u..4 * u + 4], keys[u], units[keys[u]][A], units[keys[u]][B], units[keys[u]][C])
    {
      if u < n {
        assert all[4 * u..4 * u + 4] == earlier[4 * u..4 * u + 4] && keys[..n][u] == keys[u];
      } else {
        assert all[4 * u..4 * u + 4] == block;
      }
    }
  }

  lemma {:induction false} CompareAllIff(keys: seq<Key>, units: map<Key, Row>)
    requires forall i | 0 <= i < |keys| :: keys[i] in units
    ensures CompareAll(keys, units).Success? <==> forall i | 0 <= i < |keys| :: RowCompares(units, keys[i])
    ensures CompareAll(keys, units).Success? ==> BlocksCompare(CompareAll(keys, units).value, keys, units)
  {
    if keys != [] {
      var n := |keys| - 1;
      CompareAllIff(keys[..n], units);
      CompareUnitIff(keys[n], units[keys[n]]);
      assert forall i | 0 <= i < n :: keys[..n][i] == keys[i];
      var earlier, last := CompareAll(keys[..n], units), CompareUnit(keys[n], units[keys[n]]);
      if earlier.Success? && last.Success? {
        BlocksCompareNext(keys, units, earlier.value, last.value);
      }
    }
  }

  lemma RowSurface(units: map<Key, Row>, summaries: seq<BatchSummary>, unit: Key, f: Surface)
    requires KnownSurfaces(summaries) && IsTable(units, summaries) && unit in units
    ensures f in units[unit] ==> units[unit][f] in summaries && Of(units[unit][f], unit, f.Name())
    ensures forall s | s in summaries && Of(s, unit, f.Name()) :: f in units[unit] && units[unit][f] == s
  {
    if f in units[unit] {
      assert ComesFrom(unit, f, units[unit][f], summaries);
      SurfaceIs(units[unit][f].surface);
    }
    forall s | s in summaries && Of(s, unit, f.Name()) ensures f in units[unit] && units[unit][f] == s {
      var i :| 0 <= i < |summaries| && summaries[i] == s;
      assert Holds(units, summaries[i]);
      SurfaceIs(s.surface);
    }
  }

  lemma RowComparesIff(units: map<Key, Row>, summaries: seq<BatchSummary>, unit: Key)
    requires KnownSurfaces(summaries) && IsTable(units, summaries) && unit in units
    ensures RowCompares(units, unit) <==> Comparable(summaries, unit)
  {
    CompareUnitIff(unit, units[unit]);
    RowSurface(units, summaries, unit, A);
    RowSurface(units, summaries, unit, B);
    RowSurface(units, summaries, unit, C);
    if RowCompares(units, unit) {
      var row := units[unit];
      assert A in row.Keys && B in row.Keys && C in row.Keys;
      assert Of(row[A], unit, "A") && Of(row[B], unit, "B") && Of(row[C], unit, "C");
    }
    if Comparable(summaries, unit) { RowIsWhole(units[unit]); }
  }

  lemma RowIsWhole(row: Row)
    ensures A in row && B in row && C in row ==> row.Keys == {A, B, C}
  {
    forall f | f in row.Keys ensures f in {A, B, C} {
      match f
      case A =>
      case B =>
      case C =>
    }
  }

  /** Four estimates for each unit, units in ascending order, each from that unit's own three summaries. */
  ghost predicate CompareUnitsOf(comparisons: seq<BatchComparison>, summaries: seq<BatchSummary>) {
    exists units: seq<Key> ::
      && Ascending(units) && |comparisons| == 4 * |units|
      && (forall k :: k in units <==> exists i | 0 <= i < |summaries| :: summaries[i].unit == k)
      && forall u | 0 <= u < |units| :: ComparesUnit(comparisons[4 * u..4 * u + 4], units[u], summaries)
  }

  ghost predicate ComparesUnit(block: seq<BatchComparison>, unit: Key, summaries: seq<BatchSummary>) {
    exists a, b, c | a in summaries && b in summaries && c in summaries ::
      Of(a, unit, "A") && Of(b, unit, "B") && Of(c, unit, "C") && Compares(block, unit, a, b, c)
  }

  lemma UnitMember(summaries: seq<BatchSummary>, k: Key)
    ensures k in UnitKeys(summaries) <==> exists i | 0 <= i < |summaries| :: summaries[i].unit == k
  {
    if k in UnitKeys(summaries) { var i :| 0 <= i < |summaries| && UnitKeys(summaries)[i] == k; }
    if exists i | 0 <= i < |summaries| :: summaries[i].unit == k {
      var i :| 0 <= i < |summaries| && summaries[i].unit == k;
      assert UnitKeys(summaries)[i] == k;
    }
  }

  lemma BlocksAreUnits(comparisons: seq<BatchComparison>, summaries: seq<BatchSummary>, units: map<Key, Row>)
    requires KnownSurfaces(summaries) && IsTable(units, summaries)
    requires BlocksCompare(comparisons, SortedUnits(summaries), units)
    ensures CompareUnitsOf(comparisons, summaries)
  {
    var keys := SortedUnits(summaries);
    forall k ensures k in keys <==> exists i | 0 <= i < |summaries| :: summaries[i].unit == k { UnitMember(summaries, k); }
    forall u | 0 <= u < |keys| ensures ComparesUnit(comparisons[4 * u..4 * u + 4], keys[u], summaries) {
      RowSurface(units, summaries, keys[u], A);
      RowSurface(units, summaries, keys[u], B);
      RowSurface(units, summaries, keys[u], C);
      var row := units[keys[u]];
      assert A in row.Keys && B in row.Keys && C in row.Keys;
      assert Of(row[A], keys[u], "A") && Of(row[B], keys[u], "B") && Of(row[C], keys[u], "C");
    }
  }

  /**
   For any summaries at all: comparisons are computed exactly when surfaces are known and not repeated and
   every unit has its three surfaces, C's composition median and a positive total of A; each estimate then is
   the stated difference of that unit's own medians, and its percentage of A's total.
   */
  lemma ComparisonsMean(summaries: seq<BatchSummary>)
    ensures BatchComparisons(summaries).Success? <==> AllComparable(summaries)
    ensures BatchComparisons(summaries).Success? ==> CompareUnitsOf(BatchComparisons(summaries).value, summaries)
  {
    if UnitRows(summaries).Success? {
      FiledAreDistinct(summaries);
      UnitRowsTable(summaries);
      TableComparesIff(summaries, UnitRows(summaries).value);
      if BatchComparisons(summaries).Success? { TableCompares(summaries, UnitRows(summaries).value); }
    } else if KnownSurfaces(summaries) && DistinctSummaries(summaries) {
      UnitRowsTable(summaries);
    }
  }

  lemma TableComparesIff(summaries: seq<BatchSummary>, units: map<Key, Row>)
    requires KnownSurfaces(summaries) && UnitRows(summaries) == Success(units) && IsTable(units, summaries)
    ensures BatchComparisons(summaries).Success? <==> forall i | 0 <= i < |summaries| :: Comparable(summaries, summaries[i].unit)
  {
    UnitRowsKeys(summaries);
    var keys := SortedUnits(summaries);
    assert forall i | 0 <= i < |keys| :: keys[i] in keys;
    CompareAllIff(keys, units);
    AllRowsCompare(summaries, units);
    FromTable(summaries, units);
  }

  lemma TableCompares(summaries: seq<BatchSummary>, units: map<Key, Row>)
    requires KnownSurfaces(summaries) && UnitRows(summaries) == Success(units) && IsTable(units, summaries)
    requires BatchComparisons(summaries).Success?
    ensures CompareUnitsOf(BatchComparisons(summaries).value, summaries)
  {
    UnitRowsKeys(summaries);
    var keys := SortedUnits(summaries);
    assert forall i | 0 <= i < |keys| :: keys[i] in keys;
    FromTable(summaries, units);
    CompareAllIff(keys, units);
    BlocksAreUnits(CompareAll(keys, units).value, summaries, units);
  }

  lemma FromTable(summaries: seq<BatchSummary>, units: map<Key, Row>)
    requires UnitRows(summaries) == Success(units)
    requires forall i | 0 <= i < |SortedUnits(summaries)| :: SortedUnits(summaries)[i] in units
    ensures BatchComparisons(summaries) == CompareAll(SortedUnits(summaries), units)
  {
  }

  lemma AllRowsCompare(summaries: seq<BatchSummary>, units: map<Key, Row>)
    requires KnownSurfaces(summaries) && IsTable(units, summaries)
    requires forall k :: k in units <==> k in UnitKeys(summaries)
    ensures var keys := SortedUnits(summaries);
            (forall i | 0 <= i < |keys| :: RowCompares(units, keys[i]))
            <==> forall i | 0 <= i < |summaries| :: Comparable(summaries, summaries[i].unit)
  {
    var keys := SortedUnits(summaries);
    forall i | 0 <= i < |summaries|
      ensures summaries[i].unit in keys && (RowCompares(units, summaries[i].unit) <==> Comparable(summaries, summaries[i].unit))
    {
      UnitMember(summaries, summaries[i].unit);
      RowComparesIff(units, summaries, summaries[i].unit);
    }
    forall j | 0 <= j < |keys| ensures exists i | 0 <= i < |summaries| :: summaries[i].unit == keys[j] {
      assert keys[j] in keys;
      UnitMember(summaries, keys[j]);
    }
  }

  // ----- of an accepted population -----

  /**
   Whatever population the validator accepts, every one of its batches holds each repetition once, each summary
   is the middle values of that batch's own laps, and each comparison those of its own unit's summaries.
   */
  lemma PopulationMeans(samples: seq<Sample>, scenarios: seq<Scenario>, config: ScheduleConfig, runId: string)
    requires ValidPopulation(samples, scenarios, config, runId)
    ensures AllFit(samples, config.repetitions)
    ensures var summaries := BatchSummaries(samples, config.repetitions);
            && summaries.Success? && SummariseAll(summaries.value, samples)
            && BatchComparisons(summaries.value).Success?
            && CompareUnitsOf(BatchComparisons(summaries.value).value, summaries.value)
  {
    SummariesMean(samples, config.repetitions);
    ComparisonsOfPopulation(samples, scenarios, config, runId);
    ComparisonsMean(BatchSummaries(samples, config.repetitions).value);
  }
}
