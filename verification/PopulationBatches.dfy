/**
What validation buys downstream: on every accepted population the batch
functions never raise, produce exactly the planned units, and their medians are
ordered as the laps are.
*/
module PopulationBatches {
  import opened Wrappers
  import opened Sequences
  import opened Ordering
  import opened Grouping
  import opened OrderStatistics
  import opened Population
  import opened Batches
  import opened Comparisons

  // ----- one batch of a valid population -----

  lemma RepetitionMember(group: seq<Sample>, r: int)
    ensures r in Repetitions(group) <==> exists i | 0 <= i < |group| :: group[i].repetition == r
  {
    FlatMapMember((s: Sample) => [s.repetition], group, r);
  }

  predicate DistinctPlaces(samples: seq<Sample>) {
    forall i, j | 0 <= i < j < |samples| :: samples[i].Place() != samples[j].Place()
  }

  lemma SamePlace(x: Sample, y: Sample)
    requires BatchKey(x) == BatchKey(y) && x.repetition == y.repetition
    ensures x.Place() == y.Place()
  {
    var k, l := BatchKey(x), BatchKey(y);
    assert k[2] == l[2] && k[3] == l[3] && k[4] == l[4] && k[5] == l[5];
  }

  /** Inside one batch, distinct coordinates mean distinct repetitions. */
  lemma {:induction false} RepetitionsDistinct(samples: seq<Sample>, key: Key)
    requires DistinctPlaces(samples)
    ensures NoDuplicates(Repetitions(Group(samples, key)))
  {
    if samples != [] {
      var n := |samples| - 1;
      RepetitionsDistinct(samples[..n], key);
      if BatchKey(samples[n]) == key {
        var group := Group(samples[..n], key);
        assert Group(samples, key) == group + [samples[n]];
        assert (group + [samples[n]])[..|group|] == group;
        assert Repetitions(group + [samples[n]]) == Repetitions(group) + [samples[n].repetition];
        NewRepetition(samples, key);
      } else {
        assert Group(samples, key) == Group(samples[..n], key);
      }
    }
  }

  lemma NewRepetition(samples: seq<Sample>, key: Key)
    requires DistinctPlaces(samples) && samples != []
    requires BatchKey(samples[|samples| - 1]) == key
    ensures samples[|samples| - 1].repetition !in Repetitions(Group(samples[..|samples| - 1], key))
  {
    var n := |samples| - 1;
    var group := Group(samples[..n], key);
    RepetitionMember(group, samples[n].repetition);
    forall i | 0 <= i < |group| ensures group[i].repetition != samples[n].repetition {
      GroupMember(samples[..n], BatchKey, key, group[i]);
      var j :| 0 <= j < n && samples[j] == group[i];
      if group[i].repetition == samples[n].repetition { SamePlace(samples[j], samples[n]); }
    }
  }

  lemma KeyWitness(samples: seq<Sample>, key: Key) returns (i: nat)
    requires key in SummaryKeys(samples)
    ensures i < |samples| && BatchKey(samples[i]) == key
  {
    assert key in BatchKeys(samples);
    i :| i < |samples| && BatchKeys(samples)[i] == key;
  }

  /** Each batch of a valid population holds every repetition once. */
  lemma BatchIsFull(samples: seq<Sample>, scenarios: seq<Scenario>, config: ScheduleConfig, runId: string, key: Key)
    requires ValidPopulation(samples, scenarios, config, runId)
    requires key in SummaryKeys(samples)
    ensures ToSet(Repetitions(Group(samples, key))) == Range(config.repetitions)
    ensures |Group(samples, key)| == config.repetitions
  {
    var w := KeyWitness(samples, key);
    RepetitionsCovered(samples, scenarios, config, runId, w);
    NonEmptyRange(samples, scenarios, config, runId, w);
    RepetitionsDistinct(samples, key);
    FullBySize(Group(samples, key), config.repetitions);
  }

  lemma RepetitionsCovered(samples: seq<Sample>, scenarios: seq<Scenario>, config: ScheduleConfig, runId: string, w: nat)
    requires ValidPopulation(samples, scenarios, config, runId) && w < |samples|
    ensures ToSet(Repetitions(Group(samples, BatchKey(samples[w])))) == Range(config.repetitions)
  {
    var key := BatchKey(samples[w]);
    var found := Repetitions(Group(samples, key));
    forall r ensures r in ToSet(found) <==> r in Range(config.repetitions) {
      if r in found { RepetitionExpected(samples, scenarios, config, runId, key, r); }
      if r in Range(config.repetitions) { RepetitionPresent(samples, scenarios, config, runId, w, r); }
    }
  }

  lemma FullBySize(group: seq<Sample>, repetitions: int)
    requires ToSet(Repetitions(group)) == Range(repetitions) && repetitions > 0 && NoDuplicates(Repetitions(group))
    ensures |group| == repetitions
  {
    ToSetSize(Repetitions(group));
    FlatMapSingles((s: Sample) => [s.repetition], group);
  }

  lemma RepetitionExpected(samples: seq<Sample>, scenarios: seq<Scenario>, config: ScheduleConfig, runId: string,
                           key: Key, r: int)
    requires ValidPopulation(samples, scenarios, config, runId) && r in Repetitions(Group(samples, key))
    ensures r in Range(config.repetitions)
  {
    var group := Group(samples, key);
    RepetitionMember(group, r);
    var i :| 0 <= i < |group| && group[i].repetition == r;
    GroupMember(samples, BatchKey, key, group[i]);
    var j :| 0 <= j < |samples| && samples[j] == group[i];
    assert samples[j].Place() in ExpectedCoordinates(scenarios, config);
  }

  lemma NonEmptyRange(samples: seq<Sample>, scenarios: seq<Scenario>, config: ScheduleConfig, runId: string, w: nat)
    requires ValidPopulation(samples, scenarios, config, runId) && w < |samples|
    ensures config.repetitions > 0
  {
    assert samples[w].Place() in ExpectedCoordinates(scenarios, config);
  }

  lemma RepetitionPresent(samples: seq<Sample>, scenarios: seq<Scenario>, config: ScheduleConfig, runId: string,
                          w: nat, r: int)
    requires ValidPopulation(samples, scenarios, config, runId)
    requires w < |samples| && r in Range(config.repetitions)
    ensures r in Repetitions(Group(samples, BatchKey(samples[w])))
  {
    var place := samples[w].Place().(repetition := r);
    assert samples[w].Place() in ExpectedCoordinates(scenarios, config);
    assert place in ExpectedCoordinates(scenarios, config);
    var j :| 0 <= j < |samples| && samples[j].Place() == place;
    assert samples[j].runId == samples[w].runId && samples[j].layer == samples[w].layer;
    assert BatchKey(samples[j]) == BatchKey(samples[w]);
    var group := Group(samples, BatchKey(samples[w]));
    GroupMember(samples, BatchKey, BatchKey(samples[w]), samples[j]);
    RepetitionMember(group, r);
  }

  /** Producer laps never exceed totals; outside C they are the totals, and C's composition lies within them. */
  predicate OrderedMedians(summary: BatchSummary) {
    && 0 < summary.producerMedian <= summary.totalMedian
    && if ParseSurface(summary.surface) == Some(C)
       then summary.compositionMedian.Some? && 0 <= summary.compositionMedian.value <= summary.totalMedian
       else summary.compositionMedian.None? && summary.producerMedian == summary.totalMedian
  }

  predicate ValidLaps(group: seq<Sample>, surface: Surface) {
    forall i | 0 <= i < |group| :: ValidTiming(group[i]) && ParseSurface(group[i].surface) == Some(surface)
  }

  lemma LapLengths(group: seq<Sample>)
    ensures |Producers(group)| == |Totals(group)| == |group|
    ensures forall i | 0 <= i < |group| ::
              Producers(group)[i] == group[i].producerNs && Totals(group)[i] == group[i].totalNs
  {
    FlatMapSingles((s: Sample) => [s.producerNs], group);
    FlatMapSingles((s: Sample) => [s.totalNs], group);
  }

  lemma TotalLaps(group: seq<Sample>, surface: Surface)
    requires group != [] && ValidLaps(group, surface)
    ensures Median(Producers(group)).Success? && Median(Totals(group)).Success?
    ensures 0 < Median(Producers(group)).value <= Median(Totals(group)).value
    ensures surface != C ==> Median(Producers(group)) == Median(Totals(group))
  {
    LapLengths(group);
    NearestRankDominance(Producers(group), Totals(group), 50.0);
    NearestRankMember(Producers(group), 50.0);
    if surface != C {
      assert Producers(group) == Totals(group);
    }
  }

  lemma CompositionLapsOfC(group: seq<Sample>)
    requires group != [] && ValidLaps(group, C)
    ensures CompositionMedian(C, group).Success? && CompositionMedian(C, group).value.Some?
    ensures Median(Totals(group)).Success?
    ensures 0 <= CompositionMedian(C, group).value.value <= Median(Totals(group)).value
  {
    LapLengths(group);
    CompositionsOfC(group);
    NearestRankDominance(Compositions(group), Totals(group), 50.0);
    NearestRankMember(Compositions(group), 50.0);
  }

  lemma CompositionsOfC(group: seq<Sample>)
    requires ValidLaps(group, C)
    ensures |Compositions(group)| == |group|
    ensures forall i | 0 <= i < |group| :: 0 <= Compositions(group)[i] <= group[i].totalNs
  {
    var pick := (s: Sample) => if s.compositionNs.Some? then [s.compositionNs.value] else [];
    FlatMapSingles(pick, group);
    assert Compositions(group) == FlatMap(pick, group);
  }

  lemma CompositionLapsElsewhere(group: seq<Sample>, surface: Surface)
    requires surface != C && ValidLaps(group, surface)
    ensures CompositionMedian(surface, group) == Success(None)
  {
    var pick := (s: Sample) => if s.compositionNs.Some? then [s.compositionNs.value] else [];
    FlatMapNone(pick, group);
    assert Compositions(group) == FlatMap(pick, group);
  }

  /** The summary belongs to the batch key, counts all repetitions and has its medians in order. */
  predicate SummaryFor(key: Key, summary: BatchSummary, repetitions: int) {
    && summary.unit + [Text(summary.surface)] == key
    && summary.repetitionCount == repetitions
    && ParseSurface(summary.surface).Some?
    && OrderedMedians(summary)
  }

  lemma SummaryFromLaps(key: Key, group: seq<Sample>, surface: Surface)
    requires IsBatchKey(key) && ParseSurface(key[5].text) == Some(surface)
    requires group != [] && ValidLaps(group, surface)
    ensures SummarizeLaps(key, surface, group).Success?
    ensures SummaryFor(key, SummarizeLaps(key, surface, group).value, |group|)
  {
    TotalLaps(group, surface);
    if surface == C { CompositionLapsOfC(group); } else { CompositionLapsElsewhere(group, surface); }
    SummaryBuilt(key, |group|, surface, CompositionMedian(surface, group), Median(Producers(group)), Median(Totals(group)));
  }

  lemma SummaryBuilt(key: Key, count: nat, surface: Surface, composition: Result<Option<int>, BatchError>,
                     producer: Result<int, BatchError>, total: Result<int, BatchError>)
    requires IsBatchKey(key) && ParseSurface(key[5].text) == Some(surface)
    requires producer.Success? && total.Success? && composition.Success?
    requires 0 < producer.value <= total.value
    requires if surface == C then composition.value.Some? && 0 <= composition.value.value <= total.value
             else composition.value.None? && producer.value == total.value
    ensures BuildSummary(key, count, composition, producer, total).Success?
    ensures SummaryFor(key, BuildSummary(key, count, composition, producer, total).value, count)
  {
    assert key[..5] + [Text(key[5].text)] == key;
  }

  lemma BatchLaps(samples: seq<Sample>, scenarios: seq<Scenario>, config: ScheduleConfig, runId: string, w: nat)
    requires ValidPopulation(samples, scenarios, config, runId) && w < |samples|
    ensures ParseSurface(samples[w].surface).Some?
    ensures ValidLaps(Group(samples, BatchKey(samples[w])), ParseSurface(samples[w].surface).value)
  {
    assert ValidSample(samples[w], config, runId, Terminals(scenarios));
    var group := Group(samples, BatchKey(samples[w]));
    forall i | 0 <= i < |group| ensures ValidTiming(group[i]) && group[i].surface == samples[w].surface {
      assert group[i] in group;
      BatchLap(samples, scenarios, config, runId, w, group[i]);
    }
  }

  lemma BatchLap(samples: seq<Sample>, scenarios: seq<Scenario>, config: ScheduleConfig, runId: string, w: nat, s: Sample)
    requires ValidPopulation(samples, scenarios, config, runId) && w < |samples|
    requires s in Group(samples, BatchKey(samples[w]))
    ensures ValidTiming(s) && s.surface == samples[w].surface
  {
    GroupMember(samples, BatchKey, BatchKey(samples[w]), s);
    assert BatchKey(s)[5] == BatchKey(samples[w])[5];
    var j :| 0 <= j < |samples| && samples[j] == s;
    assert ValidSample(samples[j], config, runId, Terminals(scenarios));
  }

  /** No check in the summary of a valid batch can fail. */
  lemma SummaryOfBatch(samples: seq<Sample>, scenarios: seq<Scenario>, config: ScheduleConfig, runId: string, key: Key)
    requires ValidPopulation(samples, scenarios, config, runId)
    requires key in SummaryKeys(samples)
    ensures IsBatchKey(key)
    ensures Summarize(key, Group(samples, key), config.repetitions).Success?
    ensures SummaryFor(key, Summarize(key, Group(samples, key), config.repetitions).value, config.repetitions)
  {
    var w := KeyWitness(samples, key);
    var group := Group(samples, key);
    BatchIsFull(samples, scenarios, config, runId, key);
    NonEmptyRange(samples, scenarios, config, runId, w);
    BatchLaps(samples, scenarios, config, runId, w);
    assert key[5].text == samples[w].surface;
    SummaryFromLaps(key, group, ParseSurface(samples[w].surface).value);
  }

  // ----- all summaries -----

  /** What every summary list of a valid population satisfies, batch key by batch key. */
  predicate SummariesFor(keys: seq<Key>, summaries: seq<BatchSummary>, repetitions: int) {
    |summaries| == |keys| && forall i | 0 <= i < |keys| :: SummaryFor(keys[i], summaries[i], repetitions)
  }

  predicate BatchSummarizes(samples: seq<Sample>, repetitions: int, key: Key) {
    && IsBatchKey(key)
    && Summarize(key, Group(samples, key), repetitions).Success?
    && SummaryFor(key, Summarize(key, Group(samples, key), repetitions).value, repetitions)
  }

  lemma {:induction false} SummarizePrefix(samples: seq<Sample>, repetitions: int, keys: seq<Key>)
    requires AreBatchKeys(keys) && forall i | 0 <= i < |keys| :: BatchSummarizes(samples, repetitions, keys[i])
    ensures SummarizeAll(keys, samples, repetitions).Success?
    ensures SummariesFor(keys, SummarizeAll(keys, samples, repetitions).value, repetitions)
  {
    if keys != [] {
      var n := |keys| - 1;
      SummarizePrefix(samples, repetitions, keys[..n]);
      var earlier := SummarizeAll(keys[..n], samples, repetitions).value;
      assert BatchSummarizes(samples, repetitions, keys[n]);
      var last := Summarize(keys[n], Group(samples, keys[n]), repetitions).value;
      SummarizeAllStep(keys, samples, repetitions, earlier, last);
      SummariesExtend(keys, earlier, last, repetitions);
    }
  }

  lemma SummariesExtend(keys: seq<Key>, earlier: seq<BatchSummary>, last: BatchSummary, repetitions: int)
    requires keys != [] && SummariesFor(keys[..|keys| - 1], earlier, repetitions)
    requires SummaryFor(keys[|keys| - 1], last, repetitions)
    ensures SummariesFor(keys, earlier + [last], repetitions)
  {
  }

  lemma SummarizeAllStep(keys: seq<Key>, samples: seq<Sample>, repetitions: int,
                         earlier: seq<BatchSummary>, last: BatchSummary)
    requires AreBatchKeys(keys) && keys != []
    requires SummarizeAll(keys[..|keys| - 1], samples, repetitions) == Success(earlier)
    requires Summarize(keys[|keys| - 1], Group(samples, keys[|keys| - 1]), repetitions) == Success(last)
    ensures SummarizeAll(keys, samples, repetitions) == Success(earlier + [last])
  {
  }

  function ExpectedKeys(scenarios: seq<Scenario>, config: ScheduleConfig, runId: string): set<Key> {
    if config.repetitions <= 0 then {}
    else set c | c in ExpectedCoordinates(scenarios, config.(repetitions := 1)) :: CoordinateKey(c, config, runId)
  }

  function CoordinateKey(c: Coordinate, config: ScheduleConfig, runId: string): Key {
    [Text(runId), Text(config.layer), Text(c.scenario), Number(c.block), Number(c.permutation), Text(c.surface)]
  }

  /** The batches present are exactly the planned scenario/block/permutation/surface batches. */
  lemma PresentKeys(samples: seq<Sample>, scenarios: seq<Scenario>, config: ScheduleConfig, runId: string, key: Key)
    requires ValidPopulation(samples, scenarios, config, runId)
    ensures key in SummaryKeys(samples) <==> key in ExpectedKeys(scenarios, config, runId)
  {
    if key in SummaryKeys(samples) {
      var i := KeyWitness(samples, key);
      NonEmptyRange(samples, scenarios, config, runId, i);
      KeyIsExpected(samples, scenarios, config, runId, i);
    }
    if key in ExpectedKeys(scenarios, config, runId) {
      var c :| c in ExpectedCoordinates(scenarios, config.(repetitions := 1)) && key == CoordinateKey(c, config, runId);
      KeyIsPresent(samples, scenarios, config, runId, c);
    }
  }

  lemma KeyIsExpected(samples: seq<Sample>, scenarios: seq<Scenario>, config: ScheduleConfig, runId: string, i: nat)
    requires ValidPopulation(samples, scenarios, config, runId)
    requires i < |samples| && config.repetitions > 0
    ensures BatchKey(samples[i]) in ExpectedKeys(scenarios, config, runId)
  {
    var place := samples[i].Place();
    var first := place.(repetition := 0);
    UniverseMember(scenarios, config, place);
    UniverseMember(scenarios, config.(repetitions := 1), first);
    assert ValidSample(samples[i], config, runId, Terminals(scenarios));
    assert BatchKey(samples[i]) == CoordinateKey(first, config, runId);
  }

  lemma KeyIsPresent(samples: seq<Sample>, scenarios: seq<Scenario>, config: ScheduleConfig, runId: string, c: Coordinate)
    requires ValidPopulation(samples, scenarios, config, runId)
    requires config.repetitions > 0 && c in ExpectedCoordinates(scenarios, config.(repetitions := 1))
    ensures CoordinateKey(c, config, runId) in SummaryKeys(samples)
  {
    UniverseMember(scenarios, config.(repetitions := 1), c);
    UniverseMember(scenarios, config, c);
    var i :| 0 <= i < |samples| && samples[i].Place() == c;
    KeyOfSample(samples, i);
    SampleAt(samples, scenarios, config, runId, i);
  }

  lemma KeyOfSample(samples: seq<Sample>, i: nat)
    requires i < |samples|
    ensures BatchKey(samples[i]) in SummaryKeys(samples)
  {
    assert BatchKeys(samples)[i] == BatchKey(samples[i]);
  }

  lemma SampleAt(samples: seq<Sample>, scenarios: seq<Scenario>, config: ScheduleConfig, runId: string, i: nat)
    requires ValidPopulation(samples, scenarios, config, runId) && i < |samples|
    ensures BatchKey(samples[i]) == CoordinateKey(samples[i].Place(), config, runId)
  {
    assert ValidSample(samples[i], config, runId, Terminals(scenarios));
  }

  function KeyCoordinate(k: Key): Coordinate {
    if |k| == 6 && k[2].Text? && k[3].Number? && k[4].Number? && k[5].Text?
    then Coordinate(k[2].text, k[3].number, k[4].number, 0, k[5].text)
    else Coordinate([], 0, 0, 0, [])
  }

  lemma ExpectedKeysSize(scenarios: seq<Scenario>, config: ScheduleConfig, runId: string)
    requires config.repetitions > 0
    ensures |ExpectedKeys(scenarios, config, runId)|
         == |ToSet(Names(scenarios))| * |Range(config.recordedBlocks)| * 18
  {
    var one := config.(repetitions := 1);
    var universe := ExpectedCoordinates(scenarios, one);
    var there := c => CoordinateKey(c, config, runId);
    forall c | c in universe ensures KeyCoordinate(CoordinateKey(c, config, runId)) == c {
      UniverseMember(scenarios, one, c);
    }
    BijectionSize(universe, ExpectedKeys(scenarios, config, runId), there, KeyCoordinate);
    ExpectedSize(scenarios, one);
    Eighteen(|ToSet(Names(scenarios))| * |Range(config.recordedBlocks)|, |Range(1)|);
  }

  lemma Eighteen(x: int, one: int)
    requires one == 1
    ensures x * 6 * one * 3 == x * 18
  {
  }

  lemma {:induction false} KeyListSize(keys: seq<Key>, universe: set<Key>)
    requires Ascending(keys) && forall k :: k in keys <==> k in universe
    ensures |keys| == |universe|
  {
    AscendingDistinct(keys);
    ToSetSize(keys);
    assert ToSet(keys) == universe;
  }

  /** Summaries of a valid population: no error, one per planned batch, medians in order. */
  lemma SummariesOfPopulation(samples: seq<Sample>, scenarios: seq<Scenario>, config: ScheduleConfig, runId: string)
    requires ValidPopulation(samples, scenarios, config, runId)
    ensures BatchSummaries(samples, config.repetitions).Success?
    ensures SummariesFor(SummaryKeys(samples), BatchSummaries(samples, config.repetitions).value, config.repetitions)
    ensures ToSet(SummaryKeys(samples)) == ExpectedKeys(scenarios, config, runId)
    ensures |BatchSummaries(samples, config.repetitions).value| == |ExpectedKeys(scenarios, config, runId)|
  {
    var keys := SummaryKeys(samples);
    forall i | 0 <= i < |keys| ensures BatchSummarizes(samples, config.repetitions, keys[i]) {
      SummaryOfBatch(samples, scenarios, config, runId, keys[i]);
    }
    SummarizePrefix(samples, config.repetitions, keys);
    forall k ensures k in keys <==> k in ExpectedKeys(scenarios, config, runId) {
      PresentKeys(samples, scenarios, config, runId, k);
    }
    KeyListSize(keys, ExpectedKeys(scenarios, config, runId));
  }

  // ----- comparisons -----

  predicate DistinctSummaries(summaries: seq<BatchSummary>) {
    forall i, j | 0 <= i < j < |summaries| ::
      summaries[i].unit != summaries[j].unit || summaries[i].surface != summaries[j].surface
  }

  predicate KnownSurfaces(summaries: seq<BatchSummary>) {
    forall i | 0 <= i < |summaries| :: ParseSurface(summaries[i].surface).Some?
  }

  predicate Holds(units: map<Key, Row>, summary: BatchSummary)
    requires ParseSurface(summary.surface).Some?
  {
    var surface := ParseSurface(summary.surface).value;
    summary.unit in units && surface in units[summary.unit] && units[summary.unit][surface] == summary
  }

  predicate ComesFrom(unit: Key, surface: Surface, summary: BatchSummary, summaries: seq<BatchSummary>) {
    summary in summaries && summary.unit == unit && ParseSurface(summary.surface) == Some(surface)
  }

  /** The unit table holds every summary once and nothing else. */
  ghost predicate IsTable(units: map<Key, Row>, summaries: seq<BatchSummary>)
    requires KnownSurfaces(summaries)
  {
    && (forall i | 0 <= i < |summaries| :: Holds(units, summaries[i]))
    && (forall u, f | u in units && f in units[u] :: ComesFrom(u, f, units[u][f], summaries))
  }

  lemma {:induction false} UnitRowsTable(summaries: seq<BatchSummary>)
    requires KnownSurfaces(summaries) && DistinctSummaries(summaries)
    ensures UnitRows(summaries).Success? && IsTable(UnitRows(summaries).value, summaries)
  {
    if summaries != [] {
      var n := |summaries| - 1;
      var rest, last := summaries[..n], summaries[n];
      assert rest + [last] == summaries;
      PrefixOk(summaries, n);
      UnitRowsTable(rest);
      TableExtends(UnitRows(rest).value, rest, last);
    }
  }

  lemma PrefixOk(summaries: seq<BatchSummary>, n: nat)
    requires KnownSurfaces(summaries) && DistinctSummaries(summaries) && n <= |summaries|
    ensures KnownSurfaces(summaries[..n]) && DistinctSummaries(summaries[..n])
  {
  }

  lemma SurfaceNames(s: string, t: string)
    requires ParseSurface(s).Some? && ParseSurface(s) == ParseSurface(t)
    ensures s == t
  {
  }

  lemma TableExtends(units: map<Key, Row>, rest: seq<BatchSummary>, last: BatchSummary)
    requires KnownSurfaces(rest + [last]) && DistinctSummaries(rest + [last])
    requires KnownSurfaces(rest) && IsTable(units, rest)
    ensures AddSummary(units, last).Success?
    ensures IsTable(AddSummary(units, last).value, rest + [last])
  {
    var all := rest + [last];
    assert all[|rest|] == last;
    var surface := ParseSurface(last.surface).value;
    if last.unit in units && surface in units[last.unit] {
      assert ComesFrom(last.unit, surface, units[last.unit][surface], rest);
      var i :| 0 <= i < |rest| && rest[i] == units[last.unit][surface];
      assert all[i].surface == rest[i].surface;
      SurfaceNames(rest[i].surface, last.surface);
      assert false;
    }
    var more := AddSummary(units, last).value;
    forall i | 0 <= i < |all| ensures Holds(more, all[i]) {
      if i < |rest| {
        assert all[i] == rest[i] && Holds(units, rest[i]);
      }
    }
    forall u, f | u in more && f in more[u] ensures ComesFrom(u, f, more[u][f], all) {
      if u in units && f in units[u] && !(u == last.unit && f == surface) {
        assert ComesFrom(u, f, units[u][f], rest);
      }
    }
  }

  /** Summaries that can be filed at all are of known surfaces and never two of one unit and surface. */
  lemma {:induction false} FiledAreDistinct(summaries: seq<BatchSummary>)
    requires UnitRows(summaries).Success?
    ensures KnownSurfaces(summaries) && DistinctSummaries(summaries)
  {
    if summaries != [] {
      var n := |summaries| - 1;
      var rest, last := summaries[..n], summaries[n];
      FiledAreDistinct(rest);
      UnitRowsTable(rest);
      NextIsApart(UnitRows(rest).value, rest, last);
      assert summaries == rest + [last];
    }
  }

  lemma NextIsApart(units: map<Key, Row>, rest: seq<BatchSummary>, last: BatchSummary)
    requires KnownSurfaces(rest) && DistinctSummaries(rest) && IsTable(units, rest) && AddSummary(units, last).Success?
    ensures KnownSurfaces(rest + [last]) && DistinctSummaries(rest + [last])
  {
    var all := rest + [last];
    forall i | 0 <= i < |rest| ensures all[i].unit != last.unit || all[i].surface != last.surface {
      assert Holds(units, rest[i]);
    }
  }

  lemma RowsFrom(units: map<Key, Row>, other: map<Key, Row>, s: seq<BatchSummary>, t: seq<BatchSummary>, u: Key)
    requires KnownSurfaces(s) && KnownSurfaces(t) && IsTable(units, s) && IsTable(other, t)
    requires multiset(s) == multiset(t) && u in units && u in other
    ensures forall f | f in units[u] :: f in other[u] && other[u][f] == units[u][f]
  {
    forall f | f in units[u] ensures f in other[u] && other[u][f] == units[u][f] {
      assert ComesFrom(u, f, units[u][f], s);
      var i :| 0 <= i < |s| && s[i] == units[u][f];
      assert s[i] in multiset(s);
      assert s[i] in multiset(t);
      var j :| 0 <= j < |t| && t[j] == s[i];
      assert Holds(other, t[j]);
    }
  }

  lemma SameRows(s: seq<BatchSummary>, t: seq<BatchSummary>)
    requires multiset(s) == multiset(t) && UnitRows(s).Success? && UnitRows(t).Success?
    ensures UnitRows(s) == UnitRows(t) && SortedUnits(s) == SortedUnits(t)
  {
    FiledAreDistinct(s);
    FiledAreDistinct(t);
    UnitRowsTable(s);
    UnitRowsTable(t);
    SameKeys(s, t);
    SameTables(UnitRows(s).value, UnitRows(t).value, s, t);
  }

  lemma SameKeys(s: seq<BatchSummary>, t: seq<BatchSummary>)
    requires multiset(s) == multiset(t) && UnitRows(s).Success? && UnitRows(t).Success?
    ensures SortedUnits(s) == SortedUnits(t)
    ensures forall u :: u in UnitRows(s).value <==> u in UnitRows(t).value
  {
    UnitRowsKeys(s);
    UnitRowsKeys(t);
    SameUnits(s, t);
    SameUnits(t, s);
    AscendingUnique(SortedUnits(s), SortedUnits(t));
  }

  lemma SameTables(a: map<Key, Row>, b: map<Key, Row>, s: seq<BatchSummary>, t: seq<BatchSummary>)
    requires KnownSurfaces(s) && KnownSurfaces(t) && IsTable(a, s) && IsTable(b, t)
    requires multiset(s) == multiset(t) && forall u :: u in a <==> u in b
    ensures a == b
  {
    forall u | u in a ensures a[u] == b[u] {
      RowsFrom(a, b, s, t, u);
      RowsFrom(b, a, t, s, u);
    }
  }

  lemma SameUnits(s: seq<BatchSummary>, t: seq<BatchSummary>)
    requires multiset(s) == multiset(t)
    ensures forall k | k in UnitKeys(s) :: k in UnitKeys(t)
  {
    forall k | k in UnitKeys(s) ensures k in UnitKeys(t) {
      var i :| 0 <= i < |s| && UnitKeys(s)[i] == k;
      assert s[i] in multiset(s);
      assert s[i] in multiset(t);
      var j :| 0 <= j < |t| && t[j] == s[i];
      assert UnitKeys(t)[j] == k;
    }
  }

  lemma DistinctRearranged(s: seq<BatchSummary>, t: seq<BatchSummary>)
    requires multiset(s) == multiset(t) && UnitRows(s).Success?
    ensures UnitRows(t).Success?
  {
    FiledAreDistinct(s);
    forall i | 0 <= i < |t| ensures t[i] in s {
      assert t[i] in multiset(t);
      assert t[i] in multiset(s);
    }
    forall i, j | 0 <= i < j < |t| ensures t[i].unit != t[j].unit || t[i].surface != t[j].surface {
      PlacesApart(s, t, i, j);
    }
    UnitRowsTable(t);
  }

  lemma PlacesApart(s: seq<BatchSummary>, t: seq<BatchSummary>, i: nat, j: nat)
    requires multiset(s) == multiset(t) && i < j < |t|
    requires forall a, b | 0 <= a < b < |s| :: s[a].unit != s[b].unit || s[a].surface != s[b].surface
    ensures t[i].unit != t[j].unit || t[i].surface != t[j].surface
  {
    SummaryOnce(s, t[i]);
    OccursTwice(t, i, j);
    assert t[i] in multiset(t) && t[j] in multiset(t);
    assert t[i] in multiset(s) && t[j] in multiset(s);
    var a :| 0 <= a < |s| && s[a] == t[i];
    var b :| 0 <= b < |s| && s[b] == t[j];
    assert a < b || b < a;
  }

  lemma SummaryOnce(s: seq<BatchSummary>, x: BatchSummary)
    requires forall a, b | 0 <= a < b < |s| :: s[a].unit != s[b].unit || s[a].surface != s[b].surface
    ensures multiset(s)[x] <= 1
  {
    assert NoDuplicates(s);
    AtMostOnce(s, x);
  }

  lemma AtMostOnce<T>(s: seq<T>, x: T)
    requires NoDuplicates(s)
    ensures multiset(s)[x] <= 1
  {
    if x in s {
      var a :| 0 <= a < |s| && s[a] == x;
      WithoutMultiset(s, a);
      forall c | 0 <= c < |Without(s, a)| ensures Without(s, a)[c] != x {
        assert Without(s, a)[c] == s[if c < a then c else c + 1];
      }
      assert x !in multiset(Without(s, a));
    }
  }

  /** Any reordering of the summaries gives the identical comparisons, or is refused as well. */
  lemma BatchComparisonsPermutation(s: seq<BatchSummary>, t: seq<BatchSummary>)
    requires multiset(s) == multiset(t)
    ensures UnitRows(s).Success? <==> UnitRows(t).Success?
    ensures UnitRows(s).Success? ==> BatchComparisons(s) == BatchComparisons(t)
  {
    if UnitRows(s).Success? { DistinctRearranged(s, t); }
    if UnitRows(t).Success? { DistinctRearranged(t, s); }
    if UnitRows(s).Success? { SameRows(s, t); }
  }

  lemma SummariesAreDistinct(keys: seq<Key>, summaries: seq<BatchSummary>, repetitions: int)
    requires Ascending(keys) && SummariesFor(keys, summaries, repetitions)
    ensures DistinctSummaries(summaries) && KnownSurfaces(summaries)
  {
    AscendingDistinct(keys);
    forall i, j | 0 <= i < j < |summaries|
      ensures summaries[i].unit != summaries[j].unit || summaries[i].surface != summaries[j].surface
    {
      assert SummaryFor(keys[i], summaries[i], repetitions) && SummaryFor(keys[j], summaries[j], repetitions);
    }
  }

  /** Every unit of the table has its three surfaces, all with ordered medians. */
  predicate CompleteRow(unit: Key, row: Row, summaries: seq<BatchSummary>) {
    && row.Keys == {A, B, C}
    && forall f | f in row :: ComesFrom(unit, f, row[f], summaries) && OrderedMedians(row[f])
  }

  lemma SiblingKey(scenarios: seq<Scenario>, config: ScheduleConfig, runId: string, unit: Key, f: string, g: string)
    requires unit + [Text(f)] in ExpectedKeys(scenarios, config, runId) && g in SURFACES
    ensures unit + [Text(g)] in ExpectedKeys(scenarios, config, runId)
  {
    var one := config.(repetitions := 1);
    var c :| c in ExpectedCoordinates(scenarios, one) && unit + [Text(f)] == CoordinateKey(c, config, runId);
    var d := c.(surface := g);
    UniverseMember(scenarios, one, c);
    UniverseMember(scenarios, one, d);
    assert unit == (unit + [Text(f)])[..5];
    assert unit + [Text(g)] == CoordinateKey(d, config, runId);
  }

  lemma SurfacePresent(keys: seq<Key>, summaries: seq<BatchSummary>, repetitions: int, units: map<Key, Row>,
                       unit: Key, surface: Surface)
    requires SummariesFor(keys, summaries, repetitions) && KnownSurfaces(summaries) && IsTable(units, summaries)
    requires unit + [Text(surface.Name())] in keys
    ensures unit in units && surface in units[unit]
  {
    var i :| 0 <= i < |keys| && keys[i] == unit + [Text(surface.Name())];
    assert SummaryFor(keys[i], summaries[i], repetitions);
    LastAtom(summaries[i].unit, summaries[i].surface, unit, surface.Name());
    assert Holds(units, summaries[i]);
  }

  lemma LastAtom(u: Key, s: string, v: Key, t: string)
    requires u + [Text(s)] == v + [Text(t)]
    ensures u == v && s == t
  {
    assert |u| == |v|;
    assert (u + [Text(s)])[|u|] == Text(s) && (v + [Text(t)])[|v|] == Text(t);
    assert u == (u + [Text(s)])[..|u|] && v == (v + [Text(t)])[..|v|];
  }

  lemma RowIsComplete(keys: seq<Key>, summaries: seq<BatchSummary>, repetitions: int, units: map<Key, Row>,
                      scenarios: seq<Scenario>, config: ScheduleConfig, runId: string, unit: Key)
    requires SummariesFor(keys, summaries, repetitions) && KnownSurfaces(summaries) && IsTable(units, summaries)
    requires forall k :: k in keys <==> k in ExpectedKeys(scenarios, config, runId)
    requires unit in UnitKeys(summaries)
    ensures unit in units && CompleteRow(unit, units[unit], summaries)
  {
    var i :| 0 <= i < |summaries| && UnitKeys(summaries)[i] == unit;
    assert SummaryFor(keys[i], summaries[i], repetitions);
    assert keys[i] in keys;
    forall f: Surface ensures unit in units && f in units[unit] {
      SiblingKey(scenarios, config, runId, unit, summaries[i].surface, f.Name());
      SurfacePresent(keys, summaries, repetitions, units, unit, f);
    }
    RowIsOrdered(keys, summaries, repetitions, units, unit);
  }

  lemma RowIsOrdered(keys: seq<Key>, summaries: seq<BatchSummary>, repetitions: int, units: map<Key, Row>, unit: Key)
    requires SummariesFor(keys, summaries, repetitions) && KnownSurfaces(summaries) && IsTable(units, summaries)
    requires unit in units && forall f: Surface :: f in units[unit]
    ensures CompleteRow(unit, units[unit], summaries)
  {
    var row := units[unit];
    assert row.Keys == {A, B, C};
    forall f | f in row ensures OrderedMedians(row[f]) {
      assert ComesFrom(unit, f, row[f], summaries);
      var j :| 0 <= j < |summaries| && summaries[j] == row[f];
      assert SummaryFor(keys[j], summaries[j], repetitions);
    }
  }

  /** The four estimates of one unit: who is compared with whom, against A's positive reference. */
  predicate UnitBlock(block: seq<BatchComparison>, unit: Key, row: Row) {
    && row.Keys == {A, B, C} && |block| == 4
    && (forall j | 0 <= j < 4 :: block[j].unit == unit && block[j].referenceNs == row[A].totalMedian > 0)
    && block[0].kind == EndToEndBA && block[0].estimateNs == row[B].totalMedian - row[A].totalMedian
    && block[1].kind == CompositionLap && row[C].compositionMedian == Some(block[1].estimateNs)
    && 0 <= block[1].estimateNs <= row[C].totalMedian
    && block[2].kind == EndToEndCA && block[2].estimateNs == block[0].estimateNs + block[3].estimateNs
    && block[3].kind == TotalCB && block[3].estimateNs == row[C].totalMedian - row[B].totalMedian
  }

  lemma CompareCompleteRow(unit: Key, row: Row, summaries: seq<BatchSummary>)
    requires CompleteRow(unit, row, summaries)
    ensures CompareUnit(unit, row).Success? && UnitBlock(CompareUnit(unit, row).value, unit, row)
  {
    assert A in row && B in row && C in row;
    assert OrderedMedians(row[A]) && OrderedMedians(row[C]);
    assert ComesFrom(unit, C, row[C], summaries);
  }

  ghost predicate ComparisonsFor(unitKeys: seq<Key>, units: map<Key, Row>, comparisons: seq<BatchComparison>) {
    && |comparisons| == 4 * |unitKeys|
    && forall u | 0 <= u < |unitKeys| ::
         unitKeys[u] in units && UnitBlock(comparisons[4 * u..4 * u + 4], unitKeys[u], units[unitKeys[u]])
  }

  lemma {:induction false} CompareAllComplete(unitKeys: seq<Key>, units: map<Key, Row>, summaries: seq<BatchSummary>)
    requires forall u | 0 <= u < |unitKeys| ::
               unitKeys[u] in units && CompleteRow(unitKeys[u], units[unitKeys[u]], summaries)
    ensures CompareAll(unitKeys, units).Success?
    ensures ComparisonsFor(unitKeys, units, CompareAll(unitKeys, units).value)
  {
    if unitKeys != [] {
      var n := |unitKeys| - 1;
      CompareAllComplete(unitKeys[..n], units, summaries);
      CompareCompleteRow(unitKeys[n], units[unitKeys[n]], summaries);
      var earlier, block := CompareAll(unitKeys[..n], units).value, CompareUnit(unitKeys[n], units[unitKeys[n]]).value;
      assert CompareAll(unitKeys, units) == Success(earlier + block);
      BlocksExtend(unitKeys, units, earlier, block);
    }
  }

  lemma BlocksExtend(unitKeys: seq<Key>, units: map<Key, Row>, earlier: seq<BatchComparison>, block: seq<BatchComparison>)
    requires unitKeys != [] && ComparisonsFor(unitKeys[..|unitKeys| - 1], units, earlier)
    requires var unit := unitKeys[|unitKeys| - 1]; unit in units && UnitBlock(block, unit, units[unit])
    ensures ComparisonsFor(unitKeys, units, earlier + block)
  {
    var n := |unitKeys| - 1;
    forall u | 0 <= u < |unitKeys|
      ensures unitKeys[u] in units && UnitBlock((earlier + block)[4 * u..4 * u + 4], unitKeys[u], units[unitKeys[u]])
    {
      if u < n {
        assert (earlier + block)[4 * u..4 * u + 4] == earlier[4 * u..4 * u + 4];
        assert unitKeys[..n][u] == unitKeys[u];
      } else {
        assert (earlier + block)[4 * u..4 * u + 4] == block;
      }
    }
  }

  /** From the summaries alone: their keys are the expected ones, each once. */
  lemma ComparisonsOfSummaries(keys: seq<Key>, summaries: seq<BatchSummary>, scenarios: seq<Scenario>,
                               config: ScheduleConfig, runId: string)
    requires Ascending(keys) && SummariesFor(keys, summaries, config.repetitions)
    requires ToSet(keys) == ExpectedKeys(scenarios, config, runId)
    ensures UnitRows(summaries).Success? && BatchComparisons(summaries).Success?
    ensures ComparisonsFor(SortedUnits(summaries), UnitRows(summaries).value, BatchComparisons(summaries).value)
  {
    SummariesAreDistinct(keys, summaries, config.repetitions);
    UnitRowsTable(summaries);
    UnitRowsKeys(summaries);
    var units, unitKeys := UnitRows(summaries).value, SortedUnits(summaries);
    forall k ensures k in keys <==> k in ExpectedKeys(scenarios, config, runId) {
      assert k in keys <==> k in ToSet(keys);
    }
    forall u | 0 <= u < |unitKeys| ensures unitKeys[u] in units && CompleteRow(unitKeys[u], units[unitKeys[u]], summaries) {
      assert unitKeys[u] in unitKeys;
      RowIsComplete(keys, summaries, config.repetitions, units, scenarios, config, runId, unitKeys[u]);
    }
    CompareAllComplete(unitKeys, units, summaries);
  }

  /** Comparisons of a valid population: no error, four per unit, each the stated difference of medians. */
  lemma ComparisonsOfPopulation(samples: seq<Sample>, scenarios: seq<Scenario>, config: ScheduleConfig, runId: string)
    requires ValidPopulation(samples, scenarios, config, runId)
    ensures BatchSummaries(samples, config.repetitions).Success?
    ensures var summaries := BatchSummaries(samples, config.repetitions).value;
            && UnitRows(summaries).Success? && BatchComparisons(summaries).Success?
            && ComparisonsFor(SortedUnits(summaries), UnitRows(summaries).value, BatchComparisons(summaries).value)
  {
    SummariesOfPopulation(samples, scenarios, config, runId);
    var summaries := BatchSummaries(samples, config.repetitions).value;
    ComparisonsOfSummaries(SummaryKeys(samples), summaries, scenarios, config, runId);
  }

  // ----- closed-form counts -----

  function Joined(pair: (Key, string)): Key {
    pair.0 + [Text(pair.1)]
  }

  function Parted(key: Key): (Key, string) {
    if key != [] && key[|key| - 1].Text? then (key[..|key| - 1], key[|key| - 1].text) else ([], [])
  }

  /** Each unit is met three times among the batch keys, once per surface. */
  lemma UnitsTimesSurfaces(scenarios: seq<Scenario>, config: ScheduleConfig, runId: string,
                           summaries: seq<BatchSummary>, keys: seq<Key>)
    requires SummariesFor(keys, summaries, config.repetitions)
    requires forall k :: k in keys <==> k in ExpectedKeys(scenarios, config, runId)
    ensures |ExpectedKeys(scenarios, config, runId)| == |SortedUnits(summaries)| * 3
  {
    var units := ToSet(SortedUnits(summaries));
    forall pair | pair in Product(units, SURFACES) ensures Joined(pair) in ExpectedKeys(scenarios, config, runId) {
      PairIsExpected(scenarios, config, runId, summaries, keys, pair);
    }
    forall k | k in ExpectedKeys(scenarios, config, runId)
      ensures Parted(k) in Product(units, SURFACES) && Joined(Parted(k)) == k
    {
      KeyParts(scenarios, config, runId, summaries, keys, k);
    }
    SizeByParts(units, ExpectedKeys(scenarios, config, runId));
    KeyListSize(SortedUnits(summaries), units);
  }

  lemma SizeByParts(units: set<Key>, expected: set<Key>)
    requires forall pair | pair in Product(units, SURFACES) :: Joined(pair) in expected
    requires forall k | k in expected :: Parted(k) in Product(units, SURFACES) && Joined(Parted(k)) == k
    ensures |expected| == |units| * 3
  {
    forall pair | pair in Product(units, SURFACES) ensures Parted(Joined(pair)) == pair { PartedJoined(pair); }
    BijectionSize(Product(units, SURFACES), expected, Joined, Parted);
    ProductSize(units, SURFACES);
    SurfaceCount();
  }

  lemma PartedJoined(pair: (Key, string))
    ensures Parted(Joined(pair)) == pair
  {
    assert (pair.0 + [Text(pair.1)])[..|pair.0|] == pair.0;
  }

  lemma PairIsExpected(scenarios: seq<Scenario>, config: ScheduleConfig, runId: string,
                       summaries: seq<BatchSummary>, keys: seq<Key>, pair: (Key, string))
    requires SummariesFor(keys, summaries, config.repetitions)
    requires forall k :: k in keys <==> k in ExpectedKeys(scenarios, config, runId)
    requires pair in Product(ToSet(SortedUnits(summaries)), SURFACES)
    ensures Joined(pair) in ExpectedKeys(scenarios, config, runId)
  {
    assert pair.0 in ToSet(SortedUnits(summaries)) && pair.1 in SURFACES;
    var i :| 0 <= i < |summaries| && UnitKeys(summaries)[i] == pair.0;
    assert SummaryFor(keys[i], summaries[i], config.repetitions);
    assert keys[i] in keys;
    SiblingKey(scenarios, config, runId, pair.0, summaries[i].surface, pair.1);
  }

  lemma KeyParts(scenarios: seq<Scenario>, config: ScheduleConfig, runId: string,
                 summaries: seq<BatchSummary>, keys: seq<Key>, k: Key)
    requires SummariesFor(keys, summaries, config.repetitions)
    requires k in keys && k in ExpectedKeys(scenarios, config, runId)
    ensures Parted(k) in Product(ToSet(SortedUnits(summaries)), SURFACES) && Joined(Parted(k)) == k
  {
    var i :| 0 <= i < |keys| && keys[i] == k;
    assert SummaryFor(keys[i], summaries[i], config.repetitions);
    var unit, surface := summaries[i].unit, summaries[i].surface;
    assert k[..|k| - 1] == unit && k[|k| - 1] == Text(surface);
    assert UnitKeys(summaries)[i] == unit;
    assert unit in ToSet(SortedUnits(summaries));
    assert surface in SURFACES;
  }

  /** Eighteen summaries and twenty-four comparisons for every scenario and recorded block. */
  lemma PopulationCounts(samples: seq<Sample>, scenarios: seq<Scenario>, config: ScheduleConfig, runId: string)
    requires ValidPopulation(samples, scenarios, config, runId) && config.repetitions > 0
    ensures BatchSummaries(samples, config.repetitions).Success?
    ensures var summaries := BatchSummaries(samples, config.repetitions).value;
            && |summaries| == |scenarios| * config.recordedBlocks * 18
            && BatchComparisons(summaries).Success?
            && |BatchComparisons(summaries).value| == |scenarios| * config.recordedBlocks * 24
  {
    SummariesOfPopulation(samples, scenarios, config, runId);
    ComparisonsOfPopulation(samples, scenarios, config, runId);
    var summaries := BatchSummaries(samples, config.repetitions).value;
    var keys := SummaryKeys(samples);
    forall k ensures k in keys <==> k in ExpectedKeys(scenarios, config, runId) {
      assert k in keys <==> k in ToSet(keys);
    }
    UnitsTimesSurfaces(scenarios, config, runId, summaries, keys);
    PlannedBatches(scenarios, config, runId);
    FourOfThree(|ExpectedKeys(scenarios, config, runId)|, |SortedUnits(summaries)|, |scenarios| * config.recordedBlocks);
  }

  lemma FourOfThree(batches: int, units: int, planned: int)
    requires batches == units * 3 && batches == planned * 18
    ensures 4 * units == planned * 24
  {
  }

  lemma PlannedBatches(scenarios: seq<Scenario>, config: ScheduleConfig, runId: string)
    requires config.repetitions > 0
    requires ExpectedSampleCount(scenarios, config) == |ExpectedCoordinates(scenarios, config)|
    ensures |ExpectedKeys(scenarios, config, runId)| == |scenarios| * config.recordedBlocks * 18
  {
    ExpectedKeysSize(scenarios, config, runId);
    ClosedFormIsUniverseSize(scenarios, config);
    ToSetSize(Names(scenarios));
  }
}
