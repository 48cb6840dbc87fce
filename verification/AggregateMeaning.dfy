/**
What the aggregates mean: each describes exactly its own cohort's records, or its own cell's
bursts, and every number in it is the statistic its name says of their own readings.
*/
module AggregateMeaning {
  import opened Sequences
  import opened Ordering
  import opened DescriptiveStatistics
  import opened FixedSchedule
  import opened RunRecords
  import opened Grouping
  import opened CohortAggregation
  import opened BatchRates

  // ----- cohorts -----

  /** The records an aggregate is about, in order. */
  function Members(records: seq<Invocation>, a: Aggregate): seq<Invocation> {
    FlatMap((r: Invocation) => if Describes(a, r) then [r] else [], records)
  }

  lemma {:induction false} GroupIsMembers(records: seq<Invocation>, key: Key, a: Aggregate)
    requires forall i | 0 <= i < |records| :: Describes(a, records[i]) <==> KeyOf(records[i]) == key
    ensures Group(records, key) == Members(records, a)
  {
    if records != [] {
      var n := |records| - 1;
      GroupIsMembers(records[..n], key, a);
      GroupNext(records[..n], records[n], KeyOf, key);
      assert records == records[..n] + [records[n]];
    }
  }

  function ElapsedTimes(records: seq<Invocation>): seq<real> {
    seq(|records|, i requires 0 <= i < |records| => records[i].elapsedNs as real)
  }

  lemma ElapsedIs(group: seq<Invocation>)
    ensures Elapsed(group) == ElapsedTimes(group)
  {
    var f := (r: Invocation) => [r.elapsedNs as real];
    FlatMapSingles(f, group);
    assert Elapsed(group) == FlatMap(f, group);
  }

  /** v is the measured duration of this phase in this record. */
  predicate ReadingOf(r: Invocation, name: PhaseName, v: real) {
    r.evidence.Normal? && r.evidence.phases.Some? && HasReading(r.evidence.phases.value, name, v)
  }

  predicate HasReading(phases: seq<PhaseRecord>, name: PhaseName, v: real) {
    exists i | 0 <= i < |phases| ::
      phases[i].name == name && phases[i].state == Measured && phases[i].elapsed.Some? && v == phases[i].elapsed.value as real
  }

  /** One reading from each record, described. */
  ghost predicate PhaseMeans(p: PhaseAggregate, members: seq<Invocation>) {
    exists values: seq<real> :: ReadFrom(values, members, p.name) && IsStatistics(p.statistics, values)
  }

  predicate ReadFrom(values: seq<real>, members: seq<Invocation>, name: PhaseName) {
    |values| == |members| && forall i | 0 <= i < |members| :: ReadingOf(members[i], name, values[i])
  }

  ghost predicate AggregateMeans(a: Aggregate, members: seq<Invocation>) {
    && members != [] && IsStatistics(a.elapsed, ElapsedTimes(members))
    && forall i | 0 <= i < |a.phases| :: PhaseMeans(a.phases[i], members)
  }

  lemma ValueIsReading(r: Invocation, name: PhaseName, v: real)
    requires v in ValuesOf(r, name)
    ensures ReadingOf(r, name, v)
  {
    var phases := r.evidence.phases.value;
    var f := (p: PhaseRecord) => MeasuredValue(p, name);
    FlatMapMember(f, phases, v);
    assert PhaseValuesIn(phases, name) == FlatMap(f, phases);
    var i :| 0 <= i < |phases| && v in f(phases[i]);
  }

  lemma ValuesAreReadings(group: seq<Invocation>, name: PhaseName)
    requires Uniform(group, name, true)
    ensures ReadFrom(PhaseValues(group, name), group, name)
  {
    var f := (r: Invocation) => ValuesOf(r, name);
    FlatMapSingles(f, group);
    assert PhaseValues(group, name) == FlatMap(f, group);
    forall i | 0 <= i < |group| ensures ReadingOf(group[i], name, PhaseValues(group, name)[i]) {
      ValueIsReading(group[i], name, PhaseValues(group, name)[i]);
    }
  }

  lemma DescribedPhaseMeans(group: seq<Invocation>, name: PhaseName, measured: bool)
    requires group != [] && Uniform(group, name, measured)
    ensures forall i | 0 <= i < |DescribePhase(group, name)| :: PhaseMeans(DescribePhase(group, name)[i], group)
  {
    UniformValues(group, name, measured);
    if measured {
      ValuesAreReadings(group, name);
      DescribeIs(PhaseValues(group, name));
    }
  }

  lemma {:induction false} PhasesMean(group: seq<Invocation>, composition: Composition, cohort: Cohort, names: seq<PhaseName>)
    requires group != [] && HasMatrix(composition, cohort)
    requires forall name :: Uniform(group, name, Matrix(composition, cohort, name) == Measured)
    ensures forall i | 0 <= i < |PhasesOf(group, names)| :: PhaseMeans(PhasesOf(group, names)[i], group)
  {
    if names != [] {
      var n := |names| - 1;
      PhasesMean(group, composition, cohort, names[..n]);
      DescribedPhaseMeans(group, names[n], Matrix(composition, cohort, names[n]) == Measured);
      assert PhasesOf(group, names) == PhasesOf(group, names[..n]) + DescribePhase(group, names[n]);
    }
  }

  lemma GroupMeans(records: seq<Invocation>, key: Key)
    requires Acceptable(records) && forall i | 0 <= i < |records| :: PhasesConstructed(records[i])
    requires AllClassified(records) && key in Keys(records)
    ensures AggregateMeans(AggregateKey(records, key), Group(records, key))
  {
    var group := Group(records, key);
    GroupShape(records, key);
    ElapsedIs(group);
    DescribeIs(Elapsed(group));
    GroupUniform(records, key, BusinessUow);
    forall name ensures Uniform(group, name, Matrix(group[0].composition, group[0].evidence.cohort.value, name) == Measured) {
      GroupUniform(records, key, name);
    }
    PhasesMean(group, group[0].composition, group[0].evidence.cohort.value, PhaseNames);
  }

  /** The texts an aggregate is sorted by. */
  function AggregateOrder(a: Aggregate): Key {
    [Text(a.runId), Text(Decimal(a.level)), Text(FamilyText(a.family)), Text(CompositionText(a.composition)), Text(CohortLabel(a.cohort))]
  }

  lemma KeyIsOrder(records: seq<Invocation>, key: Key)
    requires AllClassified(records) && key in Keys(records)
    ensures AggregateOrder(AggregateKey(records, key)) == key
  {
    GroupShape(records, key);
  }

  lemma AggregateOfKey(records: seq<Invocation>, key: Key)
    requires Acceptable(records) && forall i | 0 <= i < |records| :: PhasesConstructed(records[i])
    requires AllClassified(records) && key in Keys(records)
    ensures AggregateMeans(AggregateKey(records, key), Members(records, AggregateKey(records, key)))
  {
    GroupMeans(records, key);
    var a := AggregateKey(records, key);
    forall i | 0 <= i < |records| ensures Describes(a, records[i]) <==> KeyOf(records[i]) == key {
      AggregateDescribes(records, key, records[i]);
    }
    GroupIsMembers(records, key, a);
  }

  /**
   Of any acceptable records: the aggregates come in the order of their texts, and each gives count, extremes,
   mean and median of the elapsed times, and of every phase it lists, over exactly the records of its cohort.
   */
  lemma AggregatesMean(records: seq<Invocation>)
    requires Acceptable(records) && forall i | 0 <= i < |records| :: PhasesConstructed(records[i])
    ensures var all := AggregateInvocations(records).value;
            && (forall i, j | 0 <= i < j < |all| :: KeyLess(AggregateOrder(all[i]), AggregateOrder(all[j])))
            && (forall i | 0 <= i < |all| :: AggregateMeans(all[i], Members(records, all[i])))
  {
    AggregatesByCohort(records);
    var keys := SortedCohorts(records);
    var all := AggregateKeys(records, keys);
    forall i | 0 <= i < |keys| ensures AggregateOrder(all[i]) == keys[i] && AggregateMeans(all[i], Members(records, all[i])) {
      KeyIsOrder(records, keys[i]);
      AggregateOfKey(records, keys[i]);
    }
  }

  // ----- rates -----

  predicate SameCell(a: RateAggregate, b: Batch) {
    a.runId == b.runId && a.level == b.level && a.family == b.family && a.composition == b.composition
  }

  /** The bursts a rate aggregate is about, in order. */
  function Bursts(batches: seq<Batch>, a: RateAggregate): seq<Batch> {
    FlatMap((b: Batch) => if SameCell(a, b) then [b] else [], batches)
  }

  /** Rates per second: over its elapsed nanoseconds each gives the number counted. */
  predicate PerSecond(rates: seq<real>, bursts: seq<Batch>, count: Batch -> nat) {
    && |rates| == |bursts|
    && forall i | 0 <= i < |bursts| ::
         rates[i] * bursts[i].elapsedNs as real == 1_000_000_000.0 * count(bursts[i]) as real
  }

  function AcceptedOf(b: Batch): nat { b.accepted }

  function CompletedOf(b: Batch): nat { b.completed }

  ghost predicate RateMeans(a: RateAggregate, bursts: seq<Batch>) {
    exists accepted: seq<real>, all: seq<real> ::
      && PerSecond(accepted, bursts, AcceptedOf) && PerSecond(all, bursts, CompletedOf)
      && IsStatistics(a.accepted, accepted) && IsStatistics(a.all, all)
  }

  lemma RateIs(count: nat, elapsedNs: nat)
    requires elapsedNs > 0
    ensures Rate(count, elapsedNs) * elapsedNs as real == 1_000_000_000.0 * count as real
  {
    ScaledBack(count as real, elapsedNs as real);
  }

  lemma ScaledBack(x: real, y: real)
    requires y > 0.0
    ensures x * (1_000_000_000.0 / y) * y == 1_000_000_000.0 * x
  {
    var q := 1_000_000_000.0 / y;
    assert q * y == 1_000_000_000.0;
    assert x * q * y == x * (q * y);
  }

  lemma RatesPerSecond(group: seq<Batch>)
    requires AllTimed(group)
    ensures PerSecond(AcceptedRates(group), group, AcceptedOf) && PerSecond(CompletedRates(group), group, CompletedOf)
  {
    FlatMapSingles(AcceptedRate, group);
    FlatMapSingles(CompletedRate, group);
    forall i | 0 <= i < |group|
      ensures AcceptedRates(group)[i] * group[i].elapsedNs as real == 1_000_000_000.0 * group[i].accepted as real
      ensures CompletedRates(group)[i] * group[i].elapsedNs as real == 1_000_000_000.0 * group[i].completed as real
    {
      RateIs(group[i].accepted, group[i].elapsedNs);
      RateIs(group[i].completed, group[i].elapsedNs);
    }
  }

  lemma {:induction false} BurstsAreGroup(batches: seq<Batch>, key: Key, a: RateAggregate)
    requires forall i | 0 <= i < |batches| :: SameCell(a, batches[i]) <==> RateKey(batches[i]) == key
    ensures GroupOf(batches, RateKey, key) == Bursts(batches, a)
  {
    if batches != [] {
      var n := |batches| - 1;
      BurstsAreGroup(batches[..n], key, a);
      GroupNext(batches[..n], batches[n], RateKey, key);
      assert batches == batches[..n] + [batches[n]];
    }
  }

  lemma GroupTimed(batches: seq<Batch>, key: Key)
    requires AllTimed(batches)
    ensures AllTimed(GroupOf(batches, RateKey, key))
  {
    var group := GroupOf(batches, RateKey, key);
    forall i | 0 <= i < |group| ensures group[i].elapsedNs > 0 {
      GroupMember(batches, RateKey, key, group[i]);
      assert group[i] in group;
    }
  }

  /** The texts a rate aggregate is sorted by. */
  function RateOrder(a: RateAggregate): Key {
    [Text(a.runId), Text(Decimal(a.level)), Text(FamilyText(a.family)), Text(CompositionText(a.composition))]
  }

  ghost predicate RateFits(batches: seq<Batch>, key: Key, a: RateAggregate) {
    RateMeans(a, Bursts(batches, a)) && RateOrder(a) == key
  }

  lemma RateOfKey(batches: seq<Batch>, key: Key)
    requires AllTimed(batches) && key in KeysOf(batches, RateKey)
    ensures |RateAt(batches, key)| == 1
    ensures var a := RateAt(batches, key)[0];
            RateFits(batches, key, a)
  {
    GroupRates(batches, key);
    GroupTimed(batches, key);
    var group, a := GroupOf(batches, RateKey, key), RateAt(batches, key)[0];
    RatesPerSecond(group);
    DescribeIs(AcceptedRates(group));
    DescribeIs(CompletedRates(group));
    forall i | 0 <= i < |batches| ensures SameCell(a, batches[i]) <==> RateKey(batches[i]) == key {
      if RateKey(batches[i]) == key { RateKeyExact(batches[i], group[0]); }
    }
    BurstsAreGroup(batches, key, a);
  }

  lemma ListedRates(f: Key -> seq<RateAggregate>, keys: seq<Key>, batches: seq<Batch>)
    requires forall i | 0 <= i < |keys| :: |f(keys[i])| == 1 && RateFits(batches, keys[i], f(keys[i])[0])
    ensures |FlatMap(f, keys)| == |keys| && forall i | 0 <= i < |keys| :: RateFits(batches, keys[i], FlatMap(f, keys)[i])
  {
    FlatMapSingles(f, keys);
    forall i | 0 <= i < |keys| ensures RateFits(batches, keys[i], FlatMap(f, keys)[i]) {
      assert FlatMap(f, keys)[i] == f(keys[i])[0];
    }
  }

  lemma RatesListed(batches: seq<Batch>)
    requires AllTimed(batches)
    ensures var keys, all := SortedKeys(KeysOf(batches, RateKey)), AggregateBatchRates(batches).value;
            |all| == |keys| && forall i | 0 <= i < |keys| :: RateFits(batches, keys[i], all[i])
  {
    var keys := SortedKeys(KeysOf(batches, RateKey));
    var f := (key: Key) => RateAt(batches, key);
    forall i | 0 <= i < |keys| ensures |f(keys[i])| == 1 && RateFits(batches, keys[i], f(keys[i])[0]) {
      assert keys[i] in keys;
      RateOfKey(batches, keys[i]);
    }
    ListedRates(f, keys, batches);
    assert AggregateBatchRates(batches).value == FlatMap(f, keys);
  }

  lemma CellIsListed(batches: seq<Batch>, j: nat) returns (i: nat)
    requires AllTimed(batches) && j < |batches|
    ensures i < |AggregateBatchRates(batches).value| && SameCell(AggregateBatchRates(batches).value[i], batches[j])
  {
    RatesListed(batches);
    var keys, all := SortedKeys(KeysOf(batches, RateKey)), AggregateBatchRates(batches).value;
    assert KeysOf(batches, RateKey)[j] in KeysOf(batches, RateKey);
    i :| 0 <= i < |keys| && keys[i] == RateKey(batches[j]);
    assert RateFits(batches, keys[i], all[i]);
    CellKeyExact(all[i].runId, all[i].level, all[i].family, all[i].composition,
                 batches[j].runId, batches[j].level, batches[j].family, batches[j].composition);
  }

  /**
   Of any batches that took time: the rate aggregates come in the order of their texts, one for every cell that
   occurs, each giving the statistics of completions per second over exactly the bursts of its cell.
   */
  lemma RatesMean(batches: seq<Batch>)
    requires AllTimed(batches)
    ensures AggregateBatchRates(batches).Some?
    ensures var all := AggregateBatchRates(batches).value;
            && (forall i, j | 0 <= i < j < |all| :: KeyLess(RateOrder(all[i]), RateOrder(all[j])))
            && (forall i | 0 <= i < |all| :: RateMeans(all[i], Bursts(batches, all[i])))
            && (forall j | 0 <= j < |batches| :: exists i | 0 <= i < |all| :: SameCell(all[i], batches[j]))
  {
    RatesListed(batches);
    var keys, all := SortedKeys(KeysOf(batches, RateKey)), AggregateBatchRates(batches).value;
    forall i | 0 <= i < |all| ensures RateOrder(all[i]) == keys[i] && RateMeans(all[i], Bursts(batches, all[i])) {
      assert RateFits(batches, keys[i], all[i]);
    }
    forall j | 0 <= j < |batches| ensures exists i | 0 <= i < |all| :: SameCell(all[i], batches[j]) {
      var i := CellIsListed(batches, j);
    }
  }
}
