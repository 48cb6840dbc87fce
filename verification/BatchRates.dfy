/** Completion rates of synchronized bursts, described per run, level, workload and composition. */
module BatchRates {
  import opened Wrappers
  import opened Sequences
  import opened Ordering
  import opened DescriptiveStatistics
  import opened FixedSchedule
  import opened RunRecords
  import opened Grouping
  import opened CohortAggregation

  datatype RateAggregate = RateAggregate(
    runId: string, level: nat, family: Family, composition: Composition, accepted: Statistics, all: Statistics)

  /** Completions per second over one burst, which must have taken some time. */
  function Rate(count: nat, elapsedNs: nat): real
    requires elapsedNs > 0
  {
    count as real * (1_000_000_000.0 / elapsedNs as real)
  }

  function CellKey(runId: string, level: nat, family: Family, composition: Composition): Key {
    [Text(runId), Text(Decimal(level)), Text(FamilyText(family)), Text(CompositionText(composition))]
  }

  function RateKey(b: Batch): Key {
    CellKey(b.runId, b.level, b.family, b.composition)
  }

  predicate AllTimed(batches: seq<Batch>) {
    forall i | 0 <= i < |batches| :: batches[i].elapsedNs > 0
  }

  function AcceptedRate(b: Batch): seq<real> {
    if b.elapsedNs > 0 then [Rate(b.accepted, b.elapsedNs)] else []
  }

  function CompletedRate(b: Batch): seq<real> {
    if b.elapsedNs > 0 then [Rate(b.completed, b.elapsedNs)] else []
  }

  function AcceptedRates(group: seq<Batch>): seq<real> {
    FlatMap(AcceptedRate, group)
  }

  function CompletedRates(group: seq<Batch>): seq<real> {
    FlatMap(CompletedRate, group)
  }

  function DescribeRates(group: seq<Batch>): Option<RateAggregate> {
    if group == [] || AcceptedRates(group) == [] || CompletedRates(group) == [] then None
    else
      var b := group[0];
      Some(RateAggregate(b.runId, b.level, b.family, b.composition,
                         Describe(AcceptedRates(group)), Describe(CompletedRates(group))))
  }

  function RateAt(batches: seq<Batch>, key: Key): seq<RateAggregate> {
    var r := DescribeRates(GroupOf(batches, RateKey, key));
    if r.Some? then [r.value] else []
  }

  /** One aggregate per cell by sorted key; a burst that took no time has no rate and is refused. */
  function AggregateBatchRates(batches: seq<Batch>): Option<seq<RateAggregate>> {
    if !AllTimed(batches) then None
    else Some(FlatMap((key: Key) => RateAt(batches, key), SortedKeys(KeysOf(batches, RateKey))))
  }

  lemma CellKeyExact(runId: string, level: nat, family: Family, composition: Composition,
                     runId': string, level': nat, family': Family, composition': Composition)
    requires CellKey(runId, level, family, composition) == CellKey(runId', level', family', composition')
    ensures runId == runId' && level == level' && family == family' && composition == composition'
  {
    var k, l := CellKey(runId, level, family, composition), CellKey(runId', level', family', composition');
    assert k[0].text == l[0].text && k[1].text == l[1].text && k[2].text == l[2].text && k[3].text == l[3].text;
    DecimalInjective(level, level');
    TextsDiffer();
  }

  lemma RateKeyExact(a: Batch, b: Batch)
    requires RateKey(a) == RateKey(b)
    ensures a.runId == b.runId && a.level == b.level && a.family == b.family && a.composition == b.composition
  {
    CellKeyExact(a.runId, a.level, a.family, a.composition, b.runId, b.level, b.family, b.composition);
  }

  lemma GroupRates(batches: seq<Batch>, key: Key)
    requires AllTimed(batches) && key in KeysOf(batches, RateKey)
    ensures var group := GroupOf(batches, RateKey, key);
            && group != [] && |AcceptedRates(group)| == |CompletedRates(group)| == |group|
            && RateKey(group[0]) == key
  {
    var group := GroupOf(batches, RateKey, key);
    var i :| 0 <= i < |batches| && KeysOf(batches, RateKey)[i] == key;
    GroupMember(batches, RateKey, key, batches[i]);
    assert batches[i] in group;
    forall j | 0 <= j < |group| ensures group[j].elapsedNs > 0 && RateKey(group[j]) == key {
      GroupMember(batches, RateKey, key, group[j]);
      assert group[j] in group;
    }
    FlatMapSingles(AcceptedRate, group);
    FlatMapSingles(CompletedRate, group);
  }

  /** A group's rates are counted once per burst, and never fall outside its own extremes. */
  lemma RatesDescribed(batches: seq<Batch>, key: Key)
    requires AllTimed(batches) && key in KeysOf(batches, RateKey)
    ensures |RateAt(batches, key)| == 1
    ensures var a := RateAt(batches, key)[0];
            && a.accepted.count == a.all.count == multiset(KeysOf(batches, RateKey))[key]
            && Ordered(a.accepted) && Ordered(a.all)
  {
    GroupRates(batches, key);
    var group := GroupOf(batches, RateKey, key);
    GroupSize(batches, RateKey, key);
    DescribeOrdered(AcceptedRates(group));
    DescribeOrdered(CompletedRates(group));
  }

  lemma RatePermutation(s: seq<Batch>, t: seq<Batch>, key: Key)
    requires multiset(s) == multiset(t) && AllTimed(s) && AllTimed(t)
    requires key in KeysOf(s, RateKey) && key in KeysOf(t, RateKey)
    ensures RateAt(s, key) == RateAt(t, key)
  {
    var g, h := GroupOf(s, RateKey, key), GroupOf(t, RateKey, key);
    GroupPermutation(s, t, RateKey, key);
    GroupRates(s, key);
    GroupRates(t, key);
    RateKeyExact(g[0], h[0]);
    FlatMapPermutation(AcceptedRate, g, h);
    FlatMapPermutation(CompletedRate, g, h);
    DescribePermutation(AcceptedRates(g), AcceptedRates(h));
    DescribePermutation(CompletedRates(g), CompletedRates(h));
  }

  lemma {:induction false} SameRates(s: seq<Batch>, t: seq<Batch>, keys: seq<Key>)
    requires forall i | 0 <= i < |keys| :: RateAt(s, keys[i]) == RateAt(t, keys[i])
    ensures FlatMap((key: Key) => RateAt(s, key), keys) == FlatMap((key: Key) => RateAt(t, key), keys)
  {
    if keys != [] { SameRates(s, t, keys[..|keys| - 1]); }
  }

  /** Listing the same batches in another order gives the identical rate aggregates. */
  lemma BatchRatesPermutation(s: seq<Batch>, t: seq<Batch>)
    requires multiset(s) == multiset(t)
    ensures AggregateBatchRates(s) == AggregateBatchRates(t)
  {
    TimedPermutation(s, t);
    TimedPermutation(t, s);
    if AllTimed(s) {
      forall k ensures k in KeysOf(s, RateKey) <==> k in KeysOf(t, RateKey) {
        if k in KeysOf(s, RateKey) { KeysPermutation(s, t, RateKey, k); }
        if k in KeysOf(t, RateKey) { KeysPermutation(t, s, RateKey, k); }
      }
      var keys := SortedKeys(KeysOf(s, RateKey));
      AscendingUnique(keys, SortedKeys(KeysOf(t, RateKey)));
      forall i | 0 <= i < |keys| ensures RateAt(s, keys[i]) == RateAt(t, keys[i]) {
        assert keys[i] in keys;
        RatePermutation(s, t, keys[i]);
      }
      SameRates(s, t, keys);
    }
  }

  lemma TimedPermutation(s: seq<Batch>, t: seq<Batch>)
    requires multiset(s) == multiset(t)
    ensures AllTimed(s) ==> AllTimed(t)
  {
    if !AllTimed(s) { return; }
    forall i | 0 <= i < |t| ensures t[i].elapsedNs > 0 {
      assert t[i] in multiset(t);
      assert t[i] in multiset(s);
    }
  }
}
