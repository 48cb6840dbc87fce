/**
When the writer accepts a run. On a valid run of one run id the checks on the computed
aggregates cannot fail: the rates are complete by the schedule's own counting.
*/
module CanonicalAcceptance {
  import opened Sequences
  import opened Ordering
  import opened FixedSchedule
  import opened RunRecords
  import opened RecordedExecutor
  import opened RunValidation
  import opened RunVerdict
  import opened Grouping
  import opened CohortAggregation
  import opened BatchRates
  import opened CanonicalEvidence

  // ----- the cells of a schedule differ in level, workload or composition -----

  lemma CellsDiffer(d: Design, i: nat, j: nat)
    requires Legal(d) && i < j < 4 * |d.order|
    ensures var a, b := CellAt(d, i), CellAt(d, j);
            a.level != b.level || a.family != b.family || a.composition != b.composition
  {
    if i / 4 != j / 4 {
      assert d.order[i / 4] != d.order[j / 4];
    } else if i / 2 % 2 != j / 2 % 2 {
      OtherFamily(i / 4, i / 2 % 2, j / 2 % 2);
    } else {
      SameQuarter(i, j);
      OtherComposition(i / 2 % 2, i % 2, j % 2);
    }
  }

  lemma OtherFamily(level: nat, a: nat, b: nat)
    requires a < 2 && b < 2 && a != b
    ensures FamilyAt(level, a) != FamilyAt(level, b)
  {
  }

  lemma OtherComposition(workload: nat, a: nat, b: nat)
    requires a < 2 && b < 2 && a != b
    ensures CompositionAt(workload, a) != CompositionAt(workload, b)
  {
  }

  lemma SameQuarter(i: nat, j: nat)
    requires i / 4 == j / 4 && i / 2 % 2 == j / 2 % 2 && i != j
    ensures i % 2 != j % 2
  {
  }

  function KeyAt(d: Design, runId: string, c: nat): Key
    requires c < 4 * |d.order|
  {
    var cell := CellAt(d, c);
    CellKey(runId, cell.level, cell.family, cell.composition)
  }

  lemma KeysDiffer(d: Design, runId: string, i: nat, j: nat)
    requires Legal(d) && i < 4 * |d.order| && j < 4 * |d.order| && i != j
    ensures KeyAt(d, runId, i) != KeyAt(d, runId, j)
  {
    CellsDiffer(d, if i < j then i else j, if i < j then j else i);
    if KeyAt(d, runId, i) == KeyAt(d, runId, j) {
      var a, b := CellAt(d, i), CellAt(d, j);
      CellKeyExact(runId, a.level, a.family, a.composition, runId, b.level, b.family, b.composition);
    }
  }

  // ----- each is recorded the same number of times -----

  function PlanKey(runId: string): BatchPlan -> Key {
    (p: BatchPlan) => CellKey(runId, p.cell.level, p.cell.family, p.cell.composition)
  }

  lemma {:induction false} ConstantCount<T>(s: seq<T>, x: T, k: T)
    requires forall i | 0 <= i < |s| :: s[i] == x
    ensures multiset(s)[k] == if k == x then |s| else 0
  {
    if s != [] {
      var n := |s| - 1;
      ConstantCount(s[..n], x, k);
      assert s == s[..n] + [x];
    }
  }

  lemma KeysConcat<T>(s: seq<T>, t: seq<T>, key: T -> Key)
    ensures KeysOf(s + t, key) == KeysOf(s, key) + KeysOf(t, key)
  {
  }

  lemma CellCount(d: Design, runId: string, c: nat, k: Key)
    requires c < 4 * |d.order|
    ensures multiset(KeysOf(RecordedCellPlans(d, CellAt(d, c)), PlanKey(runId)))[k]
         == if k == KeyAt(d, runId, c) then d.recorded else 0
  {
    ConstantCount(KeysOf(RecordedCellPlans(d, CellAt(d, c)), PlanKey(runId)), KeyAt(d, runId, c), k);
  }

  lemma CountNext(d: Design, runId: string, n: nat, k: Key)
    requires n < 4 * |d.order|
    ensures multiset(KeysOf(RecordedUpTo(d, n + 1), PlanKey(runId)))[k]
         == multiset(KeysOf(RecordedUpTo(d, n), PlanKey(runId)))[k] + if k == KeyAt(d, runId, n) then d.recorded else 0
  {
    RecordedNext(d, n);
    KeysConcat(RecordedUpTo(d, n), RecordedCellPlans(d, CellAt(d, n)), PlanKey(runId));
    CellCount(d, runId, n, k);
  }

  lemma {:induction false} CountUpTo(d: Design, runId: string, n: nat, c: nat)
    requires Legal(d) && n <= 4 * |d.order| && c < 4 * |d.order|
    ensures multiset(KeysOf(RecordedUpTo(d, n), PlanKey(runId)))[KeyAt(d, runId, c)] == if c < n then d.recorded else 0
  {
    if n == 0 {
      assert RecordedUpTo(d, 0) == [];
    } else {
      CountUpTo(d, runId, n - 1, c);
      CountNext(d, runId, n - 1, KeyAt(d, runId, c));
      if c != n - 1 { KeysDiffer(d, runId, c, n - 1); }
    }
  }

  /** No other key occurs. */
  lemma {:induction false} OtherKeys(d: Design, runId: string, n: nat, k: Key)
    requires n <= 4 * |d.order| && forall c | 0 <= c < n :: KeyAt(d, runId, c) != k
    ensures multiset(KeysOf(RecordedUpTo(d, n), PlanKey(runId)))[k] == 0
  {
    if n == 0 {
      assert RecordedUpTo(d, 0) == [];
    } else {
      OtherKeys(d, runId, n - 1, k);
      CountNext(d, runId, n - 1, k);
    }
  }

  // ----- so the rates of a valid run are complete -----

  function CellKeys(d: Design, runId: string): (r: seq<Key>)
    ensures |r| == 4 * |d.order| && forall c | 0 <= c < |r| :: r[c] == KeyAt(d, runId, c)
  {
    seq(4 * |d.order|, c requires 0 <= c < 4 * |d.order| => KeyAt(d, runId, c))
  }

  /** The batches' keys are those of the schedule's cells, each as often as a cell is recorded. */
  ghost predicate KeysPlanned(d: Design, runId: string, keys: seq<Key>) {
    forall k :: multiset(keys)[k] == if k in CellKeys(d, runId) then d.recorded else 0
  }

  lemma PlanKeysPlanned(d: Design, runId: string)
    requires Legal(d)
    ensures KeysPlanned(d, runId, KeysOf(RecordedUpTo(d, 4 * |d.order|), PlanKey(runId)))
  {
    var keys := KeysOf(RecordedUpTo(d, 4 * |d.order|), PlanKey(runId));
    forall k ensures multiset(keys)[k] == if k in CellKeys(d, runId) then d.recorded else 0 {
      if k in CellKeys(d, runId) {
        var c :| 0 <= c < 4 * |d.order| && CellKeys(d, runId)[c] == k;
        CountUpTo(d, runId, 4 * |d.order|, c);
      } else {
        forall c | 0 <= c < 4 * |d.order| ensures KeyAt(d, runId, c) != k {
          assert CellKeys(d, runId)[c] in CellKeys(d, runId);
        }
        OtherKeys(d, runId, 4 * |d.order|, k);
      }
    }
  }

  lemma OrderedBatchKeys(plans: seq<BatchPlan>, runId: string, batches: seq<Batch>)
    requires |batches| == |plans|
    requires forall i | 0 <= i < |batches| :: BatchAgrees(PlannedBatch(i, plans[i]), batches[i]) && batches[i].runId == runId
    ensures KeysOf(batches, RateKey) == KeysOf(plans, PlanKey(runId))
  {
  }

  lemma BatchesAgreeInOrder(d: Design, run: Execution, i: nat)
    requires Legal(d) && ValidRun(d, ScheduleOf(d), run) && i < |Arranged(run).batches|
    ensures var plans := RecordedOnly(ScheduleOf(d).batches);
            |Arranged(run).batches| == |plans| && BatchAgrees(PlannedBatch(i, plans[i]), Arranged(run).batches[i])
  {
    var plans := RecordedOnly(ScheduleOf(d).batches);
    ArrangedInOrder(d, run);
    EnumeratesRearranged(PlannedBatches(plans), run.batches, Arranged(run).batches, BatchIndex, BatchAgrees);
    assert BatchIndex(Arranged(run).batches[i]) == i;
  }

  lemma ArrangedKeysPlanned(d: Design, m: Manifest, run: Execution)
    requires Legal(d) && ValidRun(d, ScheduleOf(d), run) && AllPublishable(m, run)
    ensures KeysPlanned(d, m.runId, KeysOf(Arranged(run).batches, RateKey))
  {
    var plans, t := RecordedOnly(ScheduleOf(d).batches), Arranged(run).batches;
    PublishableRearranged(m, run, Arranged(run));
    ArrangedInOrder(d, run);
    forall i | 0 <= i < |t| ensures BatchAgrees(PlannedBatch(i, plans[i]), t[i]) && t[i].runId == m.runId {
      BatchesAgreeInOrder(d, run, i);
    }
    OrderedBatchKeys(plans, m.runId, t);
    RecordedOfPlans(d, ScheduleOf(d).cells);
    PlanKeysPlanned(d, m.runId);
  }

  lemma PlannedKeyCount(d: Design, runId: string, keys: seq<Key>)
    requires Legal(d) && d.recorded > 0 && KeysPlanned(d, runId, keys)
    ensures |SortedKeys(keys)| == 4 * |d.order|
  {
    var sorted, cells := SortedKeys(keys), CellKeys(d, runId);
    forall k ensures k in sorted <==> k in cells {
      assert k in keys <==> k in multiset(keys);
    }
    AscendingDistinct(sorted);
    forall i, j | 0 <= i < j < |cells| ensures cells[i] != cells[j] { KeysDiffer(d, runId, i, j); }
    ToSetSize(sorted);
    ToSetSize(cells);
    assert ToSet(sorted) == ToSet(cells);
  }

  lemma RateComplete(d: Design, m: Manifest, batches: seq<Batch>, key: Key)
    requires AllTimed(batches) && key in KeysOf(batches, RateKey) && KeysPlanned(d, m.runId, KeysOf(batches, RateKey))
    requires forall i | 0 <= i < |batches| :: batches[i].runId == m.runId
    ensures |RateAt(batches, key)| == 1
    ensures var a := RateAt(batches, key)[0]; a.runId == m.runId && a.accepted.count == a.all.count == d.recorded
  {
    RatesDescribed(batches, key);
    GroupRates(batches, key);
    var group := GroupOf(batches, RateKey, key);
    GroupMember(batches, RateKey, key, group[0]);
    assert group[0] in group;
    assert key in multiset(KeysOf(batches, RateKey));
  }

  ghost predicate OneCompleteRate(d: Design, m: Manifest, rates: seq<RateAggregate>) {
    |rates| == 1 && rates[0].runId == m.runId && rates[0].accepted.count == rates[0].all.count == d.recorded
  }

  lemma RatesFrom(d: Design, m: Manifest, f: Key -> seq<RateAggregate>, keys: seq<Key>)
    requires |keys| == 4 * |d.order| && forall i | 0 <= i < |keys| :: OneCompleteRate(d, m, f(keys[i]))
    ensures RatesComplete(d, m, FlatMap(f, keys))
  {
    FlatMapSingles(f, keys);
    forall i | 0 <= i < |keys| ensures FlatMap(f, keys)[i] == f(keys[i])[0] && OneCompleteRate(d, m, f(keys[i])) {
    }
  }

  lemma RatesAreComplete(d: Design, m: Manifest, batches: seq<Batch>)
    requires Legal(d) && d.recorded > 0 && AllTimed(batches)
    requires KeysPlanned(d, m.runId, KeysOf(batches, RateKey))
    requires forall i | 0 <= i < |batches| :: batches[i].runId == m.runId
    ensures RatesComplete(d, m, AggregateBatchRates(batches).value)
  {
    var keys := SortedKeys(KeysOf(batches, RateKey));
    var f := (key: Key) => RateAt(batches, key);
    forall i | 0 <= i < |keys| ensures OneCompleteRate(d, m, f(keys[i])) {
      assert keys[i] in keys;
      RateComplete(d, m, batches, keys[i]);
    }
    PlannedKeyCount(d, m.runId, KeysOf(batches, RateKey));
    RatesFrom(d, m, f, keys);
    assert AggregateBatchRates(batches).value == FlatMap(f, keys);
  }

  // ----- and the aggregates carry its run id -----

  lemma AggregatesCarryRunId(m: Manifest, records: seq<Invocation>)
    requires Acceptable(records) && forall i | 0 <= i < |records| :: records[i].runId == m.runId
    ensures AggregateInvocations(records).Some? && AggregatesOfRun(m, AggregateInvocations(records).value)
  {
    AggregatesByCohort(records);
    var keys := SortedCohorts(records);
    forall i | 0 <= i < |keys| ensures AggregateKey(records, keys[i]).runId == m.runId {
      GroupShape(records, keys[i]);
      assert Group(records, keys[i])[0] in records;
    }
  }

  lemma RecordsSomething(d: Design, run: Execution)
    requires Legal(d) && ValidRun(d, ScheduleOf(d), run)
    ensures d.recorded > 0
  {
    SomethingRecorded(d, run);
    if d.recorded == 0 {
      RecordedOfPlans(d, ScheduleOf(d).cells);
      FlatMapNone((cell: Cell) => RecordedCellPlans(d, cell), ScheduleOf(d).cells);
    }
  }

  lemma ValidRatesComplete(d: Design, m: Manifest, run: Execution)
    requires Legal(d) && ValidRun(d, ScheduleOf(d), run) && AllPublishable(m, run) && AllTimed(run.batches)
    ensures AggregateBatchRates(run.batches).Some? && RatesComplete(d, m, AggregateBatchRates(run.batches).value)
  {
    RecordsSomething(d, run);
    ArrangedKeysPlanned(d, m, run);
    BatchRatesPermutation(run.batches, Arranged(run).batches);
    TimedPermutation(run.batches, Arranged(run).batches);
    PublishableRearranged(m, run, Arranged(run));
    RatesAreComplete(d, m, Arranged(run).batches);
  }

  lemma CanonicalWhen(d: Design, m: Manifest, run: Execution)
    requires ValidRun(d, ScheduleOf(d), run) && AllPublishable(m, run)
    requires AggregateBatchRates(run.batches).Some? && RatesComplete(d, m, AggregateBatchRates(run.batches).value)
    requires AggregateInvocations(run.invocations).Some? && AggregatesOfRun(m, AggregateInvocations(run.invocations).value)
    ensures ValidateCanonical(d, m, run).Some?
  {
  }

  lemma ValidIsAcceptable(d: Design, run: Execution)
    requires ValidRun(d, ScheduleOf(d), run)
    ensures Acceptable(run.invocations)
  {
  }

  lemma PublishableRunId(m: Manifest, run: Execution)
    requires AllPublishable(m, run)
    ensures forall i | 0 <= i < |run.invocations| :: run.invocations[i].runId == m.runId
  {
  }

  lemma ValidAggregatesOfRun(d: Design, m: Manifest, run: Execution)
    requires ValidRun(d, ScheduleOf(d), run) && AllPublishable(m, run)
    ensures AggregateInvocations(run.invocations).Some? && AggregatesOfRun(m, AggregateInvocations(run.invocations).value)
  {
    ValidIsAcceptable(d, run);
    PublishableRunId(m, run);
    AggregatesCarryRunId(m, run.invocations);
  }

  lemma CanonicalNeeds(d: Design, m: Manifest, run: Execution)
    requires ValidateCanonical(d, m, run).Some?
    ensures ValidRun(d, ScheduleOf(d), run) && AllPublishable(m, run) && AllTimed(run.batches)
  {
  }

  lemma CanonicalSuffices(d: Design, m: Manifest, run: Execution)
    requires Legal(d) && ValidRun(d, ScheduleOf(d), run) && AllPublishable(m, run) && AllTimed(run.batches)
    ensures ValidateCanonical(d, m, run).Some?
  {
    ValidRatesComplete(d, m, run);
    ValidAggregatesOfRun(d, m, run);
    CanonicalWhen(d, m, run);
  }

  /**
   The writer accepts a run exactly when it is valid, its records are publishable under the manifest's
   run id, and every recorded batch took some time; its other checks never decide.
   */
  lemma CanonicalIff(d: Design, m: Manifest, run: Execution)
    requires Legal(d)
    ensures ValidateCanonical(d, m, run).Some? <==>
            ValidRun(d, ScheduleOf(d), run) && AllPublishable(m, run) && AllTimed(run.batches)
  {
    if ValidateCanonical(d, m, run).Some? {
      CanonicalNeeds(d, m, run);
    } else if ValidRun(d, ScheduleOf(d), run) && AllPublishable(m, run) && AllTimed(run.batches) {
      CanonicalSuffices(d, m, run);
    }
  }
}
