/**
The independent validator of a recorded run. It numbers the recorded plans itself by
walking the schedule, reconciles the invocation and batch records with that numbering,
recomputes every batch from its invocations and checks lane ownership and run identity.
*/
module RunValidation {
  import opened Sequences
  import opened Ordering
  import opened FixedSchedule
  import opened RunRecords
  import opened Reconciliation

  datatype PlannedInvocation = PlannedInvocation(index: nat, plan: BatchPlan, lane: nat)

  datatype PlannedBatch = PlannedBatch(index: nat, plan: BatchPlan)

  datatype BatchIssue = IncompleteBatch | AcceptedCountMismatch | OutcomeCountMismatch | BatchTimingMismatch

  datatype RunIssue =
    | NonCanonicalSchedule
    | InvocationFinding(invocation: Finding<Issue>)
    | BatchFinding(batch: Finding<BatchIssue>)
    | OwnershipCountMismatch | ConnectionOwnershipViolation | ThreadOwnershipViolation(level: nat)
    | RunIdMismatch

  // ----- the validator's own numbering -----

  function Lanes(plan: BatchPlan, start: nat): (r: seq<PlannedInvocation>)
    ensures |r| == plan.cell.level
  {
    seq(plan.cell.level, lane requires 0 <= lane => PlannedInvocation(start + lane, plan, lane))
  }

  function PlannedInvocations(plans: seq<BatchPlan>): seq<PlannedInvocation> {
    if plans == [] then []
    else
      var earlier := PlannedInvocations(plans[..|plans| - 1]);
      earlier + Lanes(plans[|plans| - 1], |earlier|)
  }

  function PlannedBatches(plans: seq<BatchPlan>): (r: seq<PlannedBatch>)
    ensures |r| == |plans|
  {
    seq(|plans|, i requires 0 <= i < |plans| => PlannedBatch(i, plans[i]))
  }

  function SlotKey(cellIndex: nat, batchIndex: nat, lane: nat): Key {
    [Number(cellIndex), Number(batchIndex), Number(lane)]
  }

  function BatchKey(cellIndex: nat, batchIndex: nat): Key {
    [Number(cellIndex), Number(batchIndex)]
  }

  function PlannedKey(p: PlannedInvocation): Key { SlotKey(p.plan.cell.index, p.plan.batchIndex, p.lane) }

  function InvocationKey(r: Invocation): Key { SlotKey(r.cellIndex, r.batchIndex, r.lane) }

  function PlannedBatchKey(p: PlannedBatch): Key { BatchKey(p.plan.cell.index, p.plan.batchIndex) }

  function RecordedBatchKey(b: Batch): Key { BatchKey(b.cellIndex, b.batchIndex) }

  predicate InvocationAgrees(p: PlannedInvocation, r: Invocation) {
    && r.index == p.index
    && r.cellIndex == p.plan.cell.index && r.batchIndex == p.plan.batchIndex
    && r.lane == p.lane && r.slot == p.lane
    && r.level == p.plan.cell.level && r.family == p.plan.cell.family && r.composition == p.plan.cell.composition
  }

  predicate BatchAgrees(p: PlannedBatch, b: Batch) {
    && b.index == p.index
    && b.cellIndex == p.plan.cell.index && b.batchIndex == p.plan.batchIndex
    && b.level == p.plan.cell.level && b.family == p.plan.cell.family && b.composition == p.plan.cell.composition
  }

  // ----- a batch against its invocations -----

  predicate OfBatch(k: Key, cellIndex: nat, batchIndex: nat) {
    |k| == 3 && k[..2] == BatchKey(cellIndex, batchIndex)
  }

  function Select<O>(found: map<Key, O>, keys: seq<Key>): seq<O> {
    FlatMap((k: Key) => if k in found then [found[k]] else [], keys)
  }

  function KeysOfBatch(keys: seq<Key>, cellIndex: nat, batchIndex: nat): seq<Key> {
    FlatMap((k: Key) => if OfBatch(k, cellIndex, batchIndex) then [k] else [], keys)
  }

  /** The observed records of one batch, by sorted key. */
  function RecordsOfBatch(found: map<Key, Invocation>, sorted: seq<Key>, plan: BatchPlan): seq<Invocation> {
    Select(found, KeysOfBatch(sorted, plan.cell.index, plan.batchIndex))
  }

  function TimingOf(records: seq<Invocation>): (nat, nat, nat)
    requires records != []
  {
    (Least(Starts(records)), Greatest(Starts(records)), Greatest(Stops(records)))
  }

  function CountIssues(b: Batch, records: seq<Invocation>): seq<BatchIssue>
    requires records != []
  {
    (if b.accepted != AcceptedCount(records) then [AcceptedCountMismatch] else [])
    + (if b.typedCounts != TypedCounts(records) then [OutcomeCountMismatch] else [])
    + (if (b.firstStart, b.lastStart, b.elapsedNs) != TimingOf(records) then [BatchTimingMismatch] else [])
  }

  function BatchIssues(p: PlannedBatch, b: Batch, records: seq<Invocation>): seq<BatchIssue> {
    (if b.completed != p.plan.cell.level then [IncompleteBatch] else [])
    + (if |records| == p.plan.cell.level && records != [] then CountIssues(b, records) else [])
  }

  /** The batch record says of these invocations what they say themselves. */
  predicate Faithful(b: Batch, records: seq<Invocation>) {
    && records != []
    && b.completed == |records|
    && b.accepted == AcceptedCount(records)
    && b.typedCounts == TypedCounts(records)
    && (b.firstStart, b.lastStart, b.elapsedNs) == TimingOf(records)
  }

  lemma BatchIssuesIff(p: PlannedBatch, b: Batch, records: seq<Invocation>)
    requires |records| == p.plan.cell.level > 0
    ensures BatchIssues(p, b, records) == [] <==> Faithful(b, records)
  {
  }

  // ----- the records of a batch are its lanes in order -----

  lemma {:induction false} FilterAscending(keys: seq<Key>, cellIndex: nat, batchIndex: nat)
    requires Ascending(keys)
    ensures Ascending(KeysOfBatch(keys, cellIndex, batchIndex))
    ensures forall k :: k in KeysOfBatch(keys, cellIndex, batchIndex) <==> k in keys && OfBatch(k, cellIndex, batchIndex)
  {
    if keys != [] {
      var n := |keys| - 1;
      var rest := keys[..n];
      FilterAscending(rest, cellIndex, batchIndex);
      var selected := KeysOfBatch(rest, cellIndex, batchIndex);
      assert keys == rest + [keys[n]];
      forall i | 0 <= i < |selected| ensures KeyLess(selected[i], keys[n]) {
        assert selected[i] in selected;
        var j :| 0 <= j < n && keys[j] == selected[i];
      }
    }
  }

  function LaneKeys(plan: BatchPlan): (r: seq<Key>)
    ensures |r| == plan.cell.level
  {
    seq(plan.cell.level, lane requires 0 <= lane => SlotKey(plan.cell.index, plan.batchIndex, lane))
  }

  lemma LaneKeysAscending(plan: BatchPlan)
    ensures Ascending(LaneKeys(plan))
  {
    forall i, j | 0 <= i < j < plan.cell.level ensures KeyLess(LaneKeys(plan)[i], LaneKeys(plan)[j]) {
      SlotKeyLess(plan.cell.index, plan.batchIndex, i, j);
    }
  }

  lemma SlotKeyLess(c: nat, b: nat, i: nat, j: nat)
    requires i < j
    ensures KeyLess(SlotKey(c, b, i), SlotKey(c, b, j))
  {
    assert SlotKey(c, b, i)[1..] == [Number(b), Number(i)];
    assert SlotKey(c, b, j)[1..] == [Number(b), Number(j)];
    assert [Number(b), Number(i)][1..] == [Number(i)];
    assert [Number(b), Number(j)][1..] == [Number(j)];
    assert KeyLess([Number(i)], [Number(j)]);
    assert KeyLess([Number(b), Number(i)], [Number(b), Number(j)]);
  }

  function LaneRecords(found: map<Key, Invocation>, plan: BatchPlan): (r: seq<Invocation>)
    requires forall lane | 0 <= lane < plan.cell.level :: SlotKey(plan.cell.index, plan.batchIndex, lane) in found
    ensures |r| == plan.cell.level
  {
    seq(plan.cell.level, lane requires 0 <= lane < plan.cell.level =>
      found[SlotKey(plan.cell.index, plan.batchIndex, lane)])
  }

  lemma RecordsAreLanes(found: map<Key, Invocation>, sorted: seq<Key>, plan: BatchPlan)
    requires Ascending(sorted) && forall k :: k in sorted <==> k in found
    requires forall lane | 0 <= lane < plan.cell.level :: SlotKey(plan.cell.index, plan.batchIndex, lane) in found
    requires forall k | k in found && OfBatch(k, plan.cell.index, plan.batchIndex) :: k in LaneKeys(plan)
    ensures RecordsOfBatch(found, sorted, plan) == LaneRecords(found, plan)
  {
    FilterAscending(sorted, plan.cell.index, plan.batchIndex);
    LaneKeysAscending(plan);
    var keys := KeysOfBatch(sorted, plan.cell.index, plan.batchIndex);
    forall k | k in LaneKeys(plan) ensures k in keys {
      var lane :| 0 <= lane < plan.cell.level && LaneKeys(plan)[lane] == k;
      assert k[..2] == BatchKey(plan.cell.index, plan.batchIndex);
    }
    AscendingUnique(keys, LaneKeys(plan));
    FlatMapSingles((k: Key) => if k in found then [found[k]] else [], LaneKeys(plan));
  }

  // ----- the planned keys are distinct -----

  predicate DistinctPlans(plans: seq<BatchPlan>) {
    forall i, j | 0 <= i < j < |plans| ::
      plans[i].cell.index != plans[j].cell.index || plans[i].batchIndex != plans[j].batchIndex
  }

  function RecordedUpTo(d: Design, n: nat): seq<BatchPlan>
    requires n <= 4 * |d.order|
  {
    FlatMap((cell: Cell) => RecordedCellPlans(d, cell), CellsUpTo(d, n))
  }

  lemma RecordedNext(d: Design, k: nat)
    requires k < 4 * |d.order|
    ensures RecordedUpTo(d, k + 1) == RecordedUpTo(d, k) + RecordedCellPlans(d, CellAt(d, k))
  {
    assert CellsUpTo(d, k + 1)[..k] == CellsUpTo(d, k);
  }

  lemma {:induction false} RecordedPlansDistinct(d: Design, n: nat)
    requires Legal(d) && n <= 4 * |d.order|
    ensures DistinctPlans(RecordedUpTo(d, n))
    ensures forall i | 0 <= i < |RecordedUpTo(d, n)| ::
              RecordedUpTo(d, n)[i].cell.index < n && RecordedUpTo(d, n)[i].cell.level > 0
  {
    if n > 0 {
      RecordedPlansDistinct(d, n - 1);
      RecordedNext(d, n - 1);
      DistinctAppend(RecordedUpTo(d, n - 1), RecordedCellPlans(d, CellAt(d, n - 1)), n - 1);
    }
  }

  lemma DistinctAppend(plans: seq<BatchPlan>, more: seq<BatchPlan>, n: nat)
    requires DistinctPlans(plans) && forall i | 0 <= i < |plans| :: plans[i].cell.index < n
    requires forall i | 0 <= i < |more| :: more[i].cell.index == n && more[i].batchIndex == i
    ensures DistinctPlans(plans + more)
  {
  }

  lemma RecordedPlans(d: Design)
    requires Legal(d)
    ensures var plans := RecordedOnly(ScheduleOf(d).batches);
            DistinctPlans(plans) && forall i | 0 <= i < |plans| :: plans[i].cell.level > 0
  {
    RecordedOfPlans(d, ScheduleOf(d).cells);
    RecordedPlansDistinct(d, 4 * |d.order|);
  }

  /** Planned invocations carry their own position, and come from a plan's lanes. */
  predicate FromPlans(plans: seq<BatchPlan>, p: PlannedInvocation) {
    p.lane < p.plan.cell.level && p.plan in plans
  }

  lemma {:induction false} PlannedShape(plans: seq<BatchPlan>, i: nat)
    requires i < |PlannedInvocations(plans)|
    ensures PlannedInvocations(plans)[i].index == i
    ensures FromPlans(plans, PlannedInvocations(plans)[i])
  {
    var n := |plans| - 1;
    var earlier := PlannedInvocations(plans[..n]);
    if i < |earlier| {
      PlannedShape(plans[..n], i);
    } else {
      assert PlannedInvocations(plans)[i] == Lanes(plans[n], |earlier|)[i - |earlier|];
    }
  }

  lemma {:induction false} PlannedLane(plans: seq<BatchPlan>, j: nat, lane: nat)
    requires j < |plans| && lane < plans[j].cell.level
    ensures var i := |PlannedInvocations(plans[..j])| + lane;
            i < |PlannedInvocations(plans)| && PlannedInvocations(plans)[i] == PlannedInvocation(i, plans[j], lane)
  {
    var n := |plans| - 1;
    if j < n {
      PlannedLane(plans[..n], j, lane);
      assert plans[..n][..j] == plans[..j];
    }
  }

  lemma DifferentSlots(p: PlannedInvocation, q: PlannedInvocation)
    requires p.plan.cell.index != q.plan.cell.index || p.plan.batchIndex != q.plan.batchIndex || p.lane != q.lane
    ensures PlannedKey(p) != PlannedKey(q)
  {
    var k, l := PlannedKey(p), PlannedKey(q);
    assert k[0].number != l[0].number || k[1].number != l[1].number || k[2].number != l[2].number;
  }

  lemma {:induction false} PlannedKeysDistinct(plans: seq<BatchPlan>)
    requires DistinctPlans(plans)
    ensures DistinctBy(PlannedInvocations(plans), PlannedKey)
  {
    if plans != [] {
      var n := |plans| - 1;
      PlannedKeysDistinct(plans[..n]);
      var earlier := PlannedInvocations(plans[..n]);
      var all := PlannedInvocations(plans);
      forall i, j | 0 <= i < j < |all| ensures PlannedKey(all[i]) != PlannedKey(all[j]) {
        if |earlier| <= i {
          DifferentSlots(all[i], all[j]);
        } else if |earlier| <= j {
          PlannedShape(plans[..n], i);
          var m :| 0 <= m < n && plans[m] == all[i].plan;
          assert all[j].plan == plans[n];
          DifferentSlots(all[i], all[j]);
        }
      }
    }
  }

  lemma PlannedPins(plans: seq<BatchPlan>)
    ensures Pins(PlannedInvocations(plans), PlannedKey, InvocationKey, InvocationIndex, InvocationAgrees)
  {
    forall i | 0 <= i < |PlannedInvocations(plans)| ensures PlannedInvocations(plans)[i].index == i {
      PlannedShape(plans, i);
    }
  }

  lemma BatchKeysDistinct(plans: seq<BatchPlan>)
    requires DistinctPlans(plans)
    ensures DistinctBy(PlannedBatches(plans), PlannedBatchKey)
    ensures Pins(PlannedBatches(plans), PlannedBatchKey, RecordedBatchKey, BatchIndex, BatchAgrees)
  {
    var planned := PlannedBatches(plans);
    forall i, j | 0 <= i < j < |planned| ensures PlannedBatchKey(planned[i]) != PlannedBatchKey(planned[j]) {
      var k, l := PlannedBatchKey(planned[i]), PlannedBatchKey(planned[j]);
      assert k[0].number != l[0].number || k[1].number != l[1].number;
    }
  }

  function InvocationIndex(r: Invocation): nat { r.index }

  function BatchIndex(b: Batch): nat { b.index }

  function InspectInvocation(p: PlannedInvocation, r: Invocation): seq<Issue> { EvidenceIssues(r) }

  /** The validator's walk over the schedule, with its two running indexes. */
  method NumberPlans(batches: seq<BatchPlan>) returns (invocations: seq<PlannedInvocation>, planned: seq<PlannedBatch>)
    ensures invocations == PlannedInvocations(RecordedOnly(batches))
    ensures planned == PlannedBatches(RecordedOnly(batches))
  {
    invocations, planned := [], [];
    var nextInvocation, nextBatch := 0, 0;
    for i := 0 to |batches|
      invariant invocations == PlannedInvocations(RecordedOnly(batches[..i]))
      invariant planned == PlannedBatches(RecordedOnly(batches[..i]))
      invariant nextInvocation == |invocations| && nextBatch == |planned|
    {
      var plan := batches[i];
      assert batches[..i + 1][..i] == batches[..i];
      if plan.recorded {
        ghost var before := RecordedOnly(batches[..i]);
        assert RecordedOnly(batches[..i + 1]) == before + [plan];
        assert (before + [plan])[..|before|] == before;
        planned := planned + [PlannedBatch(nextBatch, plan)];
        var lanes := NumberLanes(plan, nextInvocation);
        invocations := invocations + lanes;
        nextInvocation := nextInvocation + |lanes|;
        nextBatch := nextBatch + 1;
      } else {
        assert RecordedOnly(batches[..i + 1]) == RecordedOnly(batches[..i]);
      }
    }
    assert batches[..|batches|] == batches;
  }

  method NumberLanes(plan: BatchPlan, start: nat) returns (lanes: seq<PlannedInvocation>)
    ensures lanes == Lanes(plan, start)
  {
    lanes := [];
    for lane := 0 to plan.cell.level
      invariant lanes == Lanes(plan, start)[..lane]
    {
      lanes := lanes + [PlannedInvocation(start + lane, plan, lane)];
    }
  }

  // ----- what the reconciliations amount to -----

  function Found(invocations: seq<Invocation>): map<Key, Invocation> {
    Dictionary(invocations, InvocationKey)
  }

  /** Every lane of the plan was observed. */
  predicate LanesFound(found: map<Key, Invocation>, plan: BatchPlan) {
    forall lane | 0 <= lane < plan.cell.level :: SlotKey(plan.cell.index, plan.batchIndex, lane) in found
  }

  ghost predicate InvocationsMatch(plans: seq<BatchPlan>, invocations: seq<Invocation>) {
    Enumerates(PlannedInvocations(plans), invocations, InvocationIndex, InvocationAgrees)
  }

  ghost predicate BatchesMatch(plans: seq<BatchPlan>, batches: seq<Batch>) {
    Enumerates(PlannedBatches(plans), batches, BatchIndex, BatchAgrees)
  }

  ghost predicate BatchesFaithful(plans: seq<BatchPlan>, invocations: seq<Invocation>, batches: seq<Batch>) {
    forall i | 0 <= i < |batches| ::
      && batches[i].index < |plans|
      && LanesFound(Found(invocations), plans[batches[i].index])
      && Faithful(batches[i], LaneRecords(Found(invocations), plans[batches[i].index]))
  }

  method CheckInvocations(invocations: seq<Invocation>, planned: seq<PlannedInvocation>, ghost plans: seq<BatchPlan>)
    returns (found: map<Key, Invocation>, issues: seq<Finding<Issue>>)
    requires planned == PlannedInvocations(plans)
    ensures found == Found(invocations)
    ensures DistinctPlans(plans) ==>
              (issues == [] <==> InvocationsMatch(plans, invocations) && Acceptable(invocations))
  {
    found, issues := Reconcile(planned, invocations, PlannedKey, InvocationKey, InvocationIndex,
                               InvocationAgrees, InspectInvocation);
    if DistinctPlans(plans) {
      InvocationsReconciled(plans, invocations);
    }
  }

  ghost predicate InvocationsReconcile(plans: seq<BatchPlan>, invocations: seq<Invocation>) {
    Reconciled(PlannedInvocations(plans), invocations, PlannedKey, InvocationKey, InvocationIndex, InvocationAgrees)
  }

  lemma InvocationsReconciled(plans: seq<BatchPlan>, invocations: seq<Invocation>)
    requires DistinctPlans(plans)
    ensures InvocationsReconcile(plans, invocations) <==> InvocationsMatch(plans, invocations)
    ensures InvocationsReconcile(plans, invocations) ==>
              ((forall k | k in Found(invocations) && k in Dictionary(PlannedInvocations(plans), PlannedKey) ::
                  InspectInvocation(Dictionary(PlannedInvocations(plans), PlannedKey)[k], Found(invocations)[k]) == [])
               <==> Acceptable(invocations))
  {
    PlannedKeysDistinct(plans);
    PlannedPins(plans);
    var planned := PlannedInvocations(plans);
    if InvocationsReconcile(plans, invocations) {
      ReconciledEnumerates(planned, invocations, PlannedKey, InvocationKey, InvocationIndex, InvocationAgrees);
      AcceptableByKey(invocations);
    }
    if InvocationsMatch(plans, invocations) {
      EnumeratesReconciled(planned, invocations, PlannedKey, InvocationKey, InvocationIndex, InvocationAgrees);
    }
  }

  lemma AcceptableByKey(invocations: seq<Invocation>)
    requires DistinctBy(invocations, InvocationKey)
    ensures (forall k | k in Found(invocations) :: EvidenceIssues(Found(invocations)[k]) == [])
            <==> Acceptable(invocations)
  {
    forall i | 0 <= i < |invocations|
      ensures InvocationKey(invocations[i]) in Found(invocations)
           && Found(invocations)[InvocationKey(invocations[i])] == invocations[i]
    {
      DictionaryEntry(invocations, InvocationKey, i);
    }
    forall k | k in Found(invocations) ensures Found(invocations)[k] in invocations {
      DictionaryKeys(invocations, InvocationKey, k);
    }
  }

  /** A complete set of invocations: every planned lane is found, and nothing else. */
  lemma FoundIsPlanned(plans: seq<BatchPlan>, invocations: seq<Invocation>, k: Key)
    requires DistinctPlans(plans) && InvocationsMatch(plans, invocations)
    ensures k in Found(invocations) <==> k in Image(PlannedKey, PlannedInvocations(plans))
  {
    InvocationsReconciled(plans, invocations);
    DictionaryKeys(PlannedInvocations(plans), PlannedKey, k);
  }

  lemma BatchRecordsAreLanes(plans: seq<BatchPlan>, invocations: seq<Invocation>, sorted: seq<Key>, j: nat)
    requires DistinctPlans(plans) && InvocationsMatch(plans, invocations)
    requires Ascending(sorted) && forall k :: k in sorted <==> k in Found(invocations)
    requires j < |plans|
    ensures LanesFound(Found(invocations), plans[j])
    ensures RecordsOfBatch(Found(invocations), sorted, plans[j]) == LaneRecords(Found(invocations), plans[j])
  {
    var plan := plans[j];
    var found := Found(invocations);
    forall lane | 0 <= lane < plan.cell.level ensures SlotKey(plan.cell.index, plan.batchIndex, lane) in found {
      PlannedLane(plans, j, lane);
      var i := |PlannedInvocations(plans[..j])| + lane;
      assert Image(PlannedKey, PlannedInvocations(plans))[i] == SlotKey(plan.cell.index, plan.batchIndex, lane);
      FoundIsPlanned(plans, invocations, SlotKey(plan.cell.index, plan.batchIndex, lane));
    }
    forall k | k in found && OfBatch(k, plan.cell.index, plan.batchIndex) ensures k in LaneKeys(plan) {
      FoundIsPlanned(plans, invocations, k);
      var i :| 0 <= i < |PlannedInvocations(plans)| && PlannedKey(PlannedInvocations(plans)[i]) == k;
      LaneOfBatch(plans, j, i, k);
    }
    RecordsAreLanes(found, sorted, plan);
  }

  lemma LaneOfBatch(plans: seq<BatchPlan>, j: nat, i: nat, k: Key)
    requires DistinctPlans(plans) && j < |plans| && i < |PlannedInvocations(plans)|
    requires k == PlannedKey(PlannedInvocations(plans)[i]) && OfBatch(k, plans[j].cell.index, plans[j].batchIndex)
    ensures k in LaneKeys(plans[j])
  {
    PlannedShape(plans, i);
    var p := PlannedInvocations(plans)[i];
    var m :| 0 <= m < |plans| && plans[m] == p.plan;
    assert k[..2][0] == k[0] && k[..2][1] == k[1];
    assert m == j;
    assert LaneKeys(plans[j])[p.lane] == k;
  }

  function InspectBatch(found: map<Key, Invocation>, sorted: seq<Key>): (PlannedBatch, Batch) -> seq<BatchIssue> {
    (p: PlannedBatch, b: Batch) => BatchIssues(p, b, RecordsOfBatch(found, sorted, p.plan))
  }

  ghost predicate BatchesReconcile(plans: seq<BatchPlan>, batches: seq<Batch>) {
    Reconciled(PlannedBatches(plans), batches, PlannedBatchKey, RecordedBatchKey, BatchIndex, BatchAgrees)
  }

  ghost predicate BatchesInspected(plans: seq<BatchPlan>, batches: seq<Batch>,
                                   inspect: (PlannedBatch, Batch) -> seq<BatchIssue>)
  {
    forall k | k in Dictionary(batches, RecordedBatchKey) && k in Dictionary(PlannedBatches(plans), PlannedBatchKey) ::
      inspect(Dictionary(PlannedBatches(plans), PlannedBatchKey)[k], Dictionary(batches, RecordedBatchKey)[k]) == []
  }

  lemma BatchesReconciled(plans: seq<BatchPlan>, batches: seq<Batch>)
    requires DistinctPlans(plans)
    ensures BatchesReconcile(plans, batches) <==> BatchesMatch(plans, batches)
  {
    BatchKeysDistinct(plans);
    if BatchesReconcile(plans, batches) {
      ReconciledEnumerates(PlannedBatches(plans), batches, PlannedBatchKey, RecordedBatchKey, BatchIndex, BatchAgrees);
    }
    if BatchesMatch(plans, batches) {
      EnumeratesReconciled(PlannedBatches(plans), batches, PlannedBatchKey, RecordedBatchKey, BatchIndex, BatchAgrees);
    }
  }

  /** Inspecting by common key is inspecting every batch record under the plan its index names. */
  lemma BatchesInspectedByIndex(plans: seq<BatchPlan>, batches: seq<Batch>, inspect: (PlannedBatch, Batch) -> seq<BatchIssue>)
    requires DistinctPlans(plans) && BatchesMatch(plans, batches)
    ensures forall i | 0 <= i < |batches| :: batches[i].index < |plans|
    ensures BatchesInspected(plans, batches, inspect) <==>
            forall i | 0 <= i < |batches| ::
              inspect(PlannedBatch(batches[i].index, plans[batches[i].index]), batches[i]) == []
  {
    BatchKeysDistinct(plans);
    InspectedByIndex(PlannedBatches(plans), batches, PlannedBatchKey, RecordedBatchKey, BatchIndex, BatchAgrees, inspect);
    forall i | 0 <= i < |batches|
      ensures BatchIndex(batches[i]) == batches[i].index < |plans|
      ensures PlannedBatches(plans)[BatchIndex(batches[i])] == PlannedBatch(batches[i].index, plans[batches[i].index])
    {
    }
  }

  lemma InspectedIsFaithful(plans: seq<BatchPlan>, invocations: seq<Invocation>, batches: seq<Batch>, sorted: seq<Key>)
    requires DistinctPlans(plans) && forall i | 0 <= i < |plans| :: plans[i].cell.level > 0
    requires InvocationsMatch(plans, invocations) && BatchesMatch(plans, batches)
    requires Ascending(sorted) && forall k :: k in sorted <==> k in Found(invocations)
    ensures BatchesInspected(plans, batches, InspectBatch(Found(invocations), sorted))
            <==> BatchesFaithful(plans, invocations, batches)
  {
    var inspect := InspectBatch(Found(invocations), sorted);
    BatchesInspectedByIndex(plans, batches, inspect);
    forall i | 0 <= i < |batches|
      ensures batches[i].index < |plans| && LanesFound(Found(invocations), plans[batches[i].index])
      ensures inspect(PlannedBatch(batches[i].index, plans[batches[i].index]), batches[i]) == []
              <==> Faithful(batches[i], LaneRecords(Found(invocations), plans[batches[i].index]))
    {
      assert BatchIndex(batches[i]) < |PlannedBatches(plans)|;
      var plan := plans[batches[i].index];
      BatchRecordsAreLanes(plans, invocations, sorted, batches[i].index);
      BatchIssuesIff(PlannedBatch(batches[i].index, plan), batches[i], LaneRecords(Found(invocations), plan));
    }
  }

  method CheckBatches(batches: seq<Batch>, planned: seq<PlannedBatch>, found: map<Key, Invocation>,
                      invocations: seq<Invocation>, ghost plans: seq<BatchPlan>)
    returns (issues: seq<Finding<BatchIssue>>)
    requires planned == PlannedBatches(plans) && found == Found(invocations)
    requires forall i | 0 <= i < |plans| :: plans[i].cell.level > 0
    ensures DistinctPlans(plans) && InvocationsMatch(plans, invocations) ==>
              (issues == [] <==> BatchesMatch(plans, batches) && BatchesFaithful(plans, invocations, batches))
  {
    var sorted := SortedKeys(Image(InvocationKey, invocations));
    forall k: Key ensures k in sorted <==> k in found { DictionaryKeys(invocations, InvocationKey, k); }
    var observed: map<Key, Batch>;
    observed, issues := Reconcile(planned, batches, PlannedBatchKey, RecordedBatchKey, BatchIndex,
                                  BatchAgrees, InspectBatch(found, sorted));
    if DistinctPlans(plans) && InvocationsMatch(plans, invocations) {
      BatchesReconciled(plans, batches);
      if BatchesMatch(plans, batches) {
        InspectedIsFaithful(plans, invocations, batches, sorted);
      }
    }
  }
}
