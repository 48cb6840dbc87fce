/**
The smoke executor: one burst per cell, level by level, stopping after the first invalid
cell. Opening and closing a level, and every burst, may fail in any way.
*/
module SmokeRun {
  import opened Wrappers
  import opened Sequences
  import opened FixedSchedule
  import opened InvocationIdentities
  import opened RunRecords
  import opened RecordedExecutor
  import opened RunValidation
  import opened RunVerdict
  import opened RunMeaning

  /** A level's runtime cannot be opened, or opens reporting a worker level. */
  datatype Opening = Refused | Opened(level: nat)

  datatype SmokeWorld = SmokeWorld(base: World, open: nat -> Opening, closes: nat -> bool)

  datatype SmokeInvocation = SmokeInvocation(cellIndex: nat, spec: Spec, record: Invocation)

  datatype SmokeIssue =
    | RuntimeLevelMismatch | SharedThread | LevelRuntimeFailure | BatchExecutionFailure
    | InvocationAccounting | LaneAccounting | InvocationPlanMismatch | InvocationEvidence(issue: Issue)
    | RequestIdentity | OrderIdentity | UncontendedCohort
    | BatchPlanMismatch | BatchContent(batch: BatchIssue)

  datatype SmokeStatus = StructurallyValid | InvalidSmoke

  datatype SmokeResult = SmokeResult(
    status: SmokeStatus, invocations: seq<SmokeInvocation>, batches: seq<Batch>,
    ownership: seq<Ownership>, levels: seq<nat>, issues: seq<SmokeIssue>, failedCell: Option<nat>)

  function SmokePlan(cell: Cell): BatchPlan {
    BatchPlan(cell.index, cell, 0, true, if cell.level == 0 then 0 else cell.index % cell.level)
  }

  // ----- one cell -----

  function Records(items: seq<SmokeInvocation>): (r: seq<Invocation>)
    ensures |r| == |items|
  {
    seq(|items|, i requires 0 <= i < |items| => items[i].record)
  }

  function SpecsOf(items: seq<SmokeInvocation>): (r: seq<Spec>)
    ensures |r| == |items|
  {
    seq(|items|, i requires 0 <= i < |items| => items[i].spec)
  }

  function LanesOf(items: seq<SmokeInvocation>): (r: seq<nat>)
    ensures |r| == |items|
  {
    seq(|items|, i requires 0 <= i < |items| => items[i].record.lane)
  }

  predicate SmokeAgrees(plan: BatchPlan, r: Invocation) {
    && r.cellIndex == plan.cell.index && r.batchIndex == plan.batchIndex && r.slot == r.lane
    && r.level == plan.cell.level && r.family == plan.cell.family && r.composition == plan.cell.composition
  }

  function WrapIssues(issues: seq<Issue>): (r: seq<SmokeIssue>)
    ensures |r| == |issues|
  {
    seq(|issues|, i requires 0 <= i < |issues| => InvocationEvidence(issues[i]))
  }

  function InvocationIssues(plan: BatchPlan, item: SmokeInvocation): seq<SmokeIssue> {
    (if !SmokeAgrees(plan, item.record) then [InvocationPlanMismatch] else []) + WrapIssues(EvidenceIssues(item.record))
  }

  function IdentityIssues(plan: BatchPlan, specs: seq<Spec>): seq<SmokeIssue> {
    (if |ToSet(RequestIds(specs))| != plan.cell.level then [RequestIdentity] else [])
    + (if |ToSet(OrderIds(specs))| != (if plan.cell.family == SameOrder then 1 else plan.cell.level) then [OrderIdentity] else [])
  }

  function ContentIssues(issues: seq<BatchIssue>): (r: seq<SmokeIssue>)
    ensures |r| == |issues|
  {
    seq(|issues|, i requires 0 <= i < |issues| => BatchContent(issues[i]))
  }

  predicate AllAccepted(records: seq<Invocation>) {
    forall i | 0 <= i < |records| :: IsAccepted(records[i])
  }

  function BatchFindings(plan: BatchPlan, records: seq<Invocation>, batch: Batch): seq<SmokeIssue> {
    (if !BatchAgrees(PlannedBatch(batch.index, plan), batch) then [BatchPlanMismatch] else [])
    + ContentIssues(BatchIssues(PlannedBatch(batch.index, plan), batch, records))
  }

  /** Everything checked of a completed cell before a later one may run. */
  function CellIssues(plan: BatchPlan, items: seq<SmokeInvocation>, batch: Batch): seq<SmokeIssue> {
    (if |items| != plan.cell.level then [InvocationAccounting] else [])
    + (if LanesOf(items) != seq(plan.cell.level, i => i) then [LaneAccounting] else [])
    + FlatMap((item: SmokeInvocation) => InvocationIssues(plan, item), items)
    + IdentityIssues(plan, SpecsOf(items))
    + (if plan.cell.level == 1 && !AllAccepted(Records(items)) then [UncontendedCohort] else [])
    + BatchFindings(plan, Records(items), batch)
  }

  function Wrapped(cellIndex: nat, specs: seq<Spec>, records: seq<Invocation>): (r: seq<SmokeInvocation>)
    requires |specs| == |records|
    ensures |r| == |records|
  {
    seq(|records|, i requires 0 <= i < |records| => SmokeInvocation(cellIndex, specs[i], records[i]))
  }

  /** The cell's burst comes back with sound evidence, and without contention everything is accepted. */
  predicate CellGood(runId: string, w: World, plan: BatchPlan) {
    && Runs(w, plan)
    && var records := RecordsFor(runId, w, plan, 0);
       Acceptable(records) && (plan.cell.level == 1 ==> AllAccepted(records))
  }

  lemma SameEvidence(runId: string, w: World, plan: BatchPlan, start: nat, i: nat)
    requires Runs(w, plan) && i < plan.cell.level
    ensures RecordsFor(runId, w, plan, start)[i].evidence == RecordsFor(runId, w, plan, 0)[i].evidence
    ensures EvidenceIssues(RecordsFor(runId, w, plan, start)[i]) == EvidenceIssues(RecordsFor(runId, w, plan, 0)[i])
  {
  }

  lemma SameVerdict(runId: string, w: World, plan: BatchPlan, start: nat)
    requires Runs(w, plan)
    ensures Acceptable(RecordsFor(runId, w, plan, start)) <==> Acceptable(RecordsFor(runId, w, plan, 0))
    ensures AllAccepted(RecordsFor(runId, w, plan, start)) <==> AllAccepted(RecordsFor(runId, w, plan, 0))
  {
    forall i | 0 <= i < plan.cell.level
      ensures RecordsFor(runId, w, plan, start)[i].evidence == RecordsFor(runId, w, plan, 0)[i].evidence
      ensures EvidenceIssues(RecordsFor(runId, w, plan, start)[i]) == EvidenceIssues(RecordsFor(runId, w, plan, 0)[i])
    {
      SameEvidence(runId, w, plan, start, i);
    }
  }

  lemma {:induction false} EvidenceOnly(plan: BatchPlan, items: seq<SmokeInvocation>)
    requires forall i | 0 <= i < |items| :: SmokeAgrees(plan, items[i].record)
    ensures FlatMap((item: SmokeInvocation) => InvocationIssues(plan, item), items) == [] <==> Acceptable(Records(items))
  {
    var f := (item: SmokeInvocation) => InvocationIssues(plan, item);
    forall i | 0 <= i < |items| ensures f(items[i]) == [] <==> EvidenceIssues(Records(items)[i]) == [] {
      assert |f(items[i])| == |EvidenceIssues(items[i].record)|;
    }
    if Acceptable(Records(items)) {
      FlatMapNone(f, items);
    } else {
      var i :| 0 <= i < |items| && EvidenceIssues(Records(items)[i]) != [];
      FlatMapMember(f, items, f(items[i])[0]);
    }
  }

  lemma ExecutedAgrees(runId: string, w: World, plan: BatchPlan, start: nat, specs: seq<Spec>)
    requires Runs(w, plan) && |specs| == plan.cell.level
    ensures var items := Wrapped(plan.cell.index, specs, RecordsFor(runId, w, plan, start));
            && Records(items) == RecordsFor(runId, w, plan, start) && SpecsOf(items) == specs
            && LanesOf(items) == seq(plan.cell.level, i => i)
            && forall i | 0 <= i < |items| :: SmokeAgrees(plan, items[i].record)
  {
  }

  function ItemsOf(runId: string, w: World, plan: BatchPlan, start: nat): seq<SmokeInvocation>
    requires plan.cell.level > 0 && Runs(w, plan)
  {
    Wrapped(plan.cell.index, Specs(runId, plan), RecordsFor(runId, w, plan, start))
  }

  function BatchFor(runId: string, w: World, plan: BatchPlan, start: nat, index: nat): Batch
    requires plan.cell.level > 0 && Runs(w, plan)
  {
    BuildBatch(runId, index, plan, w.behave(plan).value.referenceNs, RecordsFor(runId, w, plan, start))
  }

  /** Of a cell the executor ran itself, only evidence can be found wrong. */
  lemma CellIssuesIff(runId: string, w: World, plan: BatchPlan, start: nat, index: nat)
    requires Runs(w, plan) && plan.rotation < plan.cell.level
    ensures var records := RecordsFor(runId, w, plan, start);
            var batch := BuildBatch(runId, index, plan, w.behave(plan).value.referenceNs, records);
            CellIssues(plan, ItemsOf(runId, w, plan, start), batch) == [] <==>
            CellGood(runId, w, plan)
  {
    var records := RecordsFor(runId, w, plan, start);
    var batch := BuildBatch(runId, index, plan, w.behave(plan).value.referenceNs, records);
    var items := ItemsOf(runId, w, plan, start);
    ExecutedAgrees(runId, w, plan, start, Specs(runId, plan));
    IdentitiesOfBurst(runId, plan);
    EvidenceOnly(plan, items);
    BuiltBatchAgrees(runId, index, plan, w.behave(plan).value.referenceNs, records);
    SameVerdict(runId, w, plan, start);
  }

  /** What may be found of an executed cell: evidence of one of its lanes, or contention where there is none. */
  predicate Findable(x: SmokeIssue, plan: BatchPlan, records: seq<Invocation>) {
    || (x.UncontendedCohort? && plan.cell.level == 1 && !AllAccepted(records))
    || (x.InvocationEvidence? && exists i | 0 <= i < |records| :: x.issue in EvidenceIssues(records[i]))
  }

  lemma {:induction false} WrappedIssue(x: SmokeIssue, issues: seq<Issue>)
    ensures x in WrapIssues(issues) <==> x.InvocationEvidence? && x.issue in issues
  {
    if x in WrapIssues(issues) { var i :| 0 <= i < |issues| && WrapIssues(issues)[i] == x; }
    if x.InvocationEvidence? && x.issue in issues {
      var i :| 0 <= i < |issues| && issues[i] == x.issue;
      assert WrapIssues(issues)[i] == x;
    }
  }

  lemma {:induction false} EvidenceFound(plan: BatchPlan, items: seq<SmokeInvocation>, x: SmokeIssue)
    requires forall i | 0 <= i < |items| :: SmokeAgrees(plan, items[i].record)
    ensures x in FlatMap((item: SmokeInvocation) => InvocationIssues(plan, item), items) <==>
            x.InvocationEvidence? && exists i | 0 <= i < |items| :: x.issue in EvidenceIssues(Records(items)[i])
  {
    var f := (item: SmokeInvocation) => InvocationIssues(plan, item);
    FlatMapMember(f, items, x);
    forall i | 0 <= i < |items|
      ensures x in f(items[i]) <==> x.InvocationEvidence? && x.issue in EvidenceIssues(Records(items)[i])
    {
      WrappedIssue(x, EvidenceIssues(items[i].record));
      assert f(items[i]) == WrapIssues(EvidenceIssues(items[i].record));
    }
  }

  lemma {:induction false} OnlyEvidence(plan: BatchPlan, items: seq<SmokeInvocation>, batch: Batch, x: SmokeIssue)
    requires |items| == plan.cell.level && LanesOf(items) == seq(plan.cell.level, i => i)
    requires IdentityIssues(plan, SpecsOf(items)) == [] && BatchFindings(plan, Records(items), batch) == []
    ensures x in CellIssues(plan, items, batch) <==>
            || x in FlatMap((item: SmokeInvocation) => InvocationIssues(plan, item), items)
            || (x == UncontendedCohort && plan.cell.level == 1 && !AllAccepted(Records(items)))
  {
  }

  /** Exactly that is found, and nothing else. */
  lemma {:induction false} CellIssuesAre(runId: string, w: World, plan: BatchPlan, start: nat, index: nat, x: SmokeIssue)
    requires Runs(w, plan) && plan.rotation < plan.cell.level
    ensures var records := RecordsFor(runId, w, plan, start);
            x in CellIssues(plan, ItemsOf(runId, w, plan, start), BatchFor(runId, w, plan, start, index)) <==>
            Findable(x, plan, records)
  {
    var items := ItemsOf(runId, w, plan, start);
    ExecutedAgrees(runId, w, plan, start, Specs(runId, plan));
    IdentitiesOfBurst(runId, plan);
    EvidenceFound(plan, items, x);
    BuiltBatchAgrees(runId, index, plan, w.behave(plan).value.referenceNs, Records(items));
    OnlyEvidence(plan, items, BatchFor(runId, w, plan, start, index), x);
  }

  lemma BuiltBatchAgrees(runId: string, index: nat, plan: BatchPlan, referenceNs: nat, records: seq<Invocation>)
    requires |records| == plan.cell.level > 0
    ensures BatchFindings(plan, records, BuildBatch(runId, index, plan, referenceNs, records)) == []
  {
    var batch := BuildBatch(runId, index, plan, referenceNs, records);
    BatchIssuesIff(PlannedBatch(index, plan), batch, records);
  }

  // ----- progress over cells -----

  function LevelOfCell(d: Design, k: nat): nat
    requires k < 4 * |d.order|
  {
    d.order[k / 4]
  }

  function Planned(d: Design, k: nat): nat
    requires k <= 4 * |d.order|
  {
    if k == 0 then 0 else Planned(d, k - 1) + LevelOfCell(d, k - 1)
  }

  function CellPlanAt(d: Design, k: nat): BatchPlan
    requires k < 4 * |d.order|
  {
    SmokePlan(CellAt(d, k))
  }

  predicate CellsGood(runId: string, w: SmokeWorld, d: Design, from: nat, to: nat)
    requires to <= 4 * |d.order|
  {
    forall k | from <= k < to :: CellGood(runId, w.base, CellPlanAt(d, k))
  }

  // ----- what the cells leave -----

  /** Cell j ran, and its invocations and its batch are where the cells before it end. */
  predicate KeepsCell(runId: string, w: World, d: Design, j: nat, invocations: seq<SmokeInvocation>, batch: Batch)
    requires Legal(d) && j < 4 * |d.order|
  {
    SmokePlanShape(d, j);
    var plan, start := CellPlanAt(d, j), Planned(d, j);
    && Runs(w, plan) && start + plan.cell.level <= |invocations|
    && invocations[start..start + plan.cell.level] == ItemsOf(runId, w, plan, start)
    && batch == BatchFor(runId, w, plan, start, j)
  }

  /** Exactly what the first k cells leave. */
  predicate HasKept(runId: string, w: World, d: Design, k: nat, invocations: seq<SmokeInvocation>, batches: seq<Batch>)
    requires Legal(d)
  {
    && k <= 4 * |d.order| && |batches| == k && |invocations| == Planned(d, k)
    && forall j | 0 <= j < k :: KeepsCell(runId, w, d, j, invocations, batches[j])
  }

  /** The cells that leave something when cell k is the last one tried. */
  function KeptWith(w: World, d: Design, k: nat): nat
    requires k < 4 * |d.order|
  {
    if Runs(w, CellPlanAt(d, k)) then k + 1 else k
  }

  /** What is found wrong with cell k. */
  function CellVerdict(runId: string, w: World, d: Design, k: nat): seq<SmokeIssue>
    requires Legal(d) && k < 4 * |d.order|
  {
    SmokePlanShape(d, k);
    var plan := CellPlanAt(d, k);
    if !Runs(w, plan) then [BatchExecutionFailure]
    else CellIssues(plan, ItemsOf(runId, w, plan, Planned(d, k)), BatchFor(runId, w, plan, Planned(d, k), k))
  }

  lemma KeepsMore(runId: string, w: World, d: Design, j: nat, invocations: seq<SmokeInvocation>, batch: Batch,
                  items: seq<SmokeInvocation>)
    requires Legal(d) && j < 4 * |d.order| && KeepsCell(runId, w, d, j, invocations, batch)
    ensures KeepsCell(runId, w, d, j, invocations + items, batch)
  {
    var start, end := Planned(d, j), Planned(d, j) + CellPlanAt(d, j).cell.level;
    assert (invocations + items)[start..end] == invocations[start..end];
  }

  lemma KeepsNew(runId: string, w: World, d: Design, k: nat, invocations: seq<SmokeInvocation>)
    requires Legal(d) && k < 4 * |d.order| && |invocations| == Planned(d, k) && Runs(w, CellPlanAt(d, k))
    ensures CellPlanAt(d, k).cell.level > 0
    ensures KeepsCell(runId, w, d, k, invocations + ItemsOf(runId, w, CellPlanAt(d, k), Planned(d, k)),
                      BatchFor(runId, w, CellPlanAt(d, k), Planned(d, k), k))
  {
    SmokePlanShape(d, k);
    var items := ItemsOf(runId, w, CellPlanAt(d, k), Planned(d, k));
    assert (invocations + items)[Planned(d, k)..Planned(d, k) + |items|] == items;
  }

  lemma KeptNext(runId: string, w: World, d: Design, k: nat, invocations: seq<SmokeInvocation>, batches: seq<Batch>)
    requires Legal(d) && k < 4 * |d.order| && HasKept(runId, w, d, k, invocations, batches) && Runs(w, CellPlanAt(d, k))
    ensures CellPlanAt(d, k).cell.level > 0
    ensures HasKept(runId, w, d, k + 1, invocations + ItemsOf(runId, w, CellPlanAt(d, k), Planned(d, k)),
                    batches + [BatchFor(runId, w, CellPlanAt(d, k), Planned(d, k), k)])
  {
    SmokePlanShape(d, k);
    var items := ItemsOf(runId, w, CellPlanAt(d, k), Planned(d, k));
    var all := batches + [BatchFor(runId, w, CellPlanAt(d, k), Planned(d, k), k)];
    forall j | 0 <= j < k + 1 ensures KeepsCell(runId, w, d, j, invocations + items, all[j]) {
      if j < k { KeepsMore(runId, w, d, j, invocations, batches[j], items); }
      else { KeepsNew(runId, w, d, k, invocations); }
    }
  }

  /** The invocation of one lane of one cell: its own specification and what that lane delivered. */
  ghost predicate KeepsLane(item: SmokeInvocation, runId: string, w: World, d: Design, k: nat, lane: nat)
    requires k < 4 * |d.order|
  {
    var plan := CellPlanAt(d, k);
    && Runs(w, plan) && lane < plan.cell.level
    && item.cellIndex == k && item.spec == SpecAt(runId, plan, lane)
    && item.record.index == Planned(d, k) + lane
    && OfPlan(item.record, plan, lane) && OfCell(item.record.level, item.record.family, item.record.composition, d, k)
    && Carries(item.record, w.behave(plan).value.observations[lane], w.behave(plan).value.referenceNs)
  }

  lemma ItemKeeps(runId: string, w: World, d: Design, k: nat, lane: nat)
    requires Legal(d) && k < 4 * |d.order| && Runs(w, CellPlanAt(d, k)) && lane < LevelOfCell(d, k)
    ensures CellPlanAt(d, k).cell.level == LevelOfCell(d, k) > 0
    ensures KeepsLane(ItemsOf(runId, w, CellPlanAt(d, k), Planned(d, k))[lane], runId, w, d, k, lane)
  {
    SmokePlanShape(d, k);
    RecordCarries(runId, w, CellPlanAt(d, k), Planned(d, k), lane);
    CellIs(d, k);

  }

  /** Every lane of every cell that ran is kept, at the position its cell and lane give it. */
  lemma KeptAt(runId: string, w: World, d: Design, k: nat, invocations: seq<SmokeInvocation>, batches: seq<Batch>,
               j: nat, lane: nat)
    requires Legal(d) && HasKept(runId, w, d, k, invocations, batches) && j < k && lane < LevelOfCell(d, j)
    ensures Planned(d, j) + lane < |invocations|
    ensures KeepsLane(invocations[Planned(d, j) + lane], runId, w, d, j, lane)
  {
    assert KeepsCell(runId, w, d, j, invocations, batches[j]);
    CellKeepsLane(runId, w, d, j, invocations, batches[j], lane);
  }

  lemma CellKeepsLane(runId: string, w: World, d: Design, j: nat, invocations: seq<SmokeInvocation>, batch: Batch, lane: nat)
    requires Legal(d) && j < 4 * |d.order| && KeepsCell(runId, w, d, j, invocations, batch) && lane < LevelOfCell(d, j)
    ensures Planned(d, j) + lane < |invocations|
    ensures KeepsLane(invocations[Planned(d, j) + lane], runId, w, d, j, lane)
  {
    ItemKeeps(runId, w, d, j, lane);
    var start, end := Planned(d, j), Planned(d, j) + LevelOfCell(d, j);
    assert invocations[start..end][lane] == invocations[start + lane];
  }

  /** And every invocation kept is one of these. */
  lemma {:induction false} PlaceOfKept(d: Design, k: nat, i: nat) returns (j: nat, lane: nat)
    requires k <= 4 * |d.order| && i < Planned(d, k)
    ensures j < k && lane < LevelOfCell(d, j) && i == Planned(d, j) + lane
  {
    if i < Planned(d, k - 1) {
      j, lane := PlaceOfKept(d, k - 1, i);
    } else {
      j, lane := k - 1, i - Planned(d, k - 1);
    }
  }

  lemma SmokePlanShape(d: Design, k: nat)
    requires Legal(d) && k < 4 * |d.order|
    ensures CellPlanAt(d, k).cell.level == LevelOfCell(d, k) > 0
    ensures CellPlanAt(d, k).rotation < CellPlanAt(d, k).cell.level && CellPlanAt(d, k).cell.index == k
  {
  }

  /** One cell: prepare, run, wrap and check. */
  method RunCell(runId: string, w: World, d: Design, k: nat, invocations0: seq<SmokeInvocation>, batches0: seq<Batch>)
    returns (invocations: seq<SmokeInvocation>, batches: seq<Batch>, issues: seq<SmokeIssue>)
    requires Legal(d) && k < 4 * |d.order| && HasKept(runId, w, d, k, invocations0, batches0)
    ensures issues == [] <==> CellGood(runId, w, CellPlanAt(d, k))
    ensures issues == CellVerdict(runId, w, d, k)
    ensures HasKept(runId, w, d, KeptWith(w, d, k), invocations, batches)
  {
    var plan := CellPlanAt(d, k);
    SmokePlanShape(d, k);
    var items, batch := RunBurst(runId, w, plan, |invocations0|, |batches0|);
    if batch == None {
      return invocations0, batches0, [BatchExecutionFailure];
    }
    KeptNext(runId, w, d, k, invocations0, batches0);
    invocations, batches := invocations0 + items, batches0 + [batch.value];
    issues := CellIssues(plan, items, batch.value);
    CellIssuesIff(runId, w, plan, |invocations0|, |batches0|);
  }

  method RunBurst(runId: string, w: World, plan: BatchPlan, start: nat, index: nat)
    returns (items: seq<SmokeInvocation>, batch: Option<Batch>)
    requires plan.cell.level > 0
    ensures batch.Some? <==> Runs(w, plan)
    ensures batch.Some? ==>
              items == ItemsOf(runId, w, plan, start) && batch.value == BatchFor(runId, w, plan, start, index)
  {
    var specs := PrepareInvocationSpecs(runId, plan);
    var result := ExecuteBatch(runId, w, plan, start, index);
    if result == None {
      return [], None;
    }
    items := Wrapped(plan.cell.index, specs, result.value.0);
    batch := Some(result.value.1);
  }

  // ----- one level -----

  /** The running lists of a smoke. */
  datatype SmokeProgress = SmokeProgress(
    invocations: seq<SmokeInvocation>, batches: seq<Batch>, ownership: seq<Ownership>, levels: seq<nat>)

  /** Before level i, nothing having gone wrong. */
  predicate Reached(runId: string, w: SmokeWorld, d: Design, i: nat, p: SmokeProgress)
    requires Legal(d) && i <= |d.order| && forall j | 0 <= j < |d.order| :: |w.base.threads(d.order[j])| == d.order[j]
  {
    && HasKept(runId, w.base, d, 4 * i, p.invocations, p.batches)
    && p.levels == d.order[..i]
    && p.ownership == OwnersOf(w.base, d.order[..i])
    && forall j | 0 <= j < i :: LevelPasses(runId, w, d, j)
  }

  predicate LevelPasses(runId: string, w: SmokeWorld, d: Design, i: nat)
    requires i < |d.order|
  {
    OpensWell(w, d.order[i]) && w.closes(d.order[i]) && CellsGood(runId, w, d, 4 * i, 4 * i + 4)
  }

  function InvalidAt(p: SmokeProgress, issues: seq<SmokeIssue>, cell: nat): SmokeResult {
    SmokeResult(InvalidSmoke, p.invocations, p.batches, p.ownership, p.levels, issues, Some(cell))
  }

  predicate OpensWell(w: SmokeWorld, level: nat) {
    w.open(level) == Opened(level) && NoDuplicates(w.base.threads(level))
  }

  /** Why a level that does not open well cannot be used; leaving it may raise in turn. */
  function OpeningIssue(w: SmokeWorld, level: nat): SmokeIssue {
    if w.open(level) == Refused || !w.closes(level) then LevelRuntimeFailure
    else if w.open(level) != Opened(level) then RuntimeLevelMismatch
    else SharedThread
  }

  /** Opens the level's runtime and starts its lanes; gives the reason it cannot be used, if any. */
  method OpenLevel(w: SmokeWorld, level: nat) returns (issue: Option<SmokeIssue>)
    requires |w.base.threads(level)| == level
    ensures issue == if OpensWell(w, level) then None else Some(OpeningIssue(w, level))
  {
    if w.open(level) == Refused {
      return Some(LevelRuntimeFailure);
    }
    ToSetSize(w.base.threads(level));
    if w.open(level) != Opened(level) {
      issue := Some(RuntimeLevelMismatch);
    } else if |ToSet(w.base.threads(level))| != level {
      issue := Some(SharedThread);
    } else {
      return None;
    }
    if !w.closes(level) {
      issue := Some(LevelRuntimeFailure);
    }
  }

  /** Leaving the level may raise in turn: then the outer handler reports the cell that was active. */
  method CloseLevel(w: SmokeWorld, level: nat, last: nat, p: SmokeProgress, stop0: Option<SmokeResult>)
    returns (stop: Option<SmokeResult>)
    requires stop0.Some? ==> stop0.value.failedCell.Some?
    ensures w.closes(level) ==> stop == stop0
    ensures !w.closes(level) ==>
              stop == Some(InvalidAt(p, [LevelRuntimeFailure], if stop0.Some? then stop0.value.failedCell.value else last))
  {
    if w.closes(level) {
      return stop0;
    }
    var active := last;
    if stop0.Some? {
      active := stop0.value.failedCell.value;
    }
    stop := Some(InvalidAt(p, [LevelRuntimeFailure], active));
  }

  // ----- where a smoke stops -----

  /** Cell f is where the smoke stops: all before it went well, and then its level or the cell itself did not. */
  predicate StopsAtCell(runId: string, w: SmokeWorld, d: Design, f: nat) {
    && f < 4 * |d.order|
    && (forall j | 0 <= j < f / 4 :: LevelPasses(runId, w, d, j))
    && CellsGood(runId, w, d, f / 4 * 4, f)
    && if OpensWell(w, d.order[f / 4])
       then !CellGood(runId, w.base, CellPlanAt(d, f)) || (f % 4 == 3 && !w.closes(d.order[f / 4]))
       else f % 4 == 0
  }

  /** How much a smoke that stops at cell f keeps. */
  function KeptAtStop(w: SmokeWorld, d: Design, f: nat): (k: nat)
    requires f < 4 * |d.order|
    ensures k <= 4 * |d.order|
  {
    if OpensWell(w, d.order[f / 4]) then KeptWith(w.base, d, f) else f
  }

  function IssuesAtStop(runId: string, w: SmokeWorld, d: Design, f: nat): seq<SmokeIssue>
    requires Legal(d) && f < 4 * |d.order|
  {
    if !OpensWell(w, d.order[f / 4]) then [OpeningIssue(w, d.order[f / 4])]
    else if !w.closes(d.order[f / 4]) then [LevelRuntimeFailure]
    else CellVerdict(runId, w.base, d, f)
  }

  /** Exactly what a smoke that stops at cell f returns. */
  ghost predicate Stopped(runId: string, w: SmokeWorld, d: Design, f: nat, r: SmokeResult)
    requires Legal(d) && ThreadPerLane(w.base) && f < 4 * |d.order|
  {
    var levels := d.order[..if OpensWell(w, d.order[f / 4]) then f / 4 + 1 else f / 4];
    && HasKept(runId, w.base, d, KeptAtStop(w, d, f), r.invocations, r.batches)
    && (r.status, r.failedCell, r.levels, r.ownership) == (InvalidSmoke, Some(f), levels, OwnersOf(w.base, levels))
    && r.issues == IssuesAtStop(runId, w, d, f) != []
  }

  lemma StopFails(runId: string, w: SmokeWorld, d: Design, f: nat)
    requires StopsAtCell(runId, w, d, f)
    ensures !LevelPasses(runId, w, d, f / 4)
  {
  }

  lemma StopsInOrder(runId: string, w: SmokeWorld, d: Design, f: nat, g: nat)
    requires StopsAtCell(runId, w, d, f) && StopsAtCell(runId, w, d, g)
    ensures g <= f
  {
    StopFails(runId, w, d, f);
  }

  /** A smoke stops at one cell at most, and only when not everything went well. */
  lemma StopIsUnique(runId: string, w: SmokeWorld, d: Design, f: nat, g: nat)
    requires StopsAtCell(runId, w, d, f) && StopsAtCell(runId, w, d, g)
    ensures f == g && !AllGood(runId, w, d)
  {
    StopsInOrder(runId, w, d, f, g);
    StopsInOrder(runId, w, d, g, f);
    StopFails(runId, w, d, f);
  }

  // ----- one level -----

  /** Opens the level, runs its four cells and closes it; a failure anywhere ends the smoke. */
  method RunLevel(runId: string, w: SmokeWorld, d: Design, i: nat, p0: SmokeProgress)
    returns (p: SmokeProgress, stop: Option<SmokeResult>)
    requires Legal(d) && i < |d.order| && ThreadPerLane(w.base) && Reached(runId, w, d, i, p0)
    ensures stop == None <==> LevelPasses(runId, w, d, i)
    ensures stop == None ==> Reached(runId, w, d, i + 1, p)
    ensures stop.Some? ==> IsStop(runId, w, d, stop.value)
  {
    var level, first := d.order[i], 4 * i;
    var issue := OpenLevel(w, level);
    if issue.Some? {
      OpeningStops(runId, w, d, i, p0);
      return p0, Some(InvalidAt(p0, [issue.value], first));
    }
    var entered := SmokeProgress(p0.invocations, p0.batches, p0.ownership + LaneOwners(w.base, level), p0.levels + [level]);
    OwnersNext(w.base, d.order, i);
    p, stop := RunOpened(runId, w, d, level, first, entered);
    assert Entered(runId, w, d, i, p);
    LevelEnds(runId, w, d, i, p, stop);
  }

  lemma LevelEnds(runId: string, w: SmokeWorld, d: Design, i: nat, p: SmokeProgress, stop: Option<SmokeResult>)
    requires Legal(d) && i < |d.order| && ThreadPerLane(w.base) && Entered(runId, w, d, i, p)
    requires OpenedEnds(runId, w, d, d.order[i], 4 * i, p, stop)
    ensures stop == None <==> LevelPasses(runId, w, d, i)
    ensures stop == None ==> Reached(runId, w, d, i + 1, p)
    ensures stop.Some? ==> IsStop(runId, w, d, stop.value)
  {
    if stop == None {
      LevelReached(runId, w, d, i, p);
    } else if CellsGood(runId, w, d, 4 * i, 4 * i + 4) {
      ClosingStops(runId, w, d, i, p);
    } else {
      CellStops(runId, w, d, i, stop.value.failedCell.value, p);
    }
  }

  lemma LevelReached(runId: string, w: SmokeWorld, d: Design, i: nat, p: SmokeProgress)
    requires Legal(d) && i < |d.order| && ThreadPerLane(w.base) && Entered(runId, w, d, i, p)
    requires CellsGood(runId, w, d, 4 * i, 4 * i + 4) && w.closes(d.order[i])
    requires HasKept(runId, w.base, d, 4 * i + 4, p.invocations, p.batches)
    ensures LevelPasses(runId, w, d, i) && Reached(runId, w, d, i + 1, p)
  {
  }

  lemma OpeningStops(runId: string, w: SmokeWorld, d: Design, i: nat, p: SmokeProgress)
    requires Legal(d) && i < |d.order| && ThreadPerLane(w.base) && Reached(runId, w, d, i, p)
    requires !OpensWell(w, d.order[i])
    ensures IsStop(runId, w, d, InvalidAt(p, [OpeningIssue(w, d.order[i])], 4 * i))
  {
    var f := 4 * i;
    assert f / 4 == i && f % 4 == 0;
    assert StopsAtCell(runId, w, d, f);
  }

  /** Level i has been entered after all before it passed. */
  ghost predicate Entered(runId: string, w: SmokeWorld, d: Design, i: nat, p: SmokeProgress)
    requires Legal(d) && i < |d.order| && ThreadPerLane(w.base)
  {
    && OpensWell(w, d.order[i]) && p.levels == d.order[..i + 1] && p.ownership == OwnersOf(w.base, d.order[..i + 1])
    && forall j | 0 <= j < i :: LevelPasses(runId, w, d, j)
  }

  lemma ClosingStops(runId: string, w: SmokeWorld, d: Design, i: nat, p: SmokeProgress)
    requires Legal(d) && i < |d.order| && ThreadPerLane(w.base) && Entered(runId, w, d, i, p)
    requires CellsGood(runId, w, d, 4 * i, 4 * i + 4) && !w.closes(d.order[i])
    requires HasKept(runId, w.base, d, 4 * i + 4, p.invocations, p.batches)
    ensures IsStop(runId, w, d, InvalidAt(p, [LevelRuntimeFailure], 4 * i + 3))
  {
    var f := 4 * i + 3;
    assert f / 4 == i && f % 4 == 3;
    assert CellGood(runId, w.base, CellPlanAt(d, f));
  }

  lemma CellStops(runId: string, w: SmokeWorld, d: Design, i: nat, f: nat, p: SmokeProgress)
    requires Legal(d) && i < |d.order| && ThreadPerLane(w.base) && Entered(runId, w, d, i, p)
    requires CellStop(runId, w.base, d, 4 * i, f, p)
    ensures IsStop(runId, w, d, InvalidAt(p, if w.closes(d.order[i]) then CellVerdict(runId, w.base, d, f)
                                             else [LevelRuntimeFailure], f))
  {
    assert f / 4 == i;
    assert CellsGood(runId, w, d, f / 4 * 4, f);
    assert StopsAtCell(runId, w, d, f);
  }

  ghost predicate IsStop(runId: string, w: SmokeWorld, d: Design, r: SmokeResult)
    requires Legal(d) && ThreadPerLane(w.base)
  {
    && r.failedCell.Some? && StopsAtCell(runId, w, d, r.failedCell.value)
    && Stopped(runId, w, d, r.failedCell.value, r)
  }

  /** Cell f of an opened level is the first that is not good, and p is what the cells up to it leave. */
  predicate CellStop(runId: string, w: World, d: Design, first: nat, f: nat, p: SmokeProgress)
    requires Legal(d)
  {
    && first <= f < first + 4 <= 4 * |d.order|
    && (forall k | first <= k < f :: CellGood(runId, w, CellPlanAt(d, k))) && !CellGood(runId, w, CellPlanAt(d, f))
    && HasKept(runId, w, d, KeptWith(w, d, f), p.invocations, p.batches)
    && CellVerdict(runId, w, d, f) != []
  }

  /** How the part between opening and leaving a level ends. */
  predicate OpenedEnds(runId: string, w: SmokeWorld, d: Design, level: nat, first: nat, p: SmokeProgress, stop: Option<SmokeResult>)
    requires Legal(d) && first + 4 <= 4 * |d.order|
  {
    if CellsGood(runId, w, d, first, first + 4) then
      && HasKept(runId, w.base, d, first + 4, p.invocations, p.batches)
      && stop == if w.closes(level) then None else Some(InvalidAt(p, [LevelRuntimeFailure], first + 3))
    else
      && stop.Some? && stop.value.failedCell.Some?
      && var f := stop.value.failedCell.value;
         && CellStop(runId, w.base, d, first, f, p)
         && stop.value == InvalidAt(p, if w.closes(level) then CellVerdict(runId, w.base, d, f) else [LevelRuntimeFailure], f)
  }

  /** The part between opening and leaving a level. */
  method RunOpened(runId: string, w: SmokeWorld, d: Design, level: nat, first: nat, p0: SmokeProgress)
    returns (p: SmokeProgress, stop: Option<SmokeResult>)
    requires Legal(d) && first + 4 <= 4 * |d.order| && HasKept(runId, w.base, d, first, p0.invocations, p0.batches)
    ensures p.ownership == p0.ownership && p.levels == p0.levels
    ensures OpenedEnds(runId, w, d, level, first, p, stop)
  {
    p, stop := RunCells(runId, w, d, first, p0);
    stop := CloseLevel(w, level, first + 3, p, stop);
  }

  lemma OwnersNext(w: World, order: seq<nat>, i: nat)
    requires ThreadPerLane(w) && i < |order|
    ensures OwnersOf(w, order[..i + 1]) == OwnersOf(w, order[..i]) + LaneOwners(w, order[i])
    ensures order[..i + 1] == order[..i] + [order[i]]
  {
    assert order[..i + 1][..i] == order[..i];
  }

  lemma CellsGoodNext(runId: string, w: SmokeWorld, d: Design, from: nat, to: nat)
    requires from <= to < 4 * |d.order|
    ensures CellsGood(runId, w, d, from, to + 1) <==>
            CellsGood(runId, w, d, from, to) && CellGood(runId, w.base, CellPlanAt(d, to))
  {
  }

  lemma CellNotGood(runId: string, w: SmokeWorld, d: Design, from: nat, k: nat, to: nat)
    requires from <= k < to <= 4 * |d.order| && !CellGood(runId, w.base, CellPlanAt(d, k))
    ensures !CellsGood(runId, w, d, from, to)
  {
  }

  method RunCells(runId: string, w: SmokeWorld, d: Design, first: nat, p0: SmokeProgress)
    returns (p: SmokeProgress, stop: Option<SmokeResult>)
    requires Legal(d) && first + 4 <= 4 * |d.order| && HasKept(runId, w.base, d, first, p0.invocations, p0.batches)
    ensures stop == None <==> CellsGood(runId, w, d, first, first + 4)
    ensures p.ownership == p0.ownership && p.levels == p0.levels
    ensures stop == None ==> HasKept(runId, w.base, d, first + 4, p.invocations, p.batches)
    ensures stop.Some? ==>
              && stop.value.failedCell.Some?
              && var f := stop.value.failedCell.value;
                 CellStop(runId, w.base, d, first, f, p) && stop.value == InvalidAt(p, CellVerdict(runId, w.base, d, f), f)
  {
    p, stop := p0, None;
    var k := first;
    while k < first + 4
      invariant first <= k <= first + 4 && stop == None
      invariant p.ownership == p0.ownership && p.levels == p0.levels
      invariant HasKept(runId, w.base, d, k, p.invocations, p.batches)
      invariant CellsGood(runId, w, d, first, k)
    {
      p, stop := RunNextCell(runId, w, d, k, p);
      CellsGoodNext(runId, w, d, first, k);
      if stop.Some? {
        CellNotGood(runId, w, d, first, k, first + 4);
        return;
      }
      k := k + 1;
    }
  }

  method RunNextCell(runId: string, w: SmokeWorld, d: Design, k: nat, p0: SmokeProgress)
    returns (p: SmokeProgress, stop: Option<SmokeResult>)
    requires Legal(d) && k < 4 * |d.order| && HasKept(runId, w.base, d, k, p0.invocations, p0.batches)
    ensures stop == None <==> CellGood(runId, w.base, CellPlanAt(d, k))
    ensures p.ownership == p0.ownership && p.levels == p0.levels
    ensures HasKept(runId, w.base, d, KeptWith(w.base, d, k), p.invocations, p.batches)
    ensures stop == None ==> Runs(w.base, CellPlanAt(d, k))
    ensures stop.Some? ==> CellVerdict(runId, w.base, d, k) != []
    ensures stop.Some? ==> stop.value == InvalidAt(p, CellVerdict(runId, w.base, d, k), k)
  {
    var invocations, batches, issues := RunCell(runId, w.base, d, k, p0.invocations, p0.batches);
    p := SmokeProgress(invocations, batches, p0.ownership, p0.levels);
    stop := if issues == [] then None else Some(InvalidAt(p, issues, k));
  }

  // ----- the whole smoke -----

  /** Every level opens, keeps its threads apart and closes, and every cell is good. */
  predicate AllGood(runId: string, w: SmokeWorld, d: Design) {
    forall i | 0 <= i < |d.order| :: LevelPasses(runId, w, d, i)
  }

  /**
   Whatever fails, the smoke is structurally valid exactly when all went well, and then keeps what every cell
   left and every level's lanes; otherwise it stops at the one cell where something went wrong and keeps exactly
   what the cells up to there left, with the reason found there.
   */
  method ExecuteSmoke(runId: string, w: SmokeWorld, d: Design) returns (r: SmokeResult)
    requires Legal(d) && ThreadPerLane(w.base)
    ensures r.status == StructurallyValid <==> AllGood(runId, w, d)
    ensures r.status == StructurallyValid ==>
              && r.issues == [] && r.failedCell == None
              && HasKept(runId, w.base, d, 4 * |d.order|, r.invocations, r.batches)
              && r.ownership == OwnersOf(w.base, d.order) && r.levels == d.order
    ensures r.status == InvalidSmoke ==> IsStop(runId, w, d, r)
  {
    var p := SmokeProgress([], [], [], []);
    for i := 0 to |d.order|
      invariant Reached(runId, w, d, i, p)
    {
      var stop;
      p, stop := RunLevel(runId, w, d, i, p);
      if stop.Some? {
        return stop.value;
      }
    }
    assert d.order[..|d.order|] == d.order;
    r := SmokeResult(StructurallyValid, p.invocations, p.batches, p.ownership, p.levels, [], None);
  }

  lemma {:induction false} PlannedIsFourTimes(d: Design, n: nat)
    requires n <= |d.order|
    ensures Planned(d, 4 * n) == 4 * Total(d.order[..n])
  {
    if n > 0 {
      PlannedIsFourTimes(d, n - 1);
      var k := 4 * (n - 1);
      assert Planned(d, k + 1) == Planned(d, k) + d.order[n - 1];
      assert Planned(d, k + 2) == Planned(d, k + 1) + d.order[n - 1];
      assert Planned(d, k + 3) == Planned(d, k + 2) + d.order[n - 1];
      assert Planned(d, k + 4) == Planned(d, k + 3) + d.order[n - 1];
      assert d.order[..n][..n - 1] == d.order[..n - 1];
    }
  }
}
