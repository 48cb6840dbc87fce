/**
What a valid run and an executed run say, record by record: where each record stands in the
design, what each batch record condenses, and which raw readings each record carries.
*/
module RunMeaning {
  import opened Wrappers
  import opened Sequences
  import opened Ordering
  import opened FixedSchedule
  import opened RunRecords
  import opened RecordedExecutor
  import opened Reconciliation
  import opened RunValidation
  import opened RunVerdict
  import opened RunTheorems

  // ----- where a record stands -----

  /** The k-th cell of the design: its level, and its workload and composition by parity. */
  predicate OfCell(level: nat, family: Family, composition: Composition, d: Design, k: nat)
    requires k < 4 * |d.order|
  {
    && level == d.order[k / 4]
    && family == (if (k / 4 + k / 2 % 2) % 2 == 0 then SameOrder else DifferentOrder)
    && composition == (if (k / 2 % 2 + k % 2) % 2 == 0 then PreOcc else InPessimistic)
  }

  /** The record of one lane of one recorded batch of one cell, on the connection of its own number. */
  predicate Placed(r: Invocation, d: Design, k: nat, b: nat, lane: nat) {
    && k < 4 * |d.order| && b < d.recorded && lane < d.order[k / 4]
    && (r.cellIndex, r.batchIndex, r.lane, r.slot) == (k, b, lane, lane)
    && OfCell(r.level, r.family, r.composition, d, k)
  }

  predicate BatchPlaced(r: Batch, d: Design, k: nat, b: nat) {
    && k < 4 * |d.order| && b < d.recorded
    && (r.cellIndex, r.batchIndex) == (k, b) && OfCell(r.level, r.family, r.composition, d, k)
  }

  lemma PlanIsPlaced(d: Design, plan: BatchPlan) returns (k: nat, b: nat)
    requires plan in RecordedOnly(ScheduleOf(d).batches)
    ensures k < 4 * |d.order| && b < d.recorded && plan.cell == CellAt(d, k) && plan.batchIndex == b
  {
    RecordedOfPlans(d, ScheduleOf(d).cells);
    FlatMapMember((cell: Cell) => RecordedCellPlans(d, cell), ScheduleOf(d).cells, plan);
    k :| 0 <= k < 4 * |d.order| && plan in RecordedCellPlans(d, ScheduleOf(d).cells[k]);
    b :| 0 <= b < d.recorded && RecordedCellPlans(d, ScheduleOf(d).cells[k])[b] == plan;
  }

  lemma PlanOfPlace(d: Design, k: nat, b: nat) returns (j: nat)
    requires k < 4 * |d.order| && b < d.recorded
    ensures var plans := RecordedOnly(ScheduleOf(d).batches);
            j < |plans| && plans[j].cell == CellAt(d, k) && plans[j].batchIndex == b
  {
    var plan := RecordedCellPlans(d, CellAt(d, k))[b];
    RecordedOfPlans(d, ScheduleOf(d).cells);
    assert ScheduleOf(d).cells[k] == CellAt(d, k);
    FlatMapMember((cell: Cell) => RecordedCellPlans(d, cell), ScheduleOf(d).cells, plan);
    var plans := RecordedOnly(ScheduleOf(d).batches);
    j :| 0 <= j < |plans| && plans[j] == plan;
  }

  lemma CellIs(d: Design, k: nat)
    requires k < 4 * |d.order|
    ensures var cell := CellAt(d, k); cell.index == k && OfCell(cell.level, cell.family, cell.composition, d, k)
  {
  }

  /** Every record of a valid run has its place in the design. */
  lemma RecordIsPlaced(d: Design, run: Execution, i: nat) returns (k: nat, b: nat, lane: nat)
    requires ValidRun(d, ScheduleOf(d), run) && i < |run.invocations|
    ensures Placed(run.invocations[i], d, k, b, lane)
  {
    var plans, r := RecordedOnly(ScheduleOf(d).batches), run.invocations[i];
    var planned := PlannedInvocations(plans);
    assert InvocationIndex(r) < |planned| && InvocationAgrees(planned[InvocationIndex(r)], r);
    PlannedShape(plans, InvocationIndex(r));
    var p := planned[InvocationIndex(r)];
    k, b := PlanIsPlaced(d, p.plan);
    CellIs(d, k);
    lane := p.lane;
  }

  /** And every place in the design has exactly one record. */
  lemma PlaceIsRecorded(d: Design, run: Execution, k: nat, b: nat, lane: nat) returns (i: nat)
    requires Legal(d) && ValidRun(d, ScheduleOf(d), run)
    requires k < 4 * |d.order| && b < d.recorded && lane < d.order[k / 4]
    ensures i < |run.invocations| && Placed(run.invocations[i], d, k, b, lane)
    ensures forall j | 0 <= j < |run.invocations| && Placed(run.invocations[j], d, k, b, lane) :: j == i
  {
    var plans := RecordedOnly(ScheduleOf(d).batches);
    RecordedPlans(d);
    var p := PlanOfPlace(d, k, b);
    CellIs(d, k);
    i := LaneIsFound(plans, run.invocations, p, lane);
    var k', b', lane' := RecordIsPlaced(d, run, i);
    forall j | 0 <= j < |run.invocations| && Placed(run.invocations[j], d, k, b, lane) ensures j == i {
      KeysApart(plans, run.invocations, i, j);
    }
  }

  lemma LaneIsFound(plans: seq<BatchPlan>, invocations: seq<Invocation>, p: nat, lane: nat) returns (i: nat)
    requires DistinctPlans(plans) && InvocationsMatch(plans, invocations)
    requires p < |plans| && lane < plans[p].cell.level
    ensures i < |invocations|
    ensures (invocations[i].cellIndex, invocations[i].batchIndex, invocations[i].lane)
         == (plans[p].cell.index, plans[p].batchIndex, lane)
  {
    var key := SlotKey(plans[p].cell.index, plans[p].batchIndex, lane);
    KeyIsPlanned(plans, p, lane);
    KeyIsFound(plans, invocations, key);
    i :| 0 <= i < |invocations| && Image(InvocationKey, invocations)[i] == key;
    SameSlot(invocations[i], plans[p], lane);
  }

  lemma KeyIsPlanned(plans: seq<BatchPlan>, p: nat, lane: nat)
    requires p < |plans| && lane < plans[p].cell.level
    ensures SlotKey(plans[p].cell.index, plans[p].batchIndex, lane) in Dictionary(PlannedInvocations(plans), PlannedKey)
  {
    PlannedLane(plans, p, lane);
    var planned, key := PlannedInvocations(plans), SlotKey(plans[p].cell.index, plans[p].batchIndex, lane);
    assert Image(PlannedKey, planned)[|PlannedInvocations(plans[..p])| + lane] == key;
    DictionaryKeys(planned, PlannedKey, key);
  }

  lemma KeyIsFound(plans: seq<BatchPlan>, invocations: seq<Invocation>, key: Key)
    requires DistinctPlans(plans) && InvocationsMatch(plans, invocations)
    requires key in Dictionary(PlannedInvocations(plans), PlannedKey)
    ensures key in Image(InvocationKey, invocations)
  {
    InvocationsReconciled(plans, invocations);
    DictionaryKeys(invocations, InvocationKey, key);
  }

  lemma SameSlot(r: Invocation, plan: BatchPlan, lane: nat)
    requires InvocationKey(r) == SlotKey(plan.cell.index, plan.batchIndex, lane)
    ensures (r.cellIndex, r.batchIndex, r.lane) == (plan.cell.index, plan.batchIndex, lane)
  {
    var a, b := InvocationKey(r), SlotKey(plan.cell.index, plan.batchIndex, lane);
    assert a[0].number == b[0].number && a[1].number == b[1].number && a[2].number == b[2].number;
  }

  lemma KeysApart(plans: seq<BatchPlan>, invocations: seq<Invocation>, i: nat, j: nat)
    requires DistinctPlans(plans) && InvocationsMatch(plans, invocations) && i < |invocations| && j < |invocations|
    requires invocations[i].cellIndex == invocations[j].cellIndex && invocations[i].batchIndex == invocations[j].batchIndex
    requires invocations[i].lane == invocations[j].lane
    ensures i == j
  {
    InvocationsReconciled(plans, invocations);
    assert InvocationKey(invocations[i]) == InvocationKey(invocations[j]);
  }

  // ----- what a batch record condenses -----

  function Stop(r: Invocation): nat { r.startOffset + r.elapsedNs }

  predicate WasAccepted(r: Invocation) {
    r.evidence.Normal? && r.evidence.cohort == Some(Accepted)
  }

  ghost predicate IsLeast(m: nat, lanes: seq<Invocation>, f: Invocation -> nat) {
    (exists i | 0 <= i < |lanes| :: f(lanes[i]) == m) && forall i | 0 <= i < |lanes| :: m <= f(lanes[i])
  }

  ghost predicate IsGreatest(m: nat, lanes: seq<Invocation>, f: Invocation -> nat) {
    (exists i | 0 <= i < |lanes| :: f(lanes[i]) == m) && forall i | 0 <= i < |lanes| :: f(lanes[i]) <= m
  }

  function StartOf(r: Invocation): nat { r.startOffset }

  function WithLabel(text: string): Invocation -> bool {
    (r: Invocation) => Label(r) == text
  }

  /** The record says when the first and the last lane started and the last one stopped, and counts the lanes by outcome. */
  ghost predicate Condenses(b: Batch, lanes: seq<Invocation>) {
    && b.completed == |lanes|
    && IsLeast(b.firstStart, lanes, StartOf) && IsGreatest(b.lastStart, lanes, StartOf) && IsGreatest(b.elapsedNs, lanes, Stop)
    && b.accepted == |Having(lanes, WasAccepted)|
    && (forall t | 0 <= t < |b.typedCounts| ::
          b.typedCounts[t].count == |Having(lanes, WithLabel(b.typedCounts[t].outcome))| > 0)
    && (forall i | 0 <= i < |lanes| :: exists t | 0 <= t < |b.typedCounts| :: b.typedCounts[t].outcome == Label(lanes[i]))
  }

  lemma {:induction false} AcceptedIsHaving(lanes: seq<Invocation>)
    ensures AcceptedCount(lanes) == |Having(lanes, WasAccepted)|
  {
    if lanes == [] {
      assert Having(lanes, WasAccepted) == {};
    } else {
      AcceptedIsHaving(lanes[..|lanes| - 1]);
      HavingNext(lanes, WasAccepted);
    }
  }

  lemma {:induction false} LabelsHaving(lanes: seq<Invocation>, text: string)
    ensures multiset(Labels(lanes))[[Text(text)]] == |Having(lanes, WithLabel(text))|
  {
    HavingLabel(lanes, text, WithLabel(text));
  }

  lemma {:induction false} HavingLabel(lanes: seq<Invocation>, text: string, p: Invocation -> bool)
    requires forall r :: p(r) <==> Label(r) == text
    ensures multiset(Labels(lanes))[[Text(text)]] == |Having(lanes, p)|
  {
    if lanes == [] {
      assert Having(lanes, p) == {};
    } else {
      var n := |lanes| - 1;
      HavingLabel(lanes[..n], text, p);
      HavingNext(lanes, p);
      LabelsNext(lanes, text);
    }
  }

  lemma {:induction false} LabelsNext(lanes: seq<Invocation>, text: string)
    requires lanes != []
    ensures var n := |lanes| - 1;
            multiset(Labels(lanes))[[Text(text)]]
            == multiset(Labels(lanes[..n]))[[Text(text)]] + if Label(lanes[n]) == text then 1 else 0
  {
    var n := |lanes| - 1;
    var key: Key := [Text(Label(lanes[n]))];
    assert Labels(lanes) == Labels(lanes[..n]) + [key];
    assert key == [Text(text)] <==> Label(lanes[n]) == text by { assert key[0] == Text(Label(lanes[n])); }
  }

  lemma CountsAreHaving(lanes: seq<Invocation>, t: nat)
    requires t < |TypedCounts(lanes)|
    ensures TypedCounts(lanes)[t].count == |Having(lanes, WithLabel(TypedCounts(lanes)[t].outcome))| > 0
  {
    TypedCountsConserve(lanes);
    var keys := SortedKeys(Labels(lanes));
    assert keys[t] in keys;
    LabelKey(lanes, keys[t]);
    assert keys[t] == [Text(TypedCounts(lanes)[t].outcome)];
    LabelsHaving(lanes, TypedCounts(lanes)[t].outcome);
  }

  lemma LabelIsCounted(lanes: seq<Invocation>, i: nat)
    requires i < |lanes|
    ensures exists t | 0 <= t < |TypedCounts(lanes)| :: TypedCounts(lanes)[t].outcome == Label(lanes[i])
  {
    var keys := SortedKeys(Labels(lanes));
    assert Labels(lanes)[i] in Labels(lanes);
    var t :| 0 <= t < |keys| && keys[t] == Labels(lanes)[i];
    assert TypedCounts(lanes)[t].outcome == Label(lanes[i]);
  }

  lemma TimesAre(lanes: seq<Invocation>)
    requires lanes != []
    ensures IsLeast(Least(Starts(lanes)), lanes, StartOf)
    ensures IsGreatest(Greatest(Starts(lanes)), lanes, StartOf) && IsGreatest(Greatest(Stops(lanes)), lanes, Stop)
  {
    var starts, stops := Starts(lanes), Stops(lanes);
    var i :| 0 <= i < |starts| && starts[i] == Least(starts);
    var j :| 0 <= j < |starts| && starts[j] == Greatest(starts);
    var l :| 0 <= l < |stops| && stops[l] == Greatest(stops);
    assert StartOf(lanes[i]) == Least(starts) && StartOf(lanes[j]) == Greatest(starts) && Stop(lanes[l]) == Greatest(stops);
    forall m | 0 <= m < |lanes| ensures Least(starts) <= StartOf(lanes[m]) <= Greatest(starts) && Stop(lanes[m]) <= Greatest(stops) {
      assert starts[m] == StartOf(lanes[m]) && stops[m] == Stop(lanes[m]);
    }
  }

  lemma FaithfulCondenses(b: Batch, lanes: seq<Invocation>)
    requires Faithful(b, lanes)
    ensures Condenses(b, lanes)
  {
    TimesAre(lanes);
    AcceptedIsHaving(lanes);
    forall t | 0 <= t < |b.typedCounts|
      ensures b.typedCounts[t].count == |Having(lanes, WithLabel(b.typedCounts[t].outcome))| > 0
    {
      CountsAreHaving(lanes, t);
    }
    forall i | 0 <= i < |lanes| ensures exists t | 0 <= t < |b.typedCounts| :: b.typedCounts[t].outcome == Label(lanes[i]) {
      LabelIsCounted(lanes, i);
    }
  }

  /** Each batch record of a valid run has its place, and condenses the records of that place's lanes. */
  lemma BatchCondenses(d: Design, run: Execution, i: nat) returns (k: nat, b: nat, lanes: seq<Invocation>)
    requires Legal(d) && ValidRun(d, ScheduleOf(d), run) && i < |run.batches|
    ensures BatchPlaced(run.batches[i], d, k, b) && |lanes| == d.order[k / 4] && Condenses(run.batches[i], lanes)
    ensures forall lane | 0 <= lane < |lanes| :: lanes[lane] in run.invocations && Placed(lanes[lane], d, k, b, lane)
  {
    var plans, r := RecordedOnly(ScheduleOf(d).batches), run.batches[i];
    assert BatchIndex(r) < |plans| && BatchAgrees(PlannedBatches(plans)[BatchIndex(r)], r);
    var plan := plans[r.index];
    k, b := PlanIsPlaced(d, plan);
    CellIs(d, k);
    lanes := LaneRecords(Found(run.invocations), plan);
    FaithfulCondenses(r, lanes);
    forall lane | 0 <= lane < |lanes| ensures lanes[lane] in run.invocations && Placed(lanes[lane], d, k, b, lane) {
      LaneOfBatch(d, run, plan, lane);
    }
  }

  lemma LaneOfBatch(d: Design, run: Execution, plan: BatchPlan, lane: nat)
    requires ValidRun(d, ScheduleOf(d), run) && LanesFound(Found(run.invocations), plan) && lane < plan.cell.level
    ensures var r := LaneRecords(Found(run.invocations), plan)[lane];
            && r in run.invocations
            && exists k, b :: Placed(r, d, k, b, lane) && k == plan.cell.index && b == plan.batchIndex
  {
    var key := SlotKey(plan.cell.index, plan.batchIndex, lane);
    DictionaryKeys(run.invocations, InvocationKey, key);
    var r := LaneRecords(Found(run.invocations), plan)[lane];
    SameSlot(r, plan, lane);
    var i :| 0 <= i < |run.invocations| && run.invocations[i] == r;
    var k, b, l := RecordIsPlaced(d, run, i);
  }

  // ----- which readings an executed record carries -----

  /** The evidence of a record, against what its lane's writer delivered. */
  ghost predicate Reports(e: Evidence, d: Delivery) {
    match d
    case Threw(exceptionType) => e == Exceptional(exceptionType)
    case Gave(availability, measurement, outcome, stream, append) =>
      && e.Normal? && (e.outcome, e.stream, e.append, e.availability) == (outcome, stream, append, availability)
      && (e.stage == Some(Append) <==> outcome == Some("ADMISSION_REJECTED") && append.Some?)
      && (e.stage == Some(PrepareStream) <==> outcome == Some("ADMISSION_REJECTED") && append.None? && stream.Some?)
      && (forall cohort :: e.cohort == Some(cohort) <==> Terminal(d, cohort))
      && (e.phases.Some? <==> availability == Some("AVAILABLE") && measurement.Some?)
      && (e.phases.Some? ==> forall i | 0 <= i < |e.phases.value| :: PhaseRead(e.phases.value[i], measurement.value))
  }

  /** A phase record repeats the reading of its phase. */
  predicate PhaseRead(p: PhaseRecord, m: map<PhaseName, Reading>) {
    && p.name in m && p.state == m[p.name].state
    && (if p.state == Measured then p.elapsed.Some? && m[p.name].elapsed == Some(p.elapsed.value) else p.elapsed == None)
  }

  ghost predicate Carries(r: Invocation, o: Observation, referenceNs: nat) {
    r.elapsedNs == o.elapsedNs && referenceNs + r.startOffset == o.startNs && Reports(r.evidence, o.delivery)
  }

  lemma PhaseIsRead(name: PhaseName, m: map<PhaseName, Reading>)
    ensures forall i | 0 <= i < |ParsePhase(name, m)| :: PhaseRead(ParsePhase(name, m)[i], m)
  {
  }

  lemma {:induction false} AllRead(f: PhaseName -> seq<PhaseRecord>, names: seq<PhaseName>, m: map<PhaseName, Reading>)
    requires forall name :: f(name) == ParsePhase(name, m)
    ensures forall i | 0 <= i < |FlatMap(f, names)| :: PhaseRead(FlatMap(f, names)[i], m)
  {
    if names != [] {
      AllRead(f, names[..|names| - 1], m);
      PhaseIsRead(names[|names| - 1], m);
    }
  }

  lemma ParsedPhasesRead(m: map<PhaseName, Reading>)
    ensures forall i | 0 <= i < |ParsePhases(m)| :: PhaseRead(ParsePhases(m)[i], m)
  {
    var f := (name: PhaseName) => ParsePhase(name, m);
    assert ParsePhases(m) == FlatMap(f, PhaseNames);
    AllRead(f, PhaseNames, m);
  }

  lemma StageReports(d: Delivery)
    requires d.Gave?
    ensures var stage := RejectionStage(d.outcome, d.stream, d.append);
            && (stage == Some(Append) <==> d.outcome == Some("ADMISSION_REJECTED") && d.append.Some?)
            && (stage == Some(PrepareStream) <==> d.outcome == Some("ADMISSION_REJECTED") && d.append.None? && d.stream.Some?)
  {
  }

  lemma NormalParts(d: Delivery)
    requires d.Gave?
    ensures var e := EvidenceOf(d);
            && e.Normal? && (e.outcome, e.stream, e.append, e.availability) == (d.outcome, d.stream, d.append, d.availability)
            && e.stage == RejectionStage(d.outcome, d.stream, d.append)
            && (e.phases.Some? <==> d.availability == Some("AVAILABLE") && d.measurement.Some?)
            && (e.phases.Some? ==> e.phases.value == ParsePhases(d.measurement.value))
  {
  }

  lemma EvidenceReports(d: Delivery)
    ensures Reports(EvidenceOf(d), d)
  {
    if d.Gave? {
      NormalParts(d);
      StageReports(d);
      forall cohort ensures EvidenceOf(d).cohort == Some(cohort) <==> Terminal(d, cohort) { ClassifiedIffTerminal(d, cohort); }
      if d.measurement.Some? { ParsedPhasesRead(d.measurement.value); }
    }
  }

  /** Each recorded plan's slice of the run is the records of its own burst, and its batch record is built from them. */
  ghost predicate HoldsPlan(runId: string, w: World, plans: seq<BatchPlan>, p: Progress, j: nat)
    requires j < |plans|
  {
    && Runs(w, plans[j]) && plans[j].cell.level > 0 && j < |p.batches|
    && Offset(plans, j) + plans[j].cell.level <= |p.invocations|
    && p.invocations[Offset(plans, j)..Offset(plans, j) + plans[j].cell.level]
       == RecordsFor(runId, w, plans[j], Offset(plans, j))
    && p.batches[j].referenceNs == w.behave(plans[j]).value.referenceNs
  }

  ghost predicate HoldsPlans(runId: string, w: World, plans: seq<BatchPlan>, p: Progress) {
    && |p.invocations| == |PlannedInvocations(plans)| == p.nextInvocation && |p.batches| == |plans|
    && forall j | 0 <= j < |plans| :: HoldsPlan(runId, w, plans, p, j)
  }

  lemma HoldsEarlier(runId: string, w: World, plans: seq<BatchPlan>, p: Progress, plan: BatchPlan,
                     records: seq<Invocation>, batch: Batch, j: nat)
    requires j < |plans| && HoldsPlan(runId, w, plans, p, j)
    ensures HoldsPlan(runId, w, plans + [plan], Progress(p.invocations + records, p.batches + [batch], 0, 0), j)
  {
    var more := plans + [plan];
    assert more[..j] == plans[..j] && more[j] == plans[j];
    SliceOfPrefix(p.invocations, records, Offset(plans, j), Offset(plans, j) + plans[j].cell.level);
  }

  lemma HoldsLast(runId: string, w: World, plans: seq<BatchPlan>, p: Progress, plan: BatchPlan,
                  records: seq<Invocation>, batch: Batch)
    requires |p.invocations| == |PlannedInvocations(plans)| && |p.batches| == |plans|
    requires Runs(w, plan) && plan.cell.level > 0 && records == RecordsFor(runId, w, plan, |p.invocations|)
    requires batch.referenceNs == w.behave(plan).value.referenceNs
    ensures HoldsPlan(runId, w, plans + [plan], Progress(p.invocations + records, p.batches + [batch], 0, 0), |plans|)
  {
    var more := plans + [plan];
    assert more[..|plans|] == plans && more[|plans|] == plan;
    assert (p.invocations + records)[|p.invocations|..|p.invocations| + |records|] == records;
  }

  lemma HoldsSize(runId: string, w: World, plans: seq<BatchPlan>, p: Progress, plan: BatchPlan)
    requires HoldsPlans(runId, w, plans, p) && Runs(w, plan) && plan.cell.level > 0
    ensures var q := RunRecorded(runId, w, p, plan);
            |q.invocations| == |PlannedInvocations(plans + [plan])| == q.nextInvocation && |q.batches| == |plans| + 1
  {
    assert (plans + [plan])[..|plans|] == plans;
  }

  lemma HoldsStep(runId: string, w: World, plans: seq<BatchPlan>, p: Progress, plan: BatchPlan)
    requires HoldsPlans(runId, w, plans, p) && Runs(w, plan) && plan.cell.level > 0
    ensures HoldsPlans(runId, w, plans + [plan], RunRecorded(runId, w, p, plan))
  {
    var q, records := RunRecorded(runId, w, p, plan), RecordsFor(runId, w, plan, p.nextInvocation);
    HoldsSize(runId, w, plans, p, plan);
    forall j | 0 <= j < |plans + [plan]| ensures HoldsPlan(runId, w, plans + [plan], q, j) {
      if j < |plans| {
        assert HoldsPlan(runId, w, plans, p, j);
        HoldsEarlier(runId, w, plans, p, plan, records, q.batches[|plans|], j);
      } else {
        HoldsLast(runId, w, plans, p, plan, records, q.batches[|plans|]);
      }
    }
  }

  lemma {:induction false} RunHolds(runId: string, w: World, plans: seq<BatchPlan>, p: Progress)
    requires RunPlans(runId, w, plans) == Some(p)
    ensures HoldsPlans(runId, w, RecordedOnly(plans), p)
  {
    if plans != [] {
      var n := |plans| - 1;
      var q := RunPlans(runId, w, plans[..n]).value;
      RunHolds(runId, w, plans[..n], q);
      RecordedOnlyNext(plans);
      if plans[n].recorded {
        HoldsStep(runId, w, RecordedOnly(plans[..n]), q, plans[n]);
      } else {
        assert RecordedOnly(plans) == RecordedOnly(plans[..n]);
      }
    }
  }

  predicate OfPlan(r: Invocation, plan: BatchPlan, lane: nat) {
    && (r.cellIndex, r.batchIndex, r.lane, r.slot) == (plan.cell.index, plan.batchIndex, lane, lane)
    && (r.level, r.family, r.composition) == (plan.cell.level, plan.cell.family, plan.cell.composition)
  }

  lemma RecordCarries(runId: string, w: World, plan: BatchPlan, start: nat, lane: nat)
    requires Runs(w, plan) && lane < plan.cell.level
    ensures var r, run := RecordsFor(runId, w, plan, start)[lane], w.behave(plan).value;
            && r.runId == runId && r.index == start + lane && Carries(r, run.observations[lane], run.referenceNs)
            && OfPlan(r, plan, lane)
  {
    RecordAt(runId, w, plan, start, lane);
    EvidenceReports(w.behave(plan).value.observations[lane].delivery);
  }

  /** The plan of a place. */
  predicate IsPlanOf(plan: BatchPlan, d: Design, k: nat, b: nat) {
    k < 4 * |d.order| && plan in ScheduleOf(d).batches && plan.recorded && plan.cell == CellAt(d, k) && plan.batchIndex == b
  }

  lemma RecordedIsPlanned(plans: seq<BatchPlan>, j: nat)
    requires j < |RecordedOnly(plans)|
    ensures RecordedOnly(plans)[j] in plans && RecordedOnly(plans)[j].recorded
  {
    FlatMapMember((p: BatchPlan) => if p.recorded then [p] else [], plans, RecordedOnly(plans)[j]);
    assert RecordedOnly(plans)[j] in RecordedOnly(plans);
  }

  /**
   In every completed execution each place of the design has a record at its own index, and that record carries
   what its lane observed: the elapsed time, the start against the batch's release, and the evidence delivered.
   */
  lemma ExecutedCarries(runId: string, w: World, d: Design, run: Execution, k: nat, b: nat, lane: nat)
    returns (i: nat, plan: BatchPlan)
    requires Legal(d) && ThreadPerLane(w) && ExecutionOf(runId, w, d) == Some(run)
    requires k < 4 * |d.order| && b < d.recorded && lane < d.order[k / 4]
    ensures IsPlanOf(plan, d, k, b) && Runs(w, plan)
    ensures i < |run.invocations| && run.invocations[i].index == i && run.invocations[i].runId == runId
    ensures Placed(run.invocations[i], d, k, b, lane)
    ensures Carries(run.invocations[i], w.behave(plan).value.observations[lane], w.behave(plan).value.referenceNs)
  {
    var plans := RecordedOnly(ScheduleOf(d).batches);
    var j := PlanOfPlace(d, k, b);
    CellIs(d, k);
    RecordedIsPlanned(ScheduleOf(d).batches, j);
    plan := plans[j];
    i := ExecutedAt(runId, w, d, run, j, lane);
  }

  lemma ExecutedAt(runId: string, w: World, d: Design, run: Execution, j: nat, lane: nat) returns (i: nat)
    requires ThreadPerLane(w) && ExecutionOf(runId, w, d) == Some(run) && j < |RecordedOnly(ScheduleOf(d).batches)|
    requires lane < RecordedOnly(ScheduleOf(d).batches)[j].cell.level
    ensures var plan := RecordedOnly(ScheduleOf(d).batches)[j];
            && Runs(w, plan) && i < |run.invocations| && run.invocations[i].index == i && run.invocations[i].runId == runId
            && OfPlan(run.invocations[i], plan, lane)
            && Carries(run.invocations[i], w.behave(plan).value.observations[lane], w.behave(plan).value.referenceNs)
  {
    var batches := ScheduleOf(d).batches;
    var plans, p := RecordedOnly(batches), RunPlans(runId, w, batches).value;
    RunHolds(runId, w, batches, p);
    assert HoldsPlan(runId, w, plans, p, j);
    i := HeldAt(runId, w, plans, p, j, lane);
  }

  lemma HeldAt(runId: string, w: World, plans: seq<BatchPlan>, p: Progress, j: nat, lane: nat) returns (i: nat)
    requires j < |plans| && HoldsPlan(runId, w, plans, p, j) && lane < plans[j].cell.level
    ensures i < |p.invocations| && p.invocations[i].index == i && p.invocations[i].runId == runId
    ensures OfPlan(p.invocations[i], plans[j], lane)
    ensures var run := w.behave(plans[j]).value; Carries(p.invocations[i], run.observations[lane], run.referenceNs)
  {
    i := Offset(plans, j) + lane;
    RecordCarries(runId, w, plans[j], Offset(plans, j), lane);
    SliceAt(p.invocations, Offset(plans, j), plans[j].cell.level, lane);
  }

  lemma SliceAt<T>(s: seq<T>, from: nat, n: nat, i: nat)
    requires from + n <= |s| && i < n
    ensures s[from..from + n][i] == s[from + i]
  {
  }
}
