/**
The executor against the validator: a completed execution is numbered exactly as the
validator expects, so its verdict depends only on the evidence the lanes delivered.
*/
module RunTheorems {
  import opened Wrappers
  import opened Sequences
  import opened Ordering
  import opened FixedSchedule
  import opened RunRecords
  import opened RecordedExecutor
  import opened Reconciliation
  import opened RunValidation
  import opened RunVerdict

  // ----- when the run completes -----

  predicate Passes(runId: string, w: World, plan: BatchPlan) {
    && Runs(w, plan) && plan.cell.level > 0
    && (plan.recorded || Acceptable(RecordsFor(runId, w, plan, 0)))
  }

  predicate AllPass(runId: string, w: World, plans: seq<BatchPlan>) {
    forall i | 0 <= i < |plans| :: Passes(runId, w, plans[i])
  }

  lemma AllPassNext(runId: string, w: World, plans: seq<BatchPlan>)
    requires plans != []
    ensures AllPass(runId, w, plans) <==>
            AllPass(runId, w, plans[..|plans| - 1]) && Passes(runId, w, plans[|plans| - 1])
  {
    var n := |plans| - 1;
    assert forall i | 0 <= i < n :: plans[..n][i] == plans[i];
    if AllPass(runId, w, plans) {
      forall i | 0 <= i < n ensures Passes(runId, w, plans[..n][i]) { assert plans[..n][i] == plans[i]; }
    } else {
      var i :| 0 <= i < |plans| && !Passes(runId, w, plans[i]);
      assert i < n ==> plans[..n][i] == plans[i];
    }
  }

  lemma RunPlanIff(runId: string, w: World, p: Progress, plan: BatchPlan)
    ensures RunPlan(runId, w, p, plan).Some? <==> Passes(runId, w, plan)
  {
  }

  lemma {:induction false} CompletesIff(runId: string, w: World, plans: seq<BatchPlan>)
    ensures RunPlans(runId, w, plans).Some? <==> AllPass(runId, w, plans)
  {
    if plans != [] {
      var n := |plans| - 1;
      CompletesIff(runId, w, plans[..n]);
      AllPassNext(runId, w, plans);
      match RunPlans(runId, w, plans[..n])
      case None =>
      case Some(q) => RunPlanIff(runId, w, q, plans[n]);
    }
  }

  // ----- the numbering -----

  /** Where the records of the j-th plan start. */
  function Offset(plans: seq<BatchPlan>, j: nat): nat
    requires j <= |plans|
  {
    |PlannedInvocations(plans[..j])|
  }

  lemma OffsetNext(plans: seq<BatchPlan>, j: nat)
    requires j < |plans|
    ensures Offset(plans, j + 1) == Offset(plans, j) + plans[j].cell.level
  {
    assert plans[..j + 1][..j] == plans[..j];
  }

  lemma {:induction false} OffsetBound(plans: seq<BatchPlan>, j: nat)
    requires j <= |plans|
    ensures Offset(plans, j) <= |PlannedInvocations(plans)|
    decreases |plans| - j
  {
    if j < |plans| {
      OffsetNext(plans, j);
      OffsetBound(plans, j + 1);
    } else {
      assert plans[..j] == plans;
    }
  }

  ghost predicate InvocationsTrack(runId: string, plans: seq<BatchPlan>, invocations: seq<Invocation>) {
    && |invocations| == |PlannedInvocations(plans)|
    && forall i | 0 <= i < |invocations| ::
         InvocationAgrees(PlannedInvocations(plans)[i], invocations[i]) && invocations[i].runId == runId
  }

  ghost predicate BatchTracks(runId: string, plans: seq<BatchPlan>, invocations: seq<Invocation>, j: nat, b: Batch)
    requires j < |plans|
  {
    && BatchAgrees(PlannedBatch(j, plans[j]), b) && b.runId == runId
    && Offset(plans, j) + plans[j].cell.level <= |invocations|
    && Faithful(b, invocations[Offset(plans, j)..Offset(plans, j) + plans[j].cell.level])
  }

  ghost predicate Tracks(runId: string, plans: seq<BatchPlan>, p: Progress) {
    && InvocationsTrack(runId, plans, p.invocations)
    && p.nextInvocation == |p.invocations| && p.nextBatch == |p.batches| == |plans|
    && forall j | 0 <= j < |plans| :: BatchTracks(runId, plans, p.invocations, j, p.batches[j])
  }

  lemma InvocationsTrackStep(runId: string, w: World, plans: seq<BatchPlan>, invocations: seq<Invocation>, plan: BatchPlan)
    requires InvocationsTrack(runId, plans, invocations) && Runs(w, plan)
    ensures InvocationsTrack(runId, plans + [plan], invocations + RecordsFor(runId, w, plan, |invocations|))
  {
    assert (plans + [plan])[..|plans|] == plans;
    assert PlannedInvocations(plans + [plan]) == PlannedInvocations(plans) + Lanes(plan, |invocations|);
  }

  lemma BatchTracksLater(runId: string, plans: seq<BatchPlan>, invocations: seq<Invocation>, j: nat, b: Batch,
                         plan: BatchPlan, more: seq<Invocation>)
    requires j < |plans| && BatchTracks(runId, plans, invocations, j, b)
    ensures BatchTracks(runId, plans + [plan], invocations + more, j, b)
  {
    assert (plans + [plan])[..j] == plans[..j] && (plans + [plan])[j] == plans[j];
    SliceOfPrefix(invocations, more, Offset(plans, j), Offset(plans, j) + plans[j].cell.level);
  }

  lemma SliceOfPrefix<T>(s: seq<T>, more: seq<T>, from: nat, to: nat)
    requires from <= to <= |s|
    ensures (s + more)[from..to] == s[from..to]
  {
  }

  lemma BuiltIsFaithful(runId: string, index: nat, plan: BatchPlan, referenceNs: nat, records: seq<Invocation>)
    requires records != []
    ensures Faithful(BuildBatch(runId, index, plan, referenceNs, records), records)
    ensures BatchAgrees(PlannedBatch(index, plan), BuildBatch(runId, index, plan, referenceNs, records))
  {
  }

  lemma BuiltTracks(runId: string, referenceNs: nat, plans: seq<BatchPlan>, invocations: seq<Invocation>,
                    plan: BatchPlan, records: seq<Invocation>)
    requires |invocations| == |PlannedInvocations(plans)| && |records| == plan.cell.level > 0
    ensures BatchTracks(runId, plans + [plan], invocations + records, |plans|,
                        BuildBatch(runId, |plans|, plan, referenceNs, records))
  {
    var all := plans + [plan];
    assert all[..|plans|] == plans && all[|plans|] == plan;
    assert (invocations + records)[|invocations|..|invocations| + plan.cell.level] == records;
    BuiltIsFaithful(runId, |plans|, plan, referenceNs, records);
  }

  lemma BatchTracksNew(runId: string, w: World, plans: seq<BatchPlan>, invocations: seq<Invocation>, plan: BatchPlan)
    requires InvocationsTrack(runId, plans, invocations) && Runs(w, plan) && plan.cell.level > 0
    ensures var records := RecordsFor(runId, w, plan, |invocations|);
            BatchTracks(runId, plans + [plan], invocations + records, |plans|,
                        BuildBatch(runId, |plans|, plan, w.behave(plan).value.referenceNs, records))
  {
    var records := RecordsFor(runId, w, plan, |invocations|);
    BuiltTracks(runId, w.behave(plan).value.referenceNs, plans, invocations, plan, records);
  }

  lemma TracksStep(runId: string, w: World, plans: seq<BatchPlan>, p: Progress, plan: BatchPlan)
    requires Tracks(runId, plans, p) && Runs(w, plan) && plan.cell.level > 0
    ensures Tracks(runId, plans + [plan], RunRecorded(runId, w, p, plan))
  {
    var q := RunRecorded(runId, w, p, plan);
    var records := RecordsFor(runId, w, plan, p.nextInvocation);
    InvocationsTrackStep(runId, w, plans, p.invocations, plan);
    BatchTracksNew(runId, w, plans, p.invocations, plan);
    forall j | 0 <= j < |plans| ensures BatchTracks(runId, plans + [plan], q.invocations, j, q.batches[j]) {
      BatchTracksLater(runId, plans, p.invocations, j, p.batches[j], plan, records);
    }
  }

  lemma RecordedOnlyNext(plans: seq<BatchPlan>)
    requires plans != []
    ensures var n := |plans| - 1;
            RecordedOnly(plans) == RecordedOnly(plans[..n]) + (if plans[n].recorded then [plans[n]] else [])
  {
  }

  /** The running indexes of a completed run are the positions the validator derives. */
  lemma {:induction false} RunTracks(runId: string, w: World, plans: seq<BatchPlan>, p: Progress)
    requires RunPlans(runId, w, plans) == Some(p)
    ensures Tracks(runId, RecordedOnly(plans), p)
  {
    if plans != [] {
      var n := |plans| - 1;
      var q := RunPlans(runId, w, plans[..n]).value;
      RunTracks(runId, w, plans[..n], q);
      RecordedOnlyNext(plans);
      if plans[n].recorded {
        TracksStep(runId, w, RecordedOnly(plans[..n]), q, plans[n]);
      } else {
        assert RecordedOnly(plans) == RecordedOnly(plans[..n]);
      }
    }
  }

  // ----- which is what the validator checks -----

  lemma TrackedInvocationsMatch(runId: string, plans: seq<BatchPlan>, invocations: seq<Invocation>)
    requires InvocationsTrack(runId, plans, invocations)
    ensures forall i | 0 <= i < |invocations| :: invocations[i].index == i
    ensures InvocationsMatch(plans, invocations)
  {
    forall i | 0 <= i < |invocations| ensures invocations[i].index == i {
      PlannedShape(plans, i);
    }
  }

  lemma TrackedBatchesMatch(runId: string, plans: seq<BatchPlan>, p: Progress)
    requires Tracks(runId, plans, p)
    ensures BatchesMatch(plans, p.batches)
  {
    forall j | 0 <= j < |plans| ensures BatchAgrees(PlannedBatch(j, plans[j]), p.batches[j]) {
      assert BatchTracks(runId, plans, p.invocations, j, p.batches[j]);
    }
  }

  lemma TrackedKeysDistinct(runId: string, plans: seq<BatchPlan>, invocations: seq<Invocation>)
    requires DistinctPlans(plans) && InvocationsTrack(runId, plans, invocations)
    ensures DistinctBy(invocations, InvocationKey)
  {
    TrackedInvocationsMatch(runId, plans, invocations);
    PlannedKeysDistinct(plans);
    PlannedPins(plans);
    EnumeratesKeys(PlannedInvocations(plans), invocations, PlannedKey, InvocationKey, InvocationIndex, InvocationAgrees);
  }

  lemma LaneIsAt(runId: string, plans: seq<BatchPlan>, invocations: seq<Invocation>, j: nat, lane: nat)
    requires DistinctBy(invocations, InvocationKey) && InvocationsTrack(runId, plans, invocations)
    requires j < |plans| && lane < plans[j].cell.level
    ensures var k := SlotKey(plans[j].cell.index, plans[j].batchIndex, lane);
            && Offset(plans, j) + lane < |invocations|
            && k in Found(invocations) && Found(invocations)[k] == invocations[Offset(plans, j) + lane]
  {
    PlannedLane(plans, j, lane);
    var i := Offset(plans, j) + lane;
    assert InvocationAgrees(PlannedInvocations(plans)[i], invocations[i]);
    DictionaryEntry(invocations, InvocationKey, i);
  }

  /** The lanes found by key are the slice of the run the batch was built from. */
  lemma LanesAreSlice(runId: string, plans: seq<BatchPlan>, invocations: seq<Invocation>, j: nat)
    requires DistinctPlans(plans) && InvocationsTrack(runId, plans, invocations) && j < |plans|
    ensures LanesFound(Found(invocations), plans[j])
    ensures Offset(plans, j) + plans[j].cell.level <= |invocations|
    ensures LaneRecords(Found(invocations), plans[j])
         == invocations[Offset(plans, j)..Offset(plans, j) + plans[j].cell.level]
  {
    TrackedKeysDistinct(runId, plans, invocations);
    OffsetNext(plans, j);
    OffsetBound(plans, j + 1);
    var found, slice := Found(invocations), invocations[Offset(plans, j)..Offset(plans, j) + plans[j].cell.level];
    forall lane | 0 <= lane < plans[j].cell.level
      ensures var k := SlotKey(plans[j].cell.index, plans[j].batchIndex, lane);
              k in found && found[k] == slice[lane]
    {
      LaneIsAt(runId, plans, invocations, j, lane);
    }
    LanesFrom(found, plans[j], slice);
  }

  lemma LanesFrom(found: map<Key, Invocation>, plan: BatchPlan, slice: seq<Invocation>)
    requires |slice| == plan.cell.level
    requires forall lane | 0 <= lane < plan.cell.level ::
               var k := SlotKey(plan.cell.index, plan.batchIndex, lane); k in found && found[k] == slice[lane]
    ensures LanesFound(found, plan) && LaneRecords(found, plan) == slice
  {
  }

  lemma TrackedBatchesFaithful(runId: string, plans: seq<BatchPlan>, p: Progress)
    requires DistinctPlans(plans) && Tracks(runId, plans, p)
    ensures BatchesFaithful(plans, p.invocations, p.batches)
  {
    forall j | 0 <= j < |plans|
      ensures && p.batches[j].index == j
              && LanesFound(Found(p.invocations), plans[j])
              && Faithful(p.batches[j], LaneRecords(Found(p.invocations), plans[j]))
    {
      assert BatchTracks(runId, plans, p.invocations, j, p.batches[j]);
      LanesAreSlice(runId, plans, p.invocations, j);
    }
  }

  lemma TrackedRunIds(runId: string, plans: seq<BatchPlan>, p: Progress)
    requires Tracks(runId, plans, p)
    ensures |RunIds(p.invocations, p.batches)| == 1 <==> plans != []
  {
    if plans == [] {
      assert RunIds(p.invocations, p.batches) == {};
    } else {
      forall j | 0 <= j < |p.batches| ensures p.batches[j].runId == runId { BatchRunId(runId, plans, p, j); }
      SingleRunId(runId, p.invocations, p.batches);
    }
  }

  lemma BatchRunId(runId: string, plans: seq<BatchPlan>, p: Progress, j: nat)
    requires Tracks(runId, plans, p) && j < |p.batches|
    ensures p.batches[j].runId == runId
  {
    assert BatchTracks(runId, plans, p.invocations, j, p.batches[j]);
  }

  lemma SingleRunId(runId: string, invocations: seq<Invocation>, batches: seq<Batch>)
    requires forall i | 0 <= i < |invocations| :: invocations[i].runId == runId
    requires batches != [] && forall j | 0 <= j < |batches| :: batches[j].runId == runId
    ensures RunIds(invocations, batches) == {runId}
  {
    assert batches[0] in batches;
  }

  lemma RecordedPlansExist(d: Design)
    ensures RecordedOnly(ScheduleOf(d).batches) != [] <==> |d.order| > 0 && d.recorded > 0
  {
    RecordedOfPlans(d, ScheduleOf(d).cells);
    var f := (cell: Cell) => RecordedCellPlans(d, cell);
    if |d.order| > 0 && d.recorded > 0 {
      FlatMapMember(f, ScheduleOf(d).cells, RecordedCellPlans(d, ScheduleOf(d).cells[0])[0]);
    } else {
      FlatMapNone(f, ScheduleOf(d).cells);
    }
  }

  /** However the lanes behaved, the verdict on a completed run hangs on evidence and threads alone. */
  lemma CompletedRunVerdict(runId: string, w: World, d: Design, p: Progress)
    requires Legal(d) && ThreadPerLane(w)
    requires RunPlans(runId, w, ScheduleOf(d).batches) == Some(p)
    ensures ValidRun(d, ScheduleOf(d), Execution(p.invocations, p.batches, OwnersOf(w, d.order))) <==>
            && Acceptable(p.invocations)
            && DistinctThreads(w, d.retained)
            && |d.order| > 0 && d.recorded > 0
  {
    var plans := RecordedOnly(ScheduleOf(d).batches);
    RecordedPlans(d);
    RunTracks(runId, w, ScheduleOf(d).batches, p);
    TrackedInvocationsMatch(runId, plans, p.invocations);
    TrackedBatchesMatch(runId, plans, p);
    TrackedBatchesFaithful(runId, plans, p);
    TrackedRunIds(runId, plans, p);
    RecordedPlansExist(d);
    ExecutorOwns(w, d);
  }

  // ----- down to the raw deliveries -----

  ghost predicate SoundBatch(w: World, plan: BatchPlan) {
    && Runs(w, plan)
    && forall lane | 0 <= lane < plan.cell.level ::
         SoundDelivery(w.behave(plan).value.observations[lane].delivery, plan.cell)
  }

  lemma LaneSoundIff(runId: string, w: World, plan: BatchPlan, start: nat, lane: nat)
    requires Runs(w, plan) && lane < plan.cell.level
    ensures EvidenceIssues(RecordsFor(runId, w, plan, start)[lane]) == []
            <==> SoundDelivery(w.behave(plan).value.observations[lane].delivery, plan.cell)
  {
    var run := w.behave(plan).value;
    RecordAt(runId, w, plan, start, lane);
    RecordSoundIff(runId, start + lane, plan, lane, run.observations[lane], run.referenceNs);
  }

  lemma RecordAt(runId: string, w: World, plan: BatchPlan, start: nat, lane: nat)
    requires Runs(w, plan) && lane < plan.cell.level
    ensures var run := w.behave(plan).value;
            && run.observations[lane].startNs >= run.referenceNs
            && RecordsFor(runId, w, plan, start)[lane]
               == RecordOf(runId, start + lane, plan, lane, run.observations[lane], run.referenceNs)
  {
  }

  lemma RecordsSoundIff(runId: string, w: World, plan: BatchPlan, start: nat)
    requires Runs(w, plan)
    ensures Acceptable(RecordsFor(runId, w, plan, start)) <==> SoundBatch(w, plan)
  {
    var records := RecordsFor(runId, w, plan, start);
    var observations := w.behave(plan).value.observations;
    forall lane | 0 <= lane < |records|
      ensures EvidenceIssues(records[lane]) == [] <==> SoundDelivery(observations[lane].delivery, plan.cell)
    {
      LaneSoundIff(runId, w, plan, start, lane);
    }
    SameVerdicts(records, observations, plan.cell);
  }

  lemma SameVerdicts(records: seq<Invocation>, observations: seq<Observation>, cell: Cell)
    requires |records| == |observations|
    requires forall i | 0 <= i < |records| ::
               EvidenceIssues(records[i]) == [] <==> SoundDelivery(observations[i].delivery, cell)
    ensures Acceptable(records) <==> forall i | 0 <= i < |observations| :: SoundDelivery(observations[i].delivery, cell)
  {
  }

  lemma AcceptableConcat(s: seq<Invocation>, t: seq<Invocation>)
    ensures Acceptable(s + t) <==> Acceptable(s) && Acceptable(t)
  {
    if Acceptable(s + t) {
      forall i | 0 <= i < |s| ensures EvidenceIssues(s[i]) == [] { assert (s + t)[i] == s[i]; }
      forall i | 0 <= i < |t| ensures EvidenceIssues(t[i]) == [] { assert (s + t)[|s| + i] == t[i]; }
    }
  }

  ghost predicate RecordedSound(w: World, plans: seq<BatchPlan>) {
    forall i | 0 <= i < |plans| && plans[i].recorded :: SoundBatch(w, plans[i])
  }

  lemma {:induction false} RecordedSoundNext(w: World, plans: seq<BatchPlan>)
    requires plans != []
    ensures var n := |plans| - 1;
            RecordedSound(w, plans) <==> RecordedSound(w, plans[..n]) && (plans[n].recorded ==> SoundBatch(w, plans[n]))
  {
    var n := |plans| - 1;
    assert forall i | 0 <= i < n :: plans[..n][i] == plans[i];
  }

  lemma {:induction false} RunSoundIff(runId: string, w: World, plans: seq<BatchPlan>, p: Progress)
    requires RunPlans(runId, w, plans) == Some(p)
    ensures Acceptable(p.invocations) <==> RecordedSound(w, plans)
  {
    if plans != [] {
      var n := |plans| - 1;
      var q := RunPlans(runId, w, plans[..n]).value;
      RunSoundIff(runId, w, plans[..n], q);
      RecordedSoundNext(w, plans);
      if plans[n].recorded {
        RecordsSoundIff(runId, w, plans[n], q.nextInvocation);
        AcceptableConcat(q.invocations, RecordsFor(runId, w, plans[n], q.nextInvocation));
      }
    }
  }

  lemma ScheduleConstructed(d: Design)
    requires Legal(d)
    ensures Constructed(ScheduleOf(d))
  {
    var f := (cell: Cell) => CellPlans(d, cell);
    var cells, batches := ScheduleOf(d).cells, ScheduleOf(d).batches;
    forall i | 0 <= i < |batches| ensures batches[i].cell.level > 0 {
      FlatMapMember(f, cells, batches[i]);
      assert batches[i] in batches;
      var c :| 0 <= c < |cells| && batches[i] in f(cells[c]);
      assert cells[c].level == d.order[c / 4];
    }
  }

  /**
   The recorded experiment end to end. It completes exactly when every batch comes back and
   every warmup is clean; a completed run is VALID exactly when every recorded lane delivered
   sound evidence, no level's lanes shared a thread, and something was recorded at all.
   */
  method ExecuteAndValidate(runId: string, w: World, d: Design)
    returns (r: Option<(Execution, seq<RunIssue>)>)
    requires Legal(d) && ThreadPerLane(w)
    ensures r.Some? <==> AllPass(runId, w, ScheduleOf(d).batches)
    ensures r.Some? ==> ExecutionOf(runId, w, d) == Some(r.value.0)
    ensures r.Some? ==>
              (r.value.1 == [] <==>
               && (forall i | 0 <= i < |ScheduleOf(d).batches| && ScheduleOf(d).batches[i].recorded ::
                     SoundBatch(w, ScheduleOf(d).batches[i]))
               && DistinctThreads(w, d.retained)
               && |d.order| > 0 && d.recorded > 0)
  {
    var schedule := GenerateFixedSchedule(d);
    CompletesIff(runId, w, schedule.batches);
    ScheduleConstructed(d);
    var execution := Execute(runId, w, d, schedule);
    if execution == None {
      return None;
    }
    ghost var p := RunPlans(runId, w, schedule.batches).value;
    var issues := ValidateRecordedRun(d, schedule, execution.value);
    CompletedRunVerdict(runId, w, d, p);
    RunSoundIff(runId, w, schedule.batches, p);
    r := Some((execution.value, issues));
  }
}
