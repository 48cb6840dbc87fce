/**
From the executor to the reader: what the recorded executor delivers, the canonical writer
accepts exactly on conditions on the raw deliveries, and what it accepts is read back with
the records as they were executed.
*/
module ExecutedEvidence {
  import opened Wrappers
  import opened Sequences
  import opened Ordering
  import opened FixedSchedule
  import opened RunRecords
  import opened RecordedExecutor
  import opened RunValidation
  import opened RunVerdict
  import opened RunTheorems
  import opened BatchRates
  import opened EvidenceJson
  import opened EvidenceFiles
  import opened CanonicalEvidence
  import opened CanonicalAcceptance

  // ----- what the executor makes -----

  /** A record of this run, made from some lane's delivery. */
  ghost predicate Made(retained: seq<nat>, runId: string, r: Invocation) {
    && r.runId == runId && r.level in retained && r.lane < r.level && r.slot < r.level
    && exists delivery :: r.evidence == EvidenceOf(delivery)
  }

  predicate BatchMade(retained: seq<nat>, runId: string, b: Batch) {
    && b.runId == runId && b.level in retained && WellFormed(b)
    && forall i | 0 <= i < |b.typedCounts| :: b.typedCounts[i].outcome != "" && b.typedCounts[i].count > 0
  }

  ghost predicate AllMade(retained: seq<nat>, runId: string, p: Progress) {
    && (forall i | 0 <= i < |p.invocations| :: Made(retained, runId, p.invocations[i]))
    && (forall i | 0 <= i < |p.batches| :: BatchMade(retained, runId, p.batches[i]))
  }

  lemma RecordIsMade(retained: seq<nat>, runId: string, w: World, plan: BatchPlan, start: nat, lane: nat)
    requires Runs(w, plan) && plan.cell.level in retained && lane < plan.cell.level
    ensures Made(retained, runId, RecordsFor(runId, w, plan, start)[lane])
  {
    RecordAt(runId, w, plan, start, lane);
    var o := w.behave(plan).value.observations[lane];
    assert RecordsFor(runId, w, plan, start)[lane].evidence == EvidenceOf(o.delivery);
  }

  lemma LabelIsText(r: Invocation)
    ensures Label(r) != ""
  {
    if r.evidence.Exceptional? {
      assert Label(r)[0] == 'E';
    } else if r.evidence.cohort == None {
      assert Label(r)[0] == 'U';
    } else {
      assert |CohortLabel(r.evidence.cohort.value)| > 0;
    }
  }

  lemma OutcomeIsText(records: seq<Invocation>, i: nat)
    requires i < |TypedCounts(records)|
    ensures TypedCounts(records)[i].outcome != ""
  {
    var keys := SortedKeys(RunRecords.Labels(records));
    assert keys[i] in keys;
    var j :| 0 <= j < |records| && RunRecords.Labels(records)[j] == keys[i];
    LabelIsText(records[j]);
  }

  lemma BuiltIsMade(retained: seq<nat>, runId: string, index: nat, plan: BatchPlan, referenceNs: nat, records: seq<Invocation>)
    requires records != [] && plan.cell.level in retained
    ensures BatchMade(retained, runId, BuildBatch(runId, index, plan, referenceNs, records))
  {
    BuiltBatchIsWellFormed(runId, index, plan, referenceNs, records);
    forall i | 0 <= i < |TypedCounts(records)| ensures TypedCounts(records)[i].outcome != "" { OutcomeIsText(records, i); }
  }

  lemma StepMade(retained: seq<nat>, runId: string, w: World, p: Progress, plan: BatchPlan)
    requires AllMade(retained, runId, p) && Runs(w, plan) && plan.cell.level > 0 && plan.cell.level in retained
    ensures AllMade(retained, runId, RunRecorded(runId, w, p, plan))
  {
    var records := RecordsFor(runId, w, plan, p.nextInvocation);
    forall lane | 0 <= lane < |records| ensures Made(retained, runId, records[lane]) {
      RecordIsMade(retained, runId, w, plan, p.nextInvocation, lane);
    }
    BuiltIsMade(retained, runId, p.nextBatch, plan, w.behave(plan).value.referenceNs, records);
  }

  lemma {:induction false} RunMade(retained: seq<nat>, runId: string, w: World, plans: seq<BatchPlan>, p: Progress)
    requires RunPlans(runId, w, plans) == Some(p)
    requires forall i | 0 <= i < |plans| :: plans[i].cell.level in retained
    ensures AllMade(retained, runId, p)
  {
    if plans != [] {
      var n := |plans| - 1;
      var q := RunPlans(runId, w, plans[..n]).value;
      RunMade(retained, runId, w, plans[..n], q);
      if plans[n].recorded { StepMade(retained, runId, w, q, plans[n]); }
    }
  }

  lemma LevelsRetained(d: Design)
    requires Legal(d)
    ensures forall i | 0 <= i < |ScheduleOf(d).batches| :: ScheduleOf(d).batches[i].cell.level in d.retained
  {
    var cells, batches := ScheduleOf(d).cells, ScheduleOf(d).batches;
    forall i | 0 <= i < |batches| ensures batches[i].cell.level in d.retained {
      FlatMapMember((cell: Cell) => CellPlans(d, cell), cells, batches[i]);
      assert batches[i] in batches;
      var c :| 0 <= c < |cells| && batches[i] in CellPlans(d, cells[c]);
      OrderRetained(d, c / 4);
    }
  }

  lemma OrderRetained(d: Design, i: nat)
    requires Legal(d) && i < |d.order|
    ensures d.order[i] in d.retained
  {
    assert d.order[i] in multiset(d.order);
    assert d.order[i] in multiset(d.retained);
  }

  // ----- which is publishable when it is sound -----

  lemma ParsedNames(m: map<PhaseName, Reading>)
    requires |ParsePhases(m)| == |PhaseNames|
    ensures Names(ParsePhases(m)) == PhaseNames
    ensures forall i | 0 <= i < |ParsePhases(m)| :: PhaseConstructed(ParsePhases(m)[i])
  {
    PhaseNamesSize();
    ParsedPhases(m, PhaseNames);
  }

  /** A sound record of this run can be published under its run id, and its constructor accepts it. */
  lemma MadePublishable(retained: seq<nat>, runId: string, m: Manifest, r: Invocation)
    requires Made(retained, runId, r) && EvidenceIssues(r) == []
    ensures m.runId == runId ==> Publishable(m, r)
    ensures runId != "" ==> InvocationConstructed(retained, r)
  {
    EvidenceIssuesIff(r);
    var delivery :| r.evidence == EvidenceOf(delivery);
    ParsedNames(delivery.measurement.value);
    PhaseNamesSize();
  }

  lemma AllMadePublishable(retained: seq<nat>, runId: string, m: Manifest, p: Progress, owners: seq<Ownership>)
    requires AllMade(retained, runId, p) && Acceptable(p.invocations) && m.runId == runId
    ensures AllPublishable(m, Execution(p.invocations, p.batches, owners))
  {
    forall i | 0 <= i < |p.invocations| ensures Publishable(m, p.invocations[i]) {
      MadePublishable(retained, runId, m, p.invocations[i]);
    }
  }

  // ----- timed batches, from the raw readings -----

  /** Some lane's call ended after the release. */
  predicate TakesTime(w: World, plan: BatchPlan)
    requires Runs(w, plan)
  {
    var run := w.behave(plan).value;
    exists lane | 0 <= lane < |run.observations| ::
      run.observations[lane].startNs + run.observations[lane].elapsedNs > run.referenceNs
  }

  lemma StopOf(runId: string, w: World, plan: BatchPlan, start: nat, lane: nat)
    requires Runs(w, plan) && lane < plan.cell.level
    ensures var run := w.behave(plan).value;
            Stops(RecordsFor(runId, w, plan, start))[lane]
            == run.observations[lane].startNs + run.observations[lane].elapsedNs - run.referenceNs
  {
    RecordAt(runId, w, plan, start, lane);
  }

  lemma BatchTimedIff(runId: string, w: World, plan: BatchPlan, start: nat, index: nat)
    requires Runs(w, plan) && plan.cell.level > 0
    ensures var run := w.behave(plan).value;
            BuildBatch(runId, index, plan, run.referenceNs, RecordsFor(runId, w, plan, start)).elapsedNs > 0
            <==> TakesTime(w, plan)
  {
    var run, stops := w.behave(plan).value, Stops(RecordsFor(runId, w, plan, start));
    forall lane | 0 <= lane < plan.cell.level
      ensures stops[lane] == run.observations[lane].startNs + run.observations[lane].elapsedNs - run.referenceNs
    {
      StopOf(runId, w, plan, start, lane);
    }
    var last :| 0 <= last < |stops| && stops[last] == Greatest(stops);
    if TakesTime(w, plan) {
      var lane :| 0 <= lane < |run.observations|
               && run.observations[lane].startNs + run.observations[lane].elapsedNs > run.referenceNs;
      assert stops[lane] <= Greatest(stops);
    }
  }

  lemma TimedNext(batches: seq<Batch>, b: Batch)
    ensures AllTimed(batches + [b]) <==> AllTimed(batches) && b.elapsedNs > 0
  {
    if AllTimed(batches + [b]) {
      forall i | 0 <= i < |batches| ensures batches[i].elapsedNs > 0 { assert (batches + [b])[i] == batches[i]; }
      assert (batches + [b])[|batches|] == b;
    }
  }

  ghost predicate AllTakeTime(w: World, plans: seq<BatchPlan>) {
    forall i | 0 <= i < |plans| && plans[i].recorded :: Runs(w, plans[i]) && TakesTime(w, plans[i])
  }

  lemma AllTakeTimeNext(w: World, plans: seq<BatchPlan>)
    requires plans != []
    ensures var n := |plans| - 1;
            AllTakeTime(w, plans) <==>
            AllTakeTime(w, plans[..n]) && (plans[n].recorded ==> Runs(w, plans[n]) && TakesTime(w, plans[n]))
  {
    var n := |plans| - 1;
    assert plans == plans[..n] + [plans[n]];
    if AllTakeTime(w, plans) {
      forall i | 0 <= i < n && plans[..n][i].recorded ensures Runs(w, plans[..n][i]) && TakesTime(w, plans[..n][i]) {
        assert plans[..n][i] == plans[i];
      }
    }
  }

  lemma {:induction false} RunTimedIff(runId: string, w: World, plans: seq<BatchPlan>, p: Progress)
    requires RunPlans(runId, w, plans) == Some(p)
    ensures AllTimed(p.batches) <==> AllTakeTime(w, plans)
  {
    if plans != [] {
      var n := |plans| - 1;
      var q := RunPlans(runId, w, plans[..n]).value;
      RunTimedIff(runId, w, plans[..n], q);
      AllTakeTimeNext(w, plans);
      if plans[n].recorded {
        BatchTimedIff(runId, w, plans[n], q.nextInvocation, q.nextBatch);
        TimedNext(q.batches, RunRecorded(runId, w, q, plans[n]).batches[|q.batches|]);
      }
    }
  }

  // ----- the writer on an executed run -----

  /** Every recorded lane delivered sound evidence, on threads of its own, and something was recorded. */
  ghost predicate Delivers(w: World, d: Design) {
    && (forall i | 0 <= i < |ScheduleOf(d).batches| && ScheduleOf(d).batches[i].recorded ::
          SoundBatch(w, ScheduleOf(d).batches[i]))
    && DistinctThreads(w, d.retained)
    && |d.order| > 0 && d.recorded > 0
  }

  lemma ExecutedValidIff(runId: string, w: World, d: Design, run: Execution)
    requires Legal(d) && ThreadPerLane(w) && ExecutionOf(runId, w, d) == Some(run)
    ensures ValidRun(d, ScheduleOf(d), run) <==> Delivers(w, d)
  {
    var p := RunPlans(runId, w, ScheduleOf(d).batches).value;
    CompletedRunVerdict(runId, w, d, p);
    RunSoundIff(runId, w, ScheduleOf(d).batches, p);
  }

  lemma ExecutedMade(runId: string, w: World, d: Design, run: Execution)
    requires Legal(d) && ThreadPerLane(w) && ExecutionOf(runId, w, d) == Some(run)
    ensures AllMade(d.retained, runId, Progress(run.invocations, run.batches, 0, 0))
    ensures AllTimed(run.batches) <==> AllTakeTime(w, ScheduleOf(d).batches)
  {
    var p := RunPlans(runId, w, ScheduleOf(d).batches).value;
    LevelsRetained(d);
    RunMade(d.retained, runId, w, ScheduleOf(d).batches, p);
    RunTimedIff(runId, w, ScheduleOf(d).batches, p);
  }

  lemma ExecutedPublishableIff(runId: string, w: World, d: Design, m: Manifest, run: Execution)
    requires Legal(d) && ThreadPerLane(w) && ExecutionOf(runId, w, d) == Some(run) && ValidRun(d, ScheduleOf(d), run)
    ensures AllPublishable(m, run) <==> m.runId == runId
  {
    ExecutedMade(runId, w, d, run);
    ValidIsAcceptable(d, run);
    SomethingRecorded(d, run);
    if m.runId == runId {
      AllMadePublishable(d.retained, runId, m, Progress(run.invocations, run.batches, 0, 0), run.ownership);
    } else {
      assert run.batches[0].runId == runId;
    }
  }

  /**
   The writer accepts an executed run exactly when every recorded lane delivered sound evidence, no
   level's lanes shared a thread, something was recorded, every recorded batch took some time, and the
   manifest names the run.
   */
  lemma ExecutedAcceptedIff(runId: string, w: World, d: Design, m: Manifest, run: Execution)
    requires Legal(d) && ThreadPerLane(w) && ExecutionOf(runId, w, d) == Some(run)
    ensures ValidateCanonical(d, m, run).Some? <==>
            Delivers(w, d) && AllTakeTime(w, ScheduleOf(d).batches) && m.runId == runId
  {
    CanonicalIff(d, m, run);
    ExecutedValidIff(runId, w, d, run);
    ExecutedMade(runId, w, d, run);
    if ValidRun(d, ScheduleOf(d), run) { ExecutedPublishableIff(runId, w, d, m, run); }
  }

  // ----- and its files are read back -----

  ghost predicate PositiveThreads(w: World, levels: seq<nat>)
    requires ThreadPerLane(w)
  {
    forall i, lane | 0 <= i < |levels| && 0 <= lane < levels[i] :: w.threads(levels[i])[lane] > 0
  }

  lemma {:induction false} OwnersConstructed(w: World, levels: seq<nat>, retained: seq<nat>)
    requires ThreadPerLane(w) && PositiveThreads(w, levels) && forall i | 0 <= i < |levels| :: levels[i] in retained
    ensures forall i | 0 <= i < |OwnersOf(w, levels)| :: OwnershipConstructed(retained, OwnersOf(w, levels)[i])
  {
    if levels != [] {
      var n := |levels| - 1;
      OwnersConstructed(w, levels[..n], retained);
    }
  }

  lemma MadeConstructed(retained: seq<nat>, runId: string, p: Progress, owners: seq<Ownership>)
    requires AllMade(retained, runId, p) && Acceptable(p.invocations) && runId != ""
    requires forall i | 0 <= i < |owners| :: OwnershipConstructed(retained, owners[i])
    ensures RunConstructed(retained, Execution(p.invocations, p.batches, owners))
  {
    forall i | 0 <= i < |p.invocations| ensures InvocationConstructed(retained, p.invocations[i]) {
      MadePublishable(retained, runId, Manifest(runId, "", "", "", false, ""), p.invocations[i]);
    }
  }

  lemma ExecutedOwners(runId: string, w: World, d: Design, run: Execution)
    requires Legal(d) && ThreadPerLane(w) && ExecutionOf(runId, w, d) == Some(run) && PositiveThreads(w, d.order)
    ensures forall i | 0 <= i < |run.ownership| :: OwnershipConstructed(d.retained, run.ownership[i])
  {
    forall i | 0 <= i < |d.order| ensures d.order[i] in d.retained { OrderRetained(d, i); }
    OwnersConstructed(w, d.order, d.retained);
  }

  lemma ExecutedConstructed(runId: string, w: World, d: Design, run: Execution)
    requires Legal(d) && ThreadPerLane(w) && ExecutionOf(runId, w, d) == Some(run) && ValidRun(d, ScheduleOf(d), run)
    requires runId != "" && PositiveThreads(w, d.order)
    ensures RunConstructed(d.retained, run)
  {
    ExecutedMade(runId, w, d, run);
    ValidIsAcceptable(d, run);
    ExecutedOwners(runId, w, d, run);
    MadeConstructed(d.retained, runId, Progress(run.invocations, run.batches, 0, 0), run.ownership);
  }

  lemma InOrderStays<T>(s: seq<T>, index: T -> nat)
    requires forall i | 0 <= i < |s| :: index(s[i]) == i
    ensures SortBy(s, IndexKey(index)) == s
  {
    forall i, j | 0 <= i < j < |s| ensures !KeyLess(IndexKey(index)(s[j]), IndexKey(index)(s[i])) {
      NumberKeyLess(j, i);
    }
    SortedStays(s, IndexKey(index));
  }

  /** The executor numbers records as it makes them, so the writer leaves them in place. */
  lemma ExecutedInOrder(runId: string, w: World, d: Design, run: Execution)
    requires Legal(d) && ThreadPerLane(w) && ExecutionOf(runId, w, d) == Some(run)
    ensures Arranged(run).invocations == run.invocations && Arranged(run).batches == run.batches
  {
    var plans, p := RecordedOnly(ScheduleOf(d).batches), RunPlans(runId, w, ScheduleOf(d).batches).value;
    RunTracks(runId, w, ScheduleOf(d).batches, p);
    TrackedInvocationsMatch(runId, plans, p.invocations);
    forall j | 0 <= j < |p.batches| ensures BatchIndex(p.batches[j]) == j {
      assert BatchTracks(runId, plans, p.invocations, j, p.batches[j]);
    }
    InOrderStays(run.invocations, InvocationIndex);
    InOrderStays(run.batches, BatchIndex);
  }

  /**
   End to end: from lanes that deliver, under any level order and any shuffle of work, through the
   writer's checks and the six files, the reader gets the manifest, the executed invocation and batch
   records in their order, and aggregates equal to those it computes again.
   */
  lemma ExecutedReadsBack(render: Json -> string, parse: string -> Option<Json>, runId: string, w: World, d: Design,
                          m: Manifest, run: Execution)
    requires Legal(d) && ThreadPerLane(w) && ExecutionOf(runId, w, d) == Some(run) && Inverts(render, parse)
    requires Delivers(w, d) && AllTakeTime(w, ScheduleOf(d).batches)
    requires m.runId == runId && runId != "" && PositiveThreads(w, d.order)
    ensures ConstructPayloads(d, render, m, run).Some?
    ensures var back := ReadPayloads(d, parse, runId, ConstructPayloads(d, render, m, run).value);
            && back.Some? && back.value.manifest == m
            && back.value.run.invocations == run.invocations && back.value.run.batches == run.batches
            && multiset(back.value.run.ownership) == multiset(run.ownership)
            && ValidateCanonical(d, m, run) == Some((back.value.aggregates, back.value.rates))
  {
    ExecutedAcceptedIff(runId, w, d, m, run);
    ExecutedValidIff(runId, w, d, run);
    ExecutedConstructed(runId, w, d, run);
    ExecutedInOrder(runId, w, d, run);
    AcceptedConstructs(d, render, m, run);
    PublishedReadsBack(d, render, parse, m, run);
  }

  lemma AcceptedConstructs(d: Design, render: Json -> string, m: Manifest, run: Execution)
    ensures ConstructPayloads(d, render, m, run).Some? <==> ValidateCanonical(d, m, run).Some?
  {
  }
}
