/** Counts of a VALID run: nothing the lanes completed is lost or counted twice, in whatever order it is listed. */
module RunConservation {
  import opened Sequences
  import opened FixedSchedule
  import opened RunRecords
  import opened RecordedExecutor
  import opened Reconciliation
  import opened RunValidation
  import opened RunVerdict
  import opened RunTheorems

  function Completed(batches: seq<Batch>): int {
    Sum((b: Batch) => b.completed, batches)
  }

  function AcceptedTotal(batches: seq<Batch>): int {
    Sum((b: Batch) => b.accepted, batches)
  }

  lemma {:induction false} AcceptedIsSum(records: seq<Invocation>)
    ensures AcceptedCount(records) == Sum((r: Invocation) => if IsAccepted(r) then 1 else 0, records)
  {
    if records != [] { AcceptedIsSum(records[..|records| - 1]); }
  }

  lemma AcceptedConcat(s: seq<Invocation>, t: seq<Invocation>)
    ensures AcceptedCount(s + t) == AcceptedCount(s) + AcceptedCount(t)
  {
    AcceptedIsSum(s + t);
    AcceptedIsSum(s);
    AcceptedIsSum(t);
    SumConcat((r: Invocation) => if IsAccepted(r) then 1 else 0, s, t);
  }

  /** Batches that are faithful to consecutive slices count the whole run. */
  predicate FaithfulSlices(plans: seq<BatchPlan>, invocations: seq<Invocation>, batches: seq<Batch>) {
    && |invocations| == |PlannedInvocations(plans)| && |batches| == |plans|
    && forall j | 0 <= j < |plans| ::
         && Offset(plans, j) + plans[j].cell.level <= |invocations|
         && Faithful(batches[j], invocations[Offset(plans, j)..Offset(plans, j) + plans[j].cell.level])
  }

  lemma CompletedNext(batches: seq<Batch>, m: nat)
    requires m < |batches|
    ensures Completed(batches[..m + 1]) == Completed(batches[..m]) + batches[m].completed
    ensures AcceptedTotal(batches[..m + 1]) == AcceptedTotal(batches[..m]) + batches[m].accepted
  {
    assert batches[..m + 1][..m] == batches[..m];
  }

  lemma AcceptedNext(invocations: seq<Invocation>, from: nat, to: nat)
    requires from <= to <= |invocations|
    ensures AcceptedCount(invocations[..to]) == AcceptedCount(invocations[..from]) + AcceptedCount(invocations[from..to])
  {
    assert invocations[..to] == invocations[..from] + invocations[from..to];
    AcceptedConcat(invocations[..from], invocations[from..to]);
  }

  /** What conservation needs of faithful slices: bounds, completed and accepted counts. */
  predicate CountedSlices(plans: seq<BatchPlan>, invocations: seq<Invocation>, batches: seq<Batch>) {
    && |batches| == |plans|
    && forall j | 0 <= j < |plans| ::
         && Offset(plans, j) + plans[j].cell.level <= |invocations|
         && batches[j].completed == plans[j].cell.level
         && batches[j].accepted
            == AcceptedCount(invocations[Offset(plans, j)..Offset(plans, j) + plans[j].cell.level])
  }

  lemma FaithfulIsCounted(plans: seq<BatchPlan>, invocations: seq<Invocation>, batches: seq<Batch>)
    requires FaithfulSlices(plans, invocations, batches)
    ensures CountedSlices(plans, invocations, batches)
  {
    forall j | 0 <= j < |plans|
      ensures && Offset(plans, j) + plans[j].cell.level <= |invocations|
              && batches[j].completed == plans[j].cell.level
              && batches[j].accepted
                 == AcceptedCount(invocations[Offset(plans, j)..Offset(plans, j) + plans[j].cell.level])
    {
      assert Faithful(batches[j], invocations[Offset(plans, j)..Offset(plans, j) + plans[j].cell.level]);
    }
  }

  lemma {:induction false} SlicesConserve(plans: seq<BatchPlan>, invocations: seq<Invocation>, batches: seq<Batch>, n: nat)
    requires CountedSlices(plans, invocations, batches) && n <= |plans|
    ensures Offset(plans, n) <= |invocations|
    ensures Completed(batches[..n]) == Offset(plans, n)
    ensures AcceptedTotal(batches[..n]) == AcceptedCount(invocations[..Offset(plans, n)])
  {
    if n == 0 {
      assert plans[..0] == [];
      assert invocations[..0] == [];
    } else {
      var m := n - 1;
      SlicesConserve(plans, invocations, batches, m);
      var from := Offset(plans, m);
      OffsetNext(plans, m);
      CompletedNext(batches, m);
      AcceptedNext(invocations, from, from + plans[m].cell.level);
    }
  }

  lemma SliceTotals(plans: seq<BatchPlan>, invocations: seq<Invocation>, batches: seq<Batch>)
    requires FaithfulSlices(plans, invocations, batches)
    ensures Completed(batches) == |invocations|
    ensures AcceptedTotal(batches) == AcceptedCount(invocations)
  {
    FaithfulIsCounted(plans, invocations, batches);
    SlicesConserve(plans, invocations, batches, |plans|);
    assert plans[..|plans|] == plans && batches[..|plans|] == batches;
    assert invocations[..|invocations|] == invocations;
  }

  // ----- a valid run in schedule order -----

  lemma OneRunId(invocations: seq<Invocation>, batches: seq<Batch>) returns (runId: string)
    requires |RunIds(invocations, batches)| == 1
    ensures forall i | 0 <= i < |invocations| :: invocations[i].runId == runId
  {
    var ids := RunIds(invocations, batches);
    runId :| runId in ids;
    assert |ids - {runId}| == 0;
    forall i | 0 <= i < |invocations| ensures invocations[i].runId == runId {
      assert invocations[i] in invocations;
      assert invocations[i].runId in ids;
    }
  }

  lemma SortedInvocations(plans: seq<BatchPlan>, invocations: seq<Invocation>) returns (sorted: seq<Invocation>)
    requires InvocationsMatch(plans, invocations)
    ensures multiset(sorted) == multiset(invocations) && |sorted| == |PlannedInvocations(plans)|
    ensures forall i | 0 <= i < |sorted| :: InvocationAgrees(PlannedInvocations(plans)[i], sorted[i])
  {
    sorted := SortByIndex(invocations, InvocationIndex);
    forall i | 0 <= i < |sorted| ensures InvocationAgrees(PlannedInvocations(plans)[i], sorted[i]) {
      assert sorted[i] in multiset(sorted);
      assert sorted[i] in multiset(invocations);
      var j :| 0 <= j < |invocations| && invocations[j] == sorted[i];
      assert InvocationAgrees(PlannedInvocations(plans)[InvocationIndex(invocations[j])], invocations[j]);
    }
  }

  lemma SortedBatches(plans: seq<BatchPlan>, invocations: seq<Invocation>, batches: seq<Batch>) returns (sorted: seq<Batch>)
    requires BatchesMatch(plans, batches) && BatchesFaithful(plans, invocations, batches)
    ensures multiset(sorted) == multiset(batches) && |sorted| == |plans|
    ensures forall j | 0 <= j < |sorted| ::
              && LanesFound(Found(invocations), plans[j])
              && Faithful(sorted[j], LaneRecords(Found(invocations), plans[j]))
  {
    sorted := SortByIndex(batches, BatchIndex);
    forall j | 0 <= j < |sorted|
      ensures && LanesFound(Found(invocations), plans[j])
              && Faithful(sorted[j], LaneRecords(Found(invocations), plans[j]))
    {
      assert sorted[j] in multiset(sorted);
      assert sorted[j] in multiset(batches);
      var i :| 0 <= i < |batches| && batches[i] == sorted[j];
      assert BatchIndex(sorted[j]) == j;
    }
  }

  lemma SameFound(runId: string, plans: seq<BatchPlan>, invocations: seq<Invocation>, sorted: seq<Invocation>)
    requires DistinctPlans(plans) && InvocationsMatch(plans, invocations)
    requires InvocationsTrack(runId, plans, sorted) && multiset(sorted) == multiset(invocations)
    ensures Found(sorted) == Found(invocations)
  {
    TrackedKeysDistinct(runId, plans, sorted);
    InvocationsReconciled(plans, invocations);
    DictionaryPermutation(sorted, invocations, InvocationKey);
  }

  /** Any VALID run, put in schedule order, is a run of slices. */
  lemma ValidRunSlices(d: Design, schedule: Schedule, run: Execution)
    returns (plans: seq<BatchPlan>, invocations: seq<Invocation>, batches: seq<Batch>)
    requires Legal(d) && ValidRun(d, schedule, run)
    ensures multiset(invocations) == multiset(run.invocations) && multiset(batches) == multiset(run.batches)
    ensures FaithfulSlices(plans, invocations, batches)
  {
    plans := RecordedOnly(schedule.batches);
    RecordedPlans(d);
    var runId := OneRunId(run.invocations, run.batches);
    invocations := SortedInvocations(plans, run.invocations);
    forall i | 0 <= i < |invocations| ensures invocations[i].runId == runId {
      assert invocations[i] in multiset(invocations);
      assert invocations[i] in multiset(run.invocations);
    }
    batches := SortedBatches(plans, run.invocations, run.batches);
    SameFound(runId, plans, run.invocations, invocations);
    forall j | 0 <= j < |plans|
      ensures && Offset(plans, j) + plans[j].cell.level <= |invocations|
              && Faithful(batches[j], invocations[Offset(plans, j)..Offset(plans, j) + plans[j].cell.level])
    {
      LanesAreSlice(runId, plans, invocations, j);
    }
  }

  /** Completed counts add up to the invocations, accepted counts to the accepted ones. */
  lemma ValidRunConserves(d: Design, schedule: Schedule, run: Execution)
    requires Legal(d) && ValidRun(d, schedule, run)
    ensures Completed(run.batches) == |run.invocations|
    ensures AcceptedTotal(run.batches) == AcceptedCount(run.invocations)
  {
    var plans, invocations, batches := ValidRunSlices(d, schedule, run);
    SliceTotals(plans, invocations, batches);
    SumPermutation((b: Batch) => b.completed, batches, run.batches);
    SumPermutation((b: Batch) => b.accepted, batches, run.batches);
    PermutationLength(invocations, run.invocations);
    AcceptedIsSum(invocations);
    AcceptedIsSum(run.invocations);
    SumPermutation((r: Invocation) => if IsAccepted(r) then 1 else 0, invocations, run.invocations);
  }
}
