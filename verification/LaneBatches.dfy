/**
The lane protocol under the recorded executor: a batch that comes back from an interleaving
of its level's lanes is a batch the executor can record, so that a run over lanes completes
as soon as no batch raised and every warmup is clean.
*/
module LaneBatches {
  import opened Wrappers
  import opened Sequences
  import opened FixedSchedule
  import opened RecordedExecutor
  import opened RunTheorems
  import Records = RunRecords
  import Lanes = LaneProtocol
  import LaneTheorems

  // ----- observations never end before they start -----

  predicate Ordered(o: Lanes.Observation) {
    o.startNs <= o.stopNs
  }

  predicate DoneOrdered(s: Lanes.State) {
    forall l | 0 <= l < |s.done| ::
      s.done[l].Some? && s.done[l].value.Value? ==> Ordered(s.done[l].value.observation)
  }

  lemma DoneOrderedStep(s: Lanes.State, a: Lanes.Action)
    requires Lanes.Inv(s) && DoneOrdered(s) && Lanes.Step(s, a).Some?
    ensures DoneOrdered(Lanes.Step(s, a).value)
  {
  }

  lemma InitialDoneOrdered(n: nat)
    requires n >= 1
    ensures DoneOrdered(Lanes.Initial(n))
  {
  }

  lemma NextDoneOrdered(states: seq<Lanes.State>, n: nat, i: nat)
    requires LaneTheorems.IsRun(states, n) && i + 1 < |states| && DoneOrdered(states[i])
    ensures DoneOrdered(states[i + 1])
  {
    LaneTheorems.RunInv(states, n, i);
    var a := LinkedAt(LaneTheorems.Stepper(), states, i);
    DoneOrderedStep(states[i], a);
  }

  lemma {:induction false} RunDoneOrdered(states: seq<Lanes.State>, n: nat, i: nat)
    requires LaneTheorems.IsRun(states, n) && i < |states|
    ensures DoneOrdered(states[i])
  {
    if i == 0 {
      InitialDoneOrdered(n);
    } else {
      RunDoneOrdered(states, n, i - 1);
      NextDoneOrdered(states, n, i - 1);
    }
  }

  // ----- what a finished batch hands to the executor -----

  /** The i-th step of this run finishes a batch that returns. */
  ghost predicate Returns(states: seq<Lanes.State>, n: nat, i: nat) {
    && LaneTheorems.IsRun(states, n) && i + 1 < |states| && Lanes.Shaped(states[i])
    && Lanes.Step(states[i], Lanes.Finish) == Some(states[i + 1])
    && states[i + 1].outcome.Some? && states[i + 1].outcome.value.Returned?
  }

  lemma ReturnedOrdered(states: seq<Lanes.State>, n: nat, i: nat)
    requires Returns(states, n, i)
    ensures states[i + 1].reference.Some?
    ensures var results := states[i + 1].outcome.value.results;
            |results| == n && forall l | 0 <= l < n :: Ordered(results[l])
  {
    LaneTheorems.FinishedBatchReturns(states, n, i);
    LaneTheorems.RunInv(states, n, i);
    RunDoneOrdered(states, n, i);
    LaneTheorems.CollectSpec(states[i].done, 0);
  }

  /** The release reading, and in lane order each lane's own times beside what its writer delivered. */
  ghost function BatchOf(states: seq<Lanes.State>, n: nat, i: nat, deliveries: seq<Records.Delivery>): (r: BatchRun)
    requires Returns(states, n, i) && |deliveries| == n
    ensures |r.observations| == n
  {
    ReturnedOrdered(states, n, i);
    var results := states[i + 1].outcome.value.results;
    BatchRun(states[i + 1].reference.value,
             seq(n, l requires 0 <= l < n =>
               Records.Observation(results[l].startNs, results[l].stopNs - results[l].startNs, deliveries[l])))
  }

  /** A lane's writer raised exactly where its delivery is an exception. */
  ghost predicate Delivered(states: seq<Lanes.State>, n: nat, i: nat, deliveries: seq<Records.Delivery>)
    requires Returns(states, n, i)
  {
    && |deliveries| == n == |states[i + 1].outcome.value.results|
    && forall l | 0 <= l < n :: deliveries[l].Threw? <==> states[i + 1].outcome.value.results[l].raised
  }

  /** The batch r is what the i-th step of this run of n lanes returned, under a clock that never went back. */
  ghost predicate ReturnedBy(r: BatchRun, n: nat, states: seq<Lanes.State>, i: nat, deliveries: seq<Records.Delivery>) {
    && Returns(states, n, i) && states[i + 1].monotone
    && Delivered(states, n, i, deliveries) && r == BatchOf(states, n, i, deliveries)
  }

  /**
   The plan's batch is one that its level's lanes returned, in any interleaving and whatever ran
   on them before; or something raised and it did not come back.
   */
  ghost predicate FromLanes(w: World, plan: BatchPlan) {
    w.behave(plan).Some? ==>
      exists states, i: nat, deliveries :: ReturnedBy(w.behave(plan).value, plan.cell.level, states, i, deliveries)
  }

  lemma BatchOfFollowsRelease(states: seq<Lanes.State>, n: nat, i: nat, deliveries: seq<Records.Delivery>)
    requires Returns(states, n, i) && |deliveries| == n && states[i + 1].monotone
    ensures var r := BatchOf(states, n, i, deliveries);
            forall l | 0 <= l < n :: r.observations[l].startNs >= r.referenceNs
  {
    LaneTheorems.FinishedBatchReturns(states, n, i);
  }

  /**
   What the executor is handed are the lanes' own readings: the reference is what a lane read when it released
   the batch, and each observation starts at its lane's start reading, ends at its stop reading, and carries an
   exception exactly when its lane's writer raised.
   */
  lemma BatchOfReadings(states: seq<Lanes.State>, actions: seq<Lanes.Action>, n: nat, i: nat, deliveries: seq<Records.Delivery>)
    requires LaneTheorems.IsTrace(states, actions, n) && i < |actions| && actions[i] == Lanes.Finish
    requires Returns(states, n, i) && Delivered(states, n, i, deliveries)
    ensures var r := BatchOf(states, n, i, deliveries);
            && LaneTheorems.ReleasedIn(states, actions, i, Some(r.referenceNs))
            && forall l | 0 <= l < n ::
                 LaneTheorems.ReadIn(states, actions, i, l,
                                     Lanes.Observation(r.observations[l].startNs,
                                                       r.observations[l].startNs + r.observations[l].elapsedNs,
                                                       r.observations[l].delivery.Threw?))
  {
    ReturnedOrdered(states, n, i);
    LaneTheorems.BatchReturnsInLaneOrder(states, actions, n, i);
    var results := states[i + 1].outcome.value.results;
    forall l | 0 <= l < n
      ensures var o := BatchOf(states, n, i, deliveries).observations[l];
              results[l] == Lanes.Observation(o.startNs, o.startNs + o.elapsedNs, o.delivery.Threw?)
    {
      assert Ordered(results[l]);
    }
  }

  /** A batch that comes back from the lanes has one observation per lane, none before the release. */
  lemma ReturnedBatchRuns(w: World, plan: BatchPlan)
    requires FromLanes(w, plan)
    ensures Runs(w, plan) <==> w.behave(plan).Some?
  {
    if w.behave(plan).Some? {
      var states, i: nat, deliveries :|
        ReturnedBy(w.behave(plan).value, plan.cell.level, states, i, deliveries);
      BatchOfFollowsRelease(states, plan.cell.level, i, deliveries);
    }
  }

  lemma PassesOverLanes(runId: string, w: World, plan: BatchPlan)
    requires FromLanes(w, plan) && plan.cell.level > 0
    ensures Passes(runId, w, plan) <==> w.behave(plan).Some? && (plan.recorded || SoundBatch(w, plan))
  {
    ReturnedBatchRuns(w, plan);
    if Runs(w, plan) { RecordsSoundIff(runId, w, plan, 0); }
  }

  /**
   Over lanes, however they interleave, an execution of the whole schedule completes exactly when
   no batch raised and every warmup delivered sound evidence.
   */
  lemma CompletesOverLanes(runId: string, w: World, d: Design)
    requires Legal(d)
    requires forall i | 0 <= i < |ScheduleOf(d).batches| :: FromLanes(w, ScheduleOf(d).batches[i])
    ensures RunPlans(runId, w, ScheduleOf(d).batches).Some? <==>
            forall i | 0 <= i < |ScheduleOf(d).batches| ::
              var plan := ScheduleOf(d).batches[i];
              w.behave(plan).Some? && (plan.recorded || SoundBatch(w, plan))
  {
    var plans := ScheduleOf(d).batches;
    ScheduleConstructed(d);
    CompletesIff(runId, w, plans);
    forall i | 0 <= i < |plans|
      ensures Passes(runId, w, plans[i]) <==> w.behave(plans[i]).Some? && (plans[i].recorded || SoundBatch(w, plans[i]))
    {
      PassesOverLanes(runId, w, plans[i]);
    }
  }

  // ----- and the lanes can always return one -----

  /** Nothing has gone wrong in the batch in flight, and the clock never went back. */
  predicate Clean(s: Lanes.State) {
    && s.monotone && s.barrier != Lanes.Broken && Lanes.InBatch(s.main)
    && forall l | 0 <= l < |s.done| :: s.done[l] != Some(Lanes.Error)
  }

  lemma CleanBeforeBarrier(s: Lanes.State, m: nat) returns (a: Lanes.Action)
    requires LaneTheorems.LogInv(s) && Clean(s) && s.main.Awaiting? && m < s.n && m !in s.arrived
    ensures a != Lanes.Finish && Lanes.Step(s, a).Some? && Clean(Lanes.Step(s, a).value)
  {
    assert Lanes.LaneInv(s, m);
    if s.lanes[m].Waiting? {
      a := Lanes.Fetch(m);
    } else if |s.arrived| + 1 < s.n {
      a := Lanes.Arrive(m);
    } else {
      a := Lanes.Trip(m, Some(s.clock));
    }
  }

  lemma CleanAfterBarrier(s: Lanes.State, k: nat) returns (a: Lanes.Action)
    requires LaneTheorems.LogInv(s) && Clean(s) && s.main.Awaiting? && k < s.n && s.done[k].None?
    requires k in s.arrived && s.barrier == Lanes.Open
    ensures a != Lanes.Finish && Lanes.Step(s, a).Some? && Clean(Lanes.Step(s, a).value)
  {
    assert Lanes.LaneInv(s, k) && LaneTheorems.LaneTiming(s, k);
    a := match s.lanes[k]
      case AtBarrier(_) => Lanes.Wake(k)
      case Released(_) => Lanes.ReadStart(k, Some(s.clock))
      case Calling(_, _) => Lanes.Return(k, false)
      case _ => Lanes.ReadStop(k, Some(s.clock));
  }

  /** While the batch is clean, some thread can move and keep it so, until all is done. */
  lemma CleanMove(s: Lanes.State) returns (a: Lanes.Action)
    requires LaneTheorems.LogInv(s) && Clean(s)
    ensures Lanes.Step(s, a).Some? && (a == Lanes.Finish || Clean(Lanes.Step(s, a).value))
  {
    if s.main.Putting? {
      return Lanes.Put;
    }
    var k := s.main.lane;
    if k == s.n {
      forall l | 0 <= l < s.n ensures s.done[l].Some? { assert Lanes.LaneInv(s, l); }
      return Lanes.Finish;
    }
    if s.done[k].Some? {
      return Lanes.Await;
    }
    assert Lanes.LaneInv(s, k);
    if s.barrier == Lanes.Filling {
      var m := LaneTheorems.SomeoneMissing(s);
      a := CleanBeforeBarrier(s, m);
    } else {
      a := CleanAfterBarrier(s, k);
    }
  }

  lemma CleanFinishReturns(s: Lanes.State)
    requires Lanes.Inv(s) && Clean(s) && Lanes.Step(s, Lanes.Finish).Some?
    ensures var t := Lanes.Step(s, Lanes.Finish).value; t.monotone && t.outcome.Some? && t.outcome.value.Returned?
  {
    LaneTheorems.CollectSpec(s.done, 0);
  }

  lemma RunOnwards(states: seq<Lanes.State>, n: nat, a: Lanes.Action)
    requires LaneTheorems.IsRun(states, n)
    requires var s := states[|states| - 1]; Lanes.Shaped(s) && Lanes.Step(s, a).Some?
    ensures LaneTheorems.IsRun(states + [Lanes.Step(states[|states| - 1], a).value], n)
  {
    LinkedOnwards(LaneTheorems.Stepper(), states, a, Lanes.Step(states[|states| - 1], a).value);
  }

  /** Every clean batch in flight, on lanes that have run anything before, has a continuation in which it returns. */
  lemma {:induction false} BatchCanReturn(states: seq<Lanes.State>, n: nat) returns (longer: seq<Lanes.State>)
    requires LaneTheorems.IsRun(states, n) && Lanes.Shaped(states[|states| - 1]) && Clean(states[|states| - 1])
    ensures states <= longer && |longer| >= 2
    ensures Returns(longer, n, |longer| - 2) && longer[|longer| - 1].monotone
    decreases LaneTheorems.Rank(states[|states| - 1])
  {
    var s := states[|states| - 1];
    LaneTheorems.RunInv(states, n, |states| - 1);
    var a := CleanMove(s);
    RunOnwards(states, n, a);
    longer := states + [Lanes.Step(s, a).value];
    if a == Lanes.Finish {
      CleanFinishReturns(s);
    } else {
      LaneTheorems.RankDecreases(s, a);
      longer := BatchCanReturn(longer, n);
    }
  }
}
