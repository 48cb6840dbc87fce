/**
Executing and validating a strategy-comparison run: the walk that takes plans one or
two at a time, the conversion of a timed invocation into a sample, and the validator.
*/
module StrategyRun {
  import opened Wrappers
  import opened FixedSchedule
  import opened RunRecords
  import opened StrategySchedule

  datatype SampleEvidence =
    | Exception(exceptionType: string)
    | Returned(outcome: string, stage: Option<Stage>, stream: Option<string>, append: Option<string>,
               cohort: Option<Cohort>, availability: Option<string>, phases: Option<map<PhaseName, PhaseState>>)

  datatype Sample = Sample(
    runId: string, index: nat, block: nat, batch: nat, lane: nat,
    scenario: Scenario, composition: Composition, surface: Surface,
    evidence: SampleEvidence, elapsedNs: nat, startOffset: Option<nat>)

  /** One timed invocation; an outcome that is not a non-empty text refuses the conversion. */
  datatype Timed = Timed(elapsedNs: nat, delivery: Delivery)

  /** What running a plan yields: None where the harness raised. */
  datatype Ran = Ran(timed: Timed, startOffset: Option<nat>)

  // ----- one invocation -----

  predicate AllPhasesRead(m: map<PhaseName, Reading>) {
    forall i | 0 <= i < |PhaseNames| :: ParsePhase(PhaseNames[i], m) != []
  }

  function StatesOf(m: map<PhaseName, Reading>): map<PhaseName, PhaseState> {
    map name | name in m :: m[name].state
  }

  function EvidenceFor(surface: Surface, d: Delivery): Option<SampleEvidence>
    requires d.Gave?
  {
    if surface == CurrentMeasured && d.availability != Some("AVAILABLE") && d.availability != Some("UNAVAILABLE") then None
    else if surface == CurrentMeasured && d.availability == Some("AVAILABLE")
            && (d.measurement == None || !AllPhasesRead(d.measurement.value)) then None
    else if d.outcome == None then None
    else
      var stage := RejectionStage(d.outcome, d.stream, d.append);
      var measured := surface == CurrentMeasured;
      Some(Returned(d.outcome.value, stage, d.stream, d.append, Classify(d.outcome, stage, d.stream, d.append),
                    if measured then d.availability else None,
                    if measured && d.availability == Some("AVAILABLE") then Some(StatesOf(d.measurement.value)) else None))
  }

  function SampleFromTimed(runId: string, plan: SamplePlan, timed: Timed, startOffset: Option<nat>): Option<Sample> {
    var evidence := match timed.delivery
                    case Threw(e) => Some(Exception(e))
                    case Gave(_, _, _, _, _) => EvidenceFor(plan.surface, timed.delivery);
    match evidence
    case None => None
    case Some(e) =>
      Some(Sample(runId, plan.index, plan.block, plan.batch, plan.lane, plan.scenario, plan.composition, plan.surface,
                  e, timed.elapsedNs, startOffset))
  }

  predicate IsPair(scenario: Scenario) {
    scenario == SameOrderPair || scenario == DifferentOrderPair
  }

  /** Only the concurrent scenarios record a start offset, and they must. */
  function Executed(runId: string, behave: SamplePlan -> Option<Ran>, plan: SamplePlan): Option<Sample> {
    match behave(plan)
    case None => None
    case Some(ran) =>
      if IsPair(plan.scenario) then
        if ran.startOffset == None then None else SampleFromTimed(runId, plan, ran.timed, ran.startOffset)
      else SampleFromTimed(runId, plan, ran.timed, None)
  }

  /** A delivery of the measured surface is usable when it says whether it is available, and if so reads every phase. */
  predicate Readable(surface: Surface, d: Delivery) {
    d.Threw?
    || (&& d.outcome.Some?
        && (surface == CurrentMeasured ==>
              d.availability == Some("UNAVAILABLE")
              || (d.availability == Some("AVAILABLE") && d.measurement.Some? && AllPhasesRead(d.measurement.value))))
  }

  /** The evidence of a sample, against what its invocation delivered. */
  ghost predicate Tells(e: SampleEvidence, surface: Surface, d: Delivery) {
    match d
    case Threw(exceptionType) => e == Exception(exceptionType)
    case Gave(availability, measurement, outcome, stream, append) =>
      && e.Returned? && (Some(e.outcome), e.stream, e.append) == (outcome, stream, append)
      && (forall cohort :: e.cohort == Some(cohort) <==> Terminal(d, cohort))
      && e.availability == (if surface == CurrentMeasured then availability else None)
      && (e.phases.Some? <==> surface == CurrentMeasured && availability == Some("AVAILABLE"))
      && (e.phases.Some? ==> measurement.Some? && forall name ::
            && (name in e.phases.value <==> name in measurement.value)
            && (name in e.phases.value ==> e.phases.value[name] == measurement.value[name].state))
  }

  /** A plan can be executed exactly when the harness ran it, a paired one with its offset, and its delivery is usable. */
  lemma ExecutedIff(runId: string, behave: SamplePlan -> Option<Ran>, plan: SamplePlan)
    ensures Executed(runId, behave, plan).Some? <==>
            && behave(plan).Some? && (IsPair(plan.scenario) ==> behave(plan).value.startOffset.Some?)
            && Readable(plan.surface, behave(plan).value.timed.delivery)
  {
  }

  lemma EvidenceTells(surface: Surface, d: Delivery)
    requires d.Gave? && EvidenceFor(surface, d).Some?
    ensures Tells(EvidenceFor(surface, d).value, surface, d)
  {
    forall cohort
      ensures Classify(d.outcome, RejectionStage(d.outcome, d.stream, d.append), d.stream, d.append) == Some(cohort)
         <==> Terminal(d, cohort)
    {
      ClassifiedIffTerminal(d, cohort);
    }
  }

  /** And its sample carries the plan's place, the time taken, the offset of a pair and what was delivered. */
  lemma ExecutedTells(runId: string, behave: SamplePlan -> Option<Ran>, plan: SamplePlan)
    requires Executed(runId, behave, plan).Some?
    ensures var s, ran := Executed(runId, behave, plan).value, behave(plan).value;
            && s.runId == runId
            && (s.index, s.block, s.batch, s.lane) == (plan.index, plan.block, plan.batch, plan.lane)
            && (s.scenario, s.composition, s.surface) == (plan.scenario, plan.composition, plan.surface)
            && s.elapsedNs == ran.timed.elapsedNs
            && s.startOffset == (if IsPair(plan.scenario) then ran.startOffset else None)
            && Tells(s.evidence, plan.surface, ran.timed.delivery)
  {
    if behave(plan).value.timed.delivery.Gave? { EvidenceTells(plan.surface, behave(plan).value.timed.delivery); }
  }

  // ----- the walk -----

  datatype WalkError = InvalidPair | HarnessError

  predicate PairOk(p: SamplePlan, q: SamplePlan) {
    && p.scenario == q.scenario && p.composition == q.composition && p.batch == q.batch
    && {p.lane, q.lane} == {0, 1} && {p.slot, q.slot} == {0, 1}
  }

  /** A pair differs in nothing but its place: one plan on each lane and one on each slot. */
  lemma PairOkIff(p: SamplePlan, q: SamplePlan)
    ensures PairOk(p, q) <==>
            && (p.scenario, p.composition, p.batch) == (q.scenario, q.composition, q.batch)
            && ((p.lane, q.lane) == (0, 1) || (p.lane, q.lane) == (1, 0))
            && ((p.slot, q.slot) == (0, 1) || (p.slot, q.slot) == (1, 0))
  {
    BothIff(p.lane, q.lane);
    BothIff(p.slot, q.slot);
  }

  lemma BothIff(m: nat, n: nat)
    ensures {m, n} == {0, 1} <==> (m, n) == (0, 1) || (m, n) == (1, 0)
  {
    if {m, n} == {0, 1} {
      assert m in {0, 1} && n in {0, 1} && 0 in {m, n} && 1 in {m, n};
    }
  }

  /** The two observations come back by connection slot and are put in sample order. */
  method ExecuteConcurrentBatch(runId: string, behave: SamplePlan -> Option<Ran>, first: SamplePlan, second: SamplePlan)
    returns (r: Option<seq<Sample>>)
    requires PairOk(first, second) && first.index < second.index
    ensures r.Some? <==> Executed(runId, behave, first).Some? && Executed(runId, behave, second).Some?
    ensures r.Some? ==> r.value == [Executed(runId, behave, first).value, Executed(runId, behave, second).value]
  {
    assert first.slot in {0, 1} && second.slot in {0, 1} && first.slot != second.slot by {
      assert first.slot in {first.slot, second.slot} && second.slot in {first.slot, second.slot};
      assert 0 in {first.slot, second.slot} && 1 in {first.slot, second.slot};
    }
    var atZero, atOne := if first.slot == 0 then first else second, if first.slot == 0 then second else first;
    var x, y := Executed(runId, behave, atZero), Executed(runId, behave, atOne);
    if x == None || y == None {
      return None;
    }
    r := Some(if x.value.index < y.value.index then [x.value, y.value] else [y.value, x.value]);
  }

  /** In the generated schedule the walk stands on the first lane of a pair whenever it meets one. */
  predicate Boundary(c: Config, rounds: seq<seq<Surface>>, i: nat) {
    var a, b, d := 6 * |rounds|, 4 * c.batchesB, 4 * c.batchesC;
    a <= i < a + b + d ==> i % 2 == 0
  }

  lemma PlanAt(c: Config, rounds: seq<seq<Surface>>, i: nat)
    requires ObserverRounds(rounds) && i < |RecordedSchedule(c, rounds)|
    ensures var a, b, d := 6 * |rounds|, 4 * c.batchesB, 4 * c.batchesC;
            RecordedSchedule(c, rounds)[i] ==
            if i < a then PlanA(rounds, 0, i)
            else if i < a + b then PlanPair(SameOrderPair, a, i - a)
            else if i < a + b + d then PlanPair(DifferentOrderPair, a + b, i - a - b)
            else SamplePlan(i, (i - a - b - d) / 5, i - a - b - d, 0, 0, LockNonAcquisition, InPessimistic, CurrentMeasured)
  {
  }

  lemma NeighboursPair(scenario: Scenario, start: nat, i: nat)
    requires i % 2 == 0
    ensures PairOk(PlanPair(scenario, start, i), PlanPair(scenario, start, i + 1))
    ensures PlanPair(scenario, start, i).lane == 0 && PlanPair(scenario, start, i + 1).lane == 1
  {
    assert i / 2 == (i + 1) / 2 && i / 4 == (i + 1) / 4;
  }

  lemma EvenOffset(i: nat, start: nat, half: nat)
    requires i % 2 == 0 && start == 2 * half && start <= i
    ensures (i - start) % 2 == 0 && i - start + 1 == i + 1 - start
  {
    assert i == 2 * (i / 2);
    assert i - start == 2 * (i / 2 - half);
  }

  lemma PairInB(c: Config, rounds: seq<seq<Surface>>, i: nat)
    requires ObserverRounds(rounds) && 6 * |rounds| <= i < 6 * |rounds| + 4 * c.batchesB && i % 2 == 0
    ensures i + 1 < |RecordedSchedule(c, rounds)|
    ensures PairOk(RecordedSchedule(c, rounds)[i], RecordedSchedule(c, rounds)[i + 1])
  {
    PlanAt(c, rounds, i);
    PlanAt(c, rounds, i + 1);
    EvenOffset(i, 6 * |rounds|, 3 * |rounds|);
    NeighboursPair(SameOrderPair, 6 * |rounds|, i - 6 * |rounds|);
  }

  lemma PairInC(c: Config, rounds: seq<seq<Surface>>, i: nat)
    requires ObserverRounds(rounds) && i % 2 == 0
    requires 6 * |rounds| + 4 * c.batchesB <= i < 6 * |rounds| + 4 * c.batchesB + 4 * c.batchesC
    ensures i + 1 < |RecordedSchedule(c, rounds)|
    ensures PairOk(RecordedSchedule(c, rounds)[i], RecordedSchedule(c, rounds)[i + 1])
  {
    PlanAt(c, rounds, i);
    PlanAt(c, rounds, i + 1);
    var start := 6 * |rounds| + 4 * c.batchesB;
    EvenOffset(i, start, 3 * |rounds| + 2 * c.batchesB);
    NeighboursPair(DifferentOrderPair, start, i - start);
  }

  lemma PairsInside(c: Config, rounds: seq<seq<Surface>>, i: nat)
    requires ObserverRounds(rounds) && i < |RecordedSchedule(c, rounds)|
    ensures IsPair(RecordedSchedule(c, rounds)[i].scenario) <==>
            6 * |rounds| <= i < 6 * |rounds| + 4 * c.batchesB + 4 * c.batchesC
  {
    PlanAt(c, rounds, i);
  }

  lemma BoundaryPair(c: Config, rounds: seq<seq<Surface>>, i: nat)
    requires ObserverRounds(rounds) && i < |RecordedSchedule(c, rounds)| && Boundary(c, rounds, i)
    requires IsPair(RecordedSchedule(c, rounds)[i].scenario)
    ensures i + 1 < |RecordedSchedule(c, rounds)|
    ensures PairOk(RecordedSchedule(c, rounds)[i], RecordedSchedule(c, rounds)[i + 1])
    ensures Boundary(c, rounds, i + 2)
  {
    PairsInside(c, rounds, i);
    if i < 6 * |rounds| + 4 * c.batchesB {
      PairInB(c, rounds, i);
    } else {
      PairInC(c, rounds, i);
    }
  }

  /** Checks that the next two plans are one batch, and runs them together. */
  method ExecutePairAt(runId: string, behave: SamplePlan -> Option<Ran>, c: Config, rounds: seq<seq<Surface>>,
                       plans: seq<SamplePlan>, index: nat)
    returns (r: Result<seq<Sample>, WalkError>)
    requires ObserverRounds(rounds) && plans == RecordedSchedule(c, rounds)
    requires index < |plans| && IsPair(plans[index].scenario) && Boundary(c, rounds, index)
    ensures index + 1 < |plans| && Boundary(c, rounds, index + 2)
    ensures r != Failure(InvalidPair)
    ensures r.Success? <==> Executed(runId, behave, plans[index]).Some? && Executed(runId, behave, plans[index + 1]).Some?
    ensures r.Success? ==>
              r.value == [Executed(runId, behave, plans[index]).value, Executed(runId, behave, plans[index + 1]).value]
  {
    BoundaryPair(c, rounds, index);
    if index + 2 > |plans| || !PairOk(plans[index], plans[index + 1]) {
      return Failure(InvalidPair);
    }
    IndexIsPosition(c, rounds, index);
    IndexIsPosition(c, rounds, index + 1);
    var pair := ExecuteConcurrentBatch(runId, behave, plans[index], plans[index + 1]);
    r := if pair == None then Failure(HarnessError) else Success(pair.value);
  }

  /**
   The walk over a generated schedule: the pair check never fails, and unless the harness
   raises, every plan is executed exactly once and the samples stand in plan order.
   */
  method ExecutePlans(runId: string, behave: SamplePlan -> Option<Ran>, c: Config, rounds: seq<seq<Surface>>, plans: seq<SamplePlan>)
    returns (r: Result<seq<Sample>, WalkError>)
    requires ObserverRounds(rounds) && plans == RecordedSchedule(c, rounds)
    ensures r != Failure(InvalidPair)
    ensures r.Success? <==> forall i | 0 <= i < |plans| :: Executed(runId, behave, plans[i]).Some?
    ensures r.Success? ==> |r.value| == |plans|
    ensures r.Success? ==> forall i | 0 <= i < |plans| :: Executed(runId, behave, plans[i]) == Some(r.value[i])
  {
    var samples, index := [], 0;
    while index < |plans|
      invariant index <= |plans| && |samples| == index && Boundary(c, rounds, index)
      invariant forall i | 0 <= i < index :: Executed(runId, behave, plans[i]) == Some(samples[i])
    {
      var plan := plans[index];
      if IsPair(plan.scenario) {
        var pair :- ExecutePairAt(runId, behave, c, rounds, plans, index);
        samples := samples + pair;
        index := index + 2;
      } else {
        PlanAt(c, rounds, index);
        var sample := Executed(runId, behave, plan);
        if sample == None {
          return Failure(HarnessError);
        }
        samples := samples + [sample.value];
        index := index + 1;
      }
    }
    r := Success(samples);
  }
}
