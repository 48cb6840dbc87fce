/** Validation of a strategy-comparison run against its schedule and protocol configuration. */
module StrategyValidation {
  import opened Wrappers
  import opened Sequences
  import opened Ordering
  import opened FixedSchedule
  import opened RunRecords
  import opened Reconciliation
  import opened StrategySchedule
  import opened StrategyRun

  datatype SampleIssue =
    | UnexpectedException | UnsupportedOutcome | UnexpectedScenarioCohort
    | MeasurementUnavailable | RequiredPhaseNotCollected(phase: PhaseName)
    | MissingStartOffset | UnexpectedStartOffset

  datatype RunIssue =
    | InvalidWorkerCount | DuplicatePlannedSample(index: nat)
    | Unbalanced(scenario: Scenario, surface: Surface, composition: Composition)
    | SampleFinding(sample: Finding<SampleIssue>)
    | IncompleteMatchedBlock(plan: SamplePlan)
    | CohortInsufficient(composition: Composition, cohort: Cohort)

  datatype Status = Valid | InvalidRun | InsufficientEvidence

  // ----- one sample -----

  predicate CohortAllowed(s: Sample, cohort: Cohort) {
    match s.scenario
    case Uncontended => cohort == Accepted
    case DifferentOrderPair => cohort == Accepted
    case SameOrderPair =>
      if s.composition == PreOcc then cohort == Accepted || cohort == AppendStaleWrite
      else cohort == Accepted || cohort == PrepareLockTimeout
    case LockNonAcquisition => s.composition == InPessimistic && cohort == PrepareLockTimeout
  }

  function CohortIssue(s: Sample): seq<SampleIssue> {
    match s.evidence
    case Exception(_) => [SampleIssue.UnexpectedException]
    case Returned(_, _, _, _, cohort, _, _) =>
      if cohort == None then [SampleIssue.UnsupportedOutcome]
      else if !CohortAllowed(s, cohort.value) then [UnexpectedScenarioCohort]
      else []
  }

  predicate Collected(phases: Option<map<PhaseName, PhaseState>>, name: PhaseName) {
    phases.Some? && name in phases.value && phases.value[name] == Measured
  }

  /** A phase is required when the matrix of the sample's composition and cohort marks it as measured. */
  function RequiredPhaseIssues(s: Sample, cohort: Cohort, phases: Option<map<PhaseName, PhaseState>>): seq<SampleIssue> {
    if !HasMatrix(s.composition, cohort) then []
    else
      FlatMap((name: PhaseName) =>
          if Matrix(s.composition, cohort, name) == Measured && !Collected(phases, name)
          then [RequiredPhaseNotCollected(name)] else [], PhaseNames)
  }

  function MeasuredIssue(plan: SamplePlan, s: Sample): seq<SampleIssue> {
    match s.evidence
    case Exception(_) => []
    case Returned(_, _, _, _, cohort, availability, phases) =>
      if plan.surface != CurrentMeasured then []
      else if availability != Some("AVAILABLE") then [SampleIssue.MeasurementUnavailable]
      else if cohort == None then []
      else RequiredPhaseIssues(s, cohort.value, phases)
  }

  function OffsetIssue(plan: SamplePlan, s: Sample): seq<SampleIssue> {
    if IsPair(plan.scenario) then (if s.startOffset == None then [MissingStartOffset] else [])
    else if s.startOffset.Some? then [UnexpectedStartOffset]
    else []
  }

  function SampleIssues(plan: SamplePlan, s: Sample): seq<SampleIssue> {
    CohortIssue(s) + MeasuredIssue(plan, s) + OffsetIssue(plan, s)
  }

  // ----- what a sound sample is -----

  /** The outcomes a scenario may have under a composition. */
  predicate Expected(scenario: Scenario, composition: Composition, cohort: Cohort) {
    var outcome := (scenario, composition, cohort);
    || outcome == (Uncontended, PreOcc, Accepted) || outcome == (Uncontended, InPessimistic, Accepted)
    || outcome == (SameOrderPair, PreOcc, Accepted) || outcome == (SameOrderPair, PreOcc, AppendStaleWrite)
    || outcome == (SameOrderPair, InPessimistic, Accepted) || outcome == (SameOrderPair, InPessimistic, PrepareLockTimeout)
    || outcome == (DifferentOrderPair, PreOcc, Accepted) || outcome == (DifferentOrderPair, InPessimistic, Accepted)
    || outcome == (LockNonAcquisition, InPessimistic, PrepareLockTimeout)
  }

  lemma CohortAllowedIff(s: Sample, cohort: Cohort)
    ensures CohortAllowed(s, cohort) <==> Expected(s.scenario, s.composition, cohort)
  {
    match s.composition
    case PreOcc =>
    case InPessimistic =>
  }

  /** Every phase listed as measured was collected. */
  predicate AllCollected(phases: Option<map<PhaseName, PhaseState>>, composition: Composition, cohort: Cohort) {
    forall i | 0 <= i < |ExpectedStates(composition, cohort)| && i < |PhaseNames| &&
               ExpectedStates(composition, cohort)[i] == Measured :: Collected(phases, PhaseNames[i])
  }

  predicate SoundFor(plan: SamplePlan, s: Sample) {
    && s.evidence.Returned? && s.evidence.cohort.Some?
    && Expected(s.scenario, s.composition, s.evidence.cohort.value)
    && (plan.surface == CurrentMeasured ==>
          s.evidence.availability == Some("AVAILABLE")
          && AllCollected(s.evidence.phases, s.composition, s.evidence.cohort.value))
    && (s.startOffset.Some? <==> plan.scenario == SameOrderPair || plan.scenario == DifferentOrderPair)
  }

  lemma RequiredPhasesIff(s: Sample, cohort: Cohort, phases: Option<map<PhaseName, PhaseState>>)
    ensures RequiredPhaseIssues(s, cohort, phases) == [] <==> AllCollected(phases, s.composition, cohort)
  {
    MatrixIsListed(s.composition, cohort);
    if HasMatrix(s.composition, cohort) {
      var f := (name: PhaseName) =>
        if Matrix(s.composition, cohort, name) == Measured && !Collected(phases, name)
        then [RequiredPhaseNotCollected(name)] else [];
      NoneIff(f, PhaseNames);
      assert RequiredPhaseIssues(s, cohort, phases) == FlatMap(f, PhaseNames);
      forall i | 0 <= i < |PhaseNames|
        ensures f(PhaseNames[i]) == []
           <==> (ExpectedStates(s.composition, cohort)[i] == Measured ==> Collected(phases, PhaseNames[i]))
      {
        assert Matrix(s.composition, cohort, PhaseNames[i]) == ExpectedStates(s.composition, cohort)[i];
      }
    }
  }

  lemma {:induction false} NoneIff<T, U>(f: T -> seq<U>, s: seq<T>)
    ensures FlatMap(f, s) == [] <==> forall i | 0 <= i < |s| :: f(s[i]) == []
  {
    if s != [] {
      var n := |s| - 1;
      NoneIff(f, s[..n]);
      assert forall i | 0 <= i < n :: s[..n][i] == s[i];
    }
  }

  /** A sample has no issue exactly when its outcome is expected, its phases are collected and its offset is where it belongs. */
  lemma SampleIssuesIff(plan: SamplePlan, s: Sample)
    ensures SampleIssues(plan, s) == [] <==> SoundFor(plan, s)
  {
    if s.evidence.Returned? && s.evidence.cohort.Some? {
      CohortAllowedIff(s, s.evidence.cohort.value);
      RequiredPhasesIff(s, s.evidence.cohort.value, s.evidence.phases);
    }
  }

  predicate SampleAgrees(plan: SamplePlan, s: Sample) {
    && s.index == plan.index
    && s.block == plan.block && s.batch == plan.batch && s.lane == plan.lane
    && s.scenario == plan.scenario && s.composition == plan.composition && s.surface == plan.surface
  }

  function PlanKey(p: SamplePlan): Key { [Number(p.index)] }

  function SampleKey(s: Sample): Key { [Number(s.index)] }

  function SampleIndex(s: Sample): nat { s.index }

  // ----- schedule balance -----

  const Surfaces: seq<Surface> := [FrozenBaseline, CurrentUnmeasured, CurrentMeasured]

  const Compositions: seq<Composition> := [PreOcc, InPessimistic]

  method CheckBalance(c: Config, plans: seq<SamplePlan>) returns (issues: seq<RunIssue>)
    ensures issues == [] <==> Balanced(c, plans)
  {
    var a := CheckCounts(plans, Uncontended, Surfaces, Compositions, c.samplesA);
    var b := CheckCounts(plans, SameOrderPair, [CurrentMeasured], Compositions, 2 * c.batchesB);
    var d := CheckCounts(plans, DifferentOrderPair, [CurrentMeasured], Compositions, 2 * c.batchesC);
    var e := CheckCounts(plans, LockNonAcquisition, [CurrentMeasured], [InPessimistic], c.samplesE);
    issues := a + b + d + e;
    BalancedListed(c, plans);
  }

  predicate CountsAre(plans: seq<SamplePlan>, scenario: Scenario, surfaces: seq<Surface>, compositions: seq<Composition>, expected: nat) {
    forall i, j | 0 <= i < |surfaces| && 0 <= j < |compositions| ::
      Count(plans, scenario, surfaces[i], compositions[j]) == expected
  }

  lemma CountsListed(plans: seq<SamplePlan>, scenario: Scenario, surfaces: seq<Surface>, compositions: seq<Composition>, expected: nat,
                     surface: Surface, composition: Composition)
    requires CountsAre(plans, scenario, surfaces, compositions, expected)
    requires surface in surfaces && composition in compositions
    ensures Count(plans, scenario, surface, composition) == expected
  {
  }

  lemma BalancedListed(c: Config, plans: seq<SamplePlan>)
    ensures Balanced(c, plans) <==>
            && CountsAre(plans, Uncontended, Surfaces, Compositions, c.samplesA)
            && CountsAre(plans, SameOrderPair, [CurrentMeasured], Compositions, 2 * c.batchesB)
            && CountsAre(plans, DifferentOrderPair, [CurrentMeasured], Compositions, 2 * c.batchesC)
            && CountsAre(plans, LockNonAcquisition, [CurrentMeasured], [InPessimistic], c.samplesE)
  {
    if && CountsAre(plans, Uncontended, Surfaces, Compositions, c.samplesA)
       && CountsAre(plans, SameOrderPair, [CurrentMeasured], Compositions, 2 * c.batchesB)
       && CountsAre(plans, DifferentOrderPair, [CurrentMeasured], Compositions, 2 * c.batchesC)
       && CountsAre(plans, LockNonAcquisition, [CurrentMeasured], [InPessimistic], c.samplesE)
    {
      forall surface, composition ensures Count(plans, Uncontended, surface, composition) == c.samplesA {
        SurfaceListed(surface);
        CompositionListed(composition);
        CountsListed(plans, Uncontended, Surfaces, Compositions, c.samplesA, surface, composition);
      }
      forall composition
        ensures Count(plans, SameOrderPair, CurrentMeasured, composition) == 2 * c.batchesB
        ensures Count(plans, DifferentOrderPair, CurrentMeasured, composition) == 2 * c.batchesC
      {
        CompositionListed(composition);
        CountsListed(plans, SameOrderPair, [CurrentMeasured], Compositions, 2 * c.batchesB, CurrentMeasured, composition);
        CountsListed(plans, DifferentOrderPair, [CurrentMeasured], Compositions, 2 * c.batchesC, CurrentMeasured, composition);
      }
      CountsListed(plans, LockNonAcquisition, [CurrentMeasured], [InPessimistic], c.samplesE, CurrentMeasured, InPessimistic);
    }
  }

  lemma SurfaceListed(surface: Surface)
    ensures surface in Surfaces
  {
    match surface
    case FrozenBaseline => assert Surfaces[0] == surface;
    case CurrentUnmeasured => assert Surfaces[1] == surface;
    case CurrentMeasured => assert Surfaces[2] == surface;
  }

  lemma CompositionListed(composition: Composition)
    ensures composition in Compositions
  {
    match composition
    case PreOcc => assert Compositions[0] == composition;
    case InPessimistic => assert Compositions[1] == composition;
  }

  method CheckCounts(plans: seq<SamplePlan>, scenario: Scenario, surfaces: seq<Surface>, compositions: seq<Composition>, expected: nat)
    returns (issues: seq<RunIssue>)
    ensures issues == [] <==> CountsAre(plans, scenario, surfaces, compositions, expected)
  {
    issues := [];
    for i := 0 to |surfaces|
      invariant issues == [] <==> CountsAre(plans, scenario, surfaces[..i], compositions, expected)
    {
      ghost var before := issues == [];
      for j := 0 to |compositions|
        invariant issues == [] <==>
                  before && forall k | 0 <= k < j :: Count(plans, scenario, surfaces[i], compositions[k]) == expected
      {
        if Count(plans, scenario, surfaces[i], compositions[j]) != expected {
          issues := issues + [Unbalanced(scenario, surfaces[i], compositions[j])];
        }
      }
      CountsNext(plans, scenario, surfaces, compositions, expected, i);
    }
    assert surfaces[..|surfaces|] == surfaces;
  }

  lemma CountsNext(plans: seq<SamplePlan>, scenario: Scenario, surfaces: seq<Surface>, compositions: seq<Composition>, expected: nat, i: nat)
    requires i < |surfaces|
    ensures CountsAre(plans, scenario, surfaces[..i + 1], compositions, expected) <==>
            && CountsAre(plans, scenario, surfaces[..i], compositions, expected)
            && forall k | 0 <= k < |compositions| :: Count(plans, scenario, surfaces[i], compositions[k]) == expected
  {
    var more := surfaces[..i + 1];
    assert more[i] == surfaces[i] && forall j | 0 <= j < i :: more[j] == surfaces[..i][j];
    if CountsAre(plans, scenario, more, compositions, expected) {
      forall j, k | 0 <= j < i && 0 <= k < |compositions|
        ensures Count(plans, scenario, surfaces[..i][j], compositions[k]) == expected
      {
        assert more[j] == surfaces[..i][j];
      }
      forall k | 0 <= k < |compositions| ensures Count(plans, scenario, surfaces[i], compositions[k]) == expected {
        assert more[i] == surfaces[i];
      }
    }
  }

  // ----- matched blocks -----

  function CompositionsSeen(found: map<Key, Sample>, planned: map<Key, SamplePlan>, batch: nat, surface: Surface): set<Composition> {
    set k | k in found && k in planned && found[k].scenario == Uncontended
         && found[k].batch == batch && found[k].surface == surface :: found[k].composition
  }

  function LanesSeen(found: map<Key, Sample>, planned: map<Key, SamplePlan>, plan: SamplePlan): set<nat> {
    set k | k in found && k in planned && found[k].scenario == plan.scenario
         && found[k].batch == plan.batch && found[k].composition == plan.composition :: found[k].lane
  }

  predicate BlockComplete(found: map<Key, Sample>, planned: map<Key, SamplePlan>, plan: SamplePlan) {
    && (plan.scenario == Uncontended ==> CompositionsSeen(found, planned, plan.batch, plan.surface) == {PreOcc, InPessimistic})
    && (IsPair(plan.scenario) ==> LanesSeen(found, planned, plan) == {0, 1})
  }

  method CheckBlocks(plans: seq<SamplePlan>, found: map<Key, Sample>, planned: map<Key, SamplePlan>) returns (issues: seq<RunIssue>)
    ensures issues == [] <==> forall i | 0 <= i < |plans| :: BlockComplete(found, planned, plans[i])
  {
    issues := [];
    for i := 0 to |plans|
      invariant issues == [] <==> forall j | 0 <= j < i :: BlockComplete(found, planned, plans[j])
    {
      if !BlockComplete(found, planned, plans[i]) { issues := issues + [IncompleteMatchedBlock(plans[i])]; }
    }
  }

  // ----- sufficiency -----

  predicate InCohortB(s: Sample, composition: Composition, cohort: Cohort) {
    && s.scenario == SameOrderPair && s.composition == composition
    && s.evidence.Returned? && s.evidence.cohort == Some(cohort)
  }

  function CohortCount(samples: seq<Sample>, composition: Composition, cohort: Cohort): nat {
    |FlatMap((s: Sample) => if InCohortB(s, composition, cohort) then [s] else [], samples)|
  }

  const RequiredCohorts: seq<(Composition, Cohort)> :=
    [(PreOcc, Accepted), (PreOcc, AppendStaleWrite), (InPessimistic, Accepted), (InPessimistic, PrepareLockTimeout)]

  predicate Sufficient(c: Config, samples: seq<Sample>) {
    forall i | 0 <= i < |RequiredCohorts| ::
      CohortCount(samples, RequiredCohorts[i].0, RequiredCohorts[i].1) >= c.minimumB
  }

  /** The samples of same-order pairs that returned in the cohort under the composition. */
  predicate Belongs(s: Sample, composition: Composition, cohort: Cohort) {
    s.scenario == SameOrderPair && s.composition == composition && s.evidence.Returned? && s.evidence.cohort == Some(cohort)
  }

  function Belonging(composition: Composition, cohort: Cohort): Sample -> bool {
    (s: Sample) => Belongs(s, composition, cohort)
  }

  lemma CohortCountIs(samples: seq<Sample>, composition: Composition, cohort: Cohort)
    ensures CohortCount(samples, composition, cohort) == |Having(samples, Belonging(composition, cohort))|
  {
    SelectedCount(samples, Belonging(composition, cohort),
                  (s: Sample) => if InCohortB(s, composition, cohort) then [s] else []);
  }

  /** Enough same-order samples were accepted under either composition, went stale under the one and timed out under the other. */
  lemma SufficientIff(c: Config, samples: seq<Sample>)
    ensures Sufficient(c, samples) <==>
            && |Having(samples, Belonging(PreOcc, Accepted))| >= c.minimumB
            && |Having(samples, Belonging(PreOcc, AppendStaleWrite))| >= c.minimumB
            && |Having(samples, Belonging(InPessimistic, Accepted))| >= c.minimumB
            && |Having(samples, Belonging(InPessimistic, PrepareLockTimeout))| >= c.minimumB
  {
    CohortCountIs(samples, PreOcc, Accepted);
    CohortCountIs(samples, PreOcc, AppendStaleWrite);
    CohortCountIs(samples, InPessimistic, Accepted);
    CohortCountIs(samples, InPessimistic, PrepareLockTimeout);
    assert RequiredCohorts[0] == (PreOcc, Accepted) && RequiredCohorts[1] == (PreOcc, AppendStaleWrite);
    assert RequiredCohorts[2] == (InPessimistic, Accepted) && RequiredCohorts[3] == (InPessimistic, PrepareLockTimeout);
  }

  method CheckSufficiency(c: Config, samples: seq<Sample>) returns (issues: seq<RunIssue>)
    ensures issues == [] <==> Sufficient(c, samples)
  {
    issues := [];
    for i := 0 to |RequiredCohorts|
      invariant issues == [] <==>
                forall j | 0 <= j < i :: CohortCount(samples, RequiredCohorts[j].0, RequiredCohorts[j].1) >= c.minimumB
    {
      if CohortCount(samples, RequiredCohorts[i].0, RequiredCohorts[i].1) < c.minimumB {
        issues := issues + [CohortInsufficient(RequiredCohorts[i].0, RequiredCohorts[i].1)];
      }
    }
  }

  // ----- the validator -----

  ghost predicate SamplesMatch(plans: seq<SamplePlan>, samples: seq<Sample>) {
    Enumerates(plans, samples, SampleIndex, SampleAgrees)
  }

  predicate AllSound(plans: seq<SamplePlan>, samples: seq<Sample>) {
    forall i | 0 <= i < |samples| ::
      samples[i].index < |plans| && SampleIssues(plans[samples[i].index], samples[i]) == []
  }

  predicate BlocksComplete(plans: seq<SamplePlan>, samples: seq<Sample>) {
    forall i | 0 <= i < |plans| ::
      BlockComplete(Dictionary(samples, SampleKey), Dictionary(plans, PlanKey), plans[i])
  }

  ghost predicate Reconciles(plans: seq<SamplePlan>, samples: seq<Sample>) {
    var found, planned := Dictionary(samples, SampleKey), Dictionary(plans, PlanKey);
    && DistinctBy(samples, SampleKey)
    && (forall k :: k in planned <==> k in found)
    && forall k | k in found && k in planned ::
         SampleAgrees(planned[k], found[k]) && SampleIssues(planned[k], found[k]) == []
  }

  ghost predicate Structural(c: Config, workers: nat, plans: seq<SamplePlan>, samples: seq<Sample>) {
    && workers == 2
    && DistinctBy(plans, PlanKey)
    && Balanced(c, plans)
    && Reconciles(plans, samples)
    && BlocksComplete(plans, samples)
  }

  method ValidateRecordedRun(c: Config, workers: nat, plans: seq<SamplePlan>, samples: seq<Sample>)
    returns (status: Status, issues: seq<RunIssue>)
    ensures status == InvalidRun <==> !Structural(c, workers, plans, samples)
    ensures status == Valid <==> Structural(c, workers, plans, samples) && Sufficient(c, samples)
    ensures status == Valid <==> issues == []
  {
    var invalid: seq<RunIssue> := if workers != 2 then [InvalidWorkerCount] else [];
    var planned, duplicates := CheckPlans(plans);
    var unbalanced := CheckBalance(c, plans);
    var found, findings := CheckSamples(plans, samples);
    var blocks := CheckBlocks(plans, found, planned);
    invalid := invalid + duplicates + unbalanced + Image(x => SampleFinding(x), findings) + blocks;
    var insufficient := CheckSufficiency(c, samples);
    if invalid != [] {
      return InvalidRun, invalid;
    }
    if insufficient != [] {
      return InsufficientEvidence, insufficient;
    }
    return Valid, [];
  }

  method CheckSamples(plans: seq<SamplePlan>, samples: seq<Sample>)
    returns (found: map<Key, Sample>, findings: seq<Finding<SampleIssue>>)
    ensures found == Dictionary(samples, SampleKey)
    ensures findings == [] <==> Reconciles(plans, samples)
  {
    found, findings := ReconcileByKey(plans, samples, PlanKey, SampleKey, SampleAgrees, SampleIssues);
  }

  method CheckPlans(plans: seq<SamplePlan>) returns (planned: map<Key, SamplePlan>, issues: seq<RunIssue>)
    ensures planned == Dictionary(plans, PlanKey)
    ensures issues == [] <==> DistinctBy(plans, PlanKey)
  {
    planned, issues := map[], [];
    for i := 0 to |plans|
      invariant planned == Dictionary(plans[..i], PlanKey)
      invariant issues == [] <==> DistinctBy(plans[..i], PlanKey)
    {
      DictionaryKeys(plans[..i], PlanKey, PlanKey(plans[i]));
      DistinctStep(plans, PlanKey, i);
      assert plans[..i + 1][..i] == plans[..i];
      if PlanKey(plans[i]) in planned { issues := issues + [DuplicatePlannedSample(plans[i].index)]; }
      planned := planned[PlanKey(plans[i]) := plans[i]];
    }
    assert plans[..|plans|] == plans;
  }
}
