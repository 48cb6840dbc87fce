/**
Invocation and batch records of the bounded-concurrency run: how a timed lane
observation becomes a record, when a record's evidence is acceptable, and how the
records of one synchronized burst are condensed into a batch record.
*/
module RunRecords {
  import opened Wrappers
  import opened Sequences
  import opened Ordering
  import opened FixedSchedule

  datatype Stage = Append | PrepareStream

  datatype Cohort = Accepted | AppendStaleWrite | PrepareLockTimeout

  datatype PhaseState = NotApplicable | NotReached | NotCollected | Measured

  datatype PhaseName =
    | ProducerWriteInvocation | BusinessUow | ValidationRuntimeCall
    | PreliminaryIdempotencyCheck | PreliminaryReadCleanup | AuthoritativeIdempotencyCheck
    | AcceptedHistoryLoad | ConcurrencyPreparationCall | PessimisticAdvisoryTryLockCall
    | AppendAdmissionCall | IdempotencyRecordCall | CommitFinalization | RollbackFinalization

  const PhaseNames: seq<PhaseName> := [
    ProducerWriteInvocation, BusinessUow, ValidationRuntimeCall,
    PreliminaryIdempotencyCheck, PreliminaryReadCleanup, AuthoritativeIdempotencyCheck,
    AcceptedHistoryLoad, ConcurrencyPreparationCall, PessimisticAdvisoryTryLockCall,
    AppendAdmissionCall, IdempotencyRecordCall, CommitFinalization, RollbackFinalization]

  /** A raw phase reading; `elapsed` is kept as delivered. */
  datatype Reading = Reading(state: PhaseState, elapsed: Option<int>)

  /** A phase record holds a non-negative duration exactly when it was measured. */
  datatype PhaseRecord = PhaseRecord(name: PhaseName, state: PhaseState, elapsed: Option<nat>)

  /** What one producer call gave back: an escaped exception, or a delivery with optional parts. */
  datatype Delivery =
    | Threw(exceptionType: string)
    | Gave(availability: Option<string>, measurement: Option<map<PhaseName, Reading>>,
           outcome: Option<string>, stream: Option<string>, append: Option<string>)

  datatype Observation = Observation(startNs: nat, elapsedNs: nat, delivery: Delivery)

  datatype Evidence =
    | Exceptional(exceptionType: string)
    | Normal(outcome: Option<string>, stage: Option<Stage>, stream: Option<string>, append: Option<string>,
             cohort: Option<Cohort>, availability: Option<string>, phases: Option<seq<PhaseRecord>>)

  datatype Invocation = Invocation(
    runId: string, index: nat, cellIndex: nat, batchIndex: nat, lane: nat, slot: nat,
    level: nat, family: Family, composition: Composition,
    elapsedNs: nat, startOffset: nat, evidence: Evidence)

  datatype TypedCount = TypedCount(outcome: string, count: nat)

  datatype Batch = Batch(
    runId: string, index: nat, cellIndex: nat, batchIndex: nat,
    level: nat, family: Family, composition: Composition,
    referenceNs: nat, firstStart: nat, lastStart: nat, elapsedNs: nat,
    completed: nat, accepted: nat, typedCounts: seq<TypedCount>)

  // ----- classification -----

  function RejectionStage(outcome: Option<string>, stream: Option<string>, append: Option<string>): Option<Stage> {
    if outcome != Some("ADMISSION_REJECTED") then None
    else if append.Some? then Some(Append)
    else if stream.Some? then Some(PrepareStream)
    else None
  }

  function Classify(outcome: Option<string>, stage: Option<Stage>, stream: Option<string>, append: Option<string>)
    : Option<Cohort>
  {
    if outcome == Some("ACCEPTED") && stage == None && stream == Some("ADMITTED") && append == Some("ADMITTED")
    then Some(Accepted)
    else if outcome == Some("ADMISSION_REJECTED") && stage == Some(Append)
            && stream == Some("ADMITTED") && append == Some("STALE_WRITE")
    then Some(AppendStaleWrite)
    else if outcome == Some("ADMISSION_REJECTED") && stage == Some(PrepareStream)
            && stream == Some("LOCK_TIMEOUT") && append == None
    then Some(PrepareLockTimeout)
    else None
  }

  function ParsePhase(name: PhaseName, measurement: map<PhaseName, Reading>): seq<PhaseRecord> {
    if name !in measurement then []
    else
      var reading := measurement[name];
      if reading.state == Measured then
        if reading.elapsed.Some? && reading.elapsed.value >= 0
        then [PhaseRecord(name, Measured, Some(reading.elapsed.value))] else []
      else if reading.elapsed == None then [PhaseRecord(name, reading.state, None)]
      else []
  }

  function ParsePhases(measurement: map<PhaseName, Reading>): seq<PhaseRecord> {
    FlatMap((name: PhaseName) => ParsePhase(name, measurement), PhaseNames)
  }

  function EvidenceOf(delivery: Delivery): Evidence {
    match delivery
    case Threw(exceptionType) => Exceptional(exceptionType)
    case Gave(availability, measurement, outcome, stream, append) =>
      var stage := RejectionStage(outcome, stream, append);
      var phases := if availability == Some("AVAILABLE") && measurement.Some?
                    then Some(ParsePhases(measurement.value)) else None;
      Normal(outcome, stage, stream, append, Classify(outcome, stage, stream, append), availability, phases)
  }

  function RecordOf(runId: string, index: nat, plan: BatchPlan, lane: nat, o: Observation, referenceNs: nat): Invocation
    requires o.startNs >= referenceNs
  {
    Invocation(runId, index, plan.cell.index, plan.batchIndex, lane, lane,
               plan.cell.level, plan.cell.family, plan.cell.composition,
               o.elapsedNs, o.startNs - referenceNs, EvidenceOf(o.delivery))
  }

  // ----- evidence issues -----

  /** The expected phase states; there is no matrix for the other pairs of composition and cohort. */
  predicate HasMatrix(composition: Composition, cohort: Cohort) {
    match composition
    case PreOcc => cohort == Accepted || cohort == AppendStaleWrite
    case InPessimistic => cohort == Accepted || cohort == PrepareLockTimeout
  }

  function Matrix(composition: Composition, cohort: Cohort, name: PhaseName): PhaseState
    requires HasMatrix(composition, cohort)
  {
    match name
    case ProducerWriteInvocation | BusinessUow | AuthoritativeIdempotencyCheck | ConcurrencyPreparationCall => Measured
    case PreliminaryIdempotencyCheck | PreliminaryReadCleanup =>
      if composition == PreOcc then Measured else NotApplicable
    case PessimisticAdvisoryTryLockCall => if composition == PreOcc then NotApplicable else Measured
    case ValidationRuntimeCall | AcceptedHistoryLoad | AppendAdmissionCall =>
      if cohort == PrepareLockTimeout then NotReached else Measured
    case IdempotencyRecordCall | CommitFinalization => if cohort == Accepted then Measured else NotReached
    case RollbackFinalization => if cohort == Accepted then NotReached else Measured
  }

  datatype Issue =
    | SlotViolation | UnexpectedException(exceptionType: string)
    | UnsupportedOutcome | UnsupportedCompositionCohort | UnsupportedWorkloadCohort
    | MeasurementUnavailable | MissingPhase | PhaseMismatch(phase: PhaseName)

  function CohortIssues(r: Invocation, cohort: Option<Cohort>): seq<Issue> {
    if cohort == None then [UnsupportedOutcome]
    else if !HasMatrix(r.composition, cohort.value) then [UnsupportedCompositionCohort]
    else if r.family == DifferentOrder && cohort.value != Accepted then [UnsupportedWorkloadCohort]
    else []
  }

  function Names(phases: seq<PhaseRecord>): (r: seq<PhaseName>)
    ensures |r| == |phases|
  {
    seq(|phases|, i requires 0 <= i < |phases| => phases[i].name)
  }

  /** The dictionary lookup by name: a later record of the same name would win. */
  function StateNamed(phases: seq<PhaseRecord>, name: PhaseName): Option<PhaseState> {
    if phases == [] then None
    else
      var last := phases[|phases| - 1];
      if last.name == name then Some(last.state) else StateNamed(phases[..|phases| - 1], name)
  }

  function MeasurementIssues(r: Invocation, e: Evidence): seq<Issue>
    requires e.Normal?
  {
    var phases := if e.phases.Some? then e.phases.value else [];
    if e.availability != Some("AVAILABLE") then [MeasurementUnavailable]
    else if ToSet(Names(phases)) != ToSet(PhaseNames) || |phases| != |PhaseNames| then [MissingPhase]
    else if e.cohort == None || !HasMatrix(r.composition, e.cohort.value) then []
    else Mismatches(phases, r.composition, e.cohort.value, PhaseNames)
  }

  function EvidenceIssues(r: Invocation): seq<Issue> {
    var ownership := if r.slot != r.lane then [SlotViolation] else [];
    match r.evidence
    case Exceptional(exceptionType) => ownership + [UnexpectedException(exceptionType)]
    case Normal(_, _, _, _, cohort, _, _) =>
      ownership + CohortIssues(r, cohort) + MeasurementIssues(r, r.evidence)
  }

  /** No record has an issue. */
  predicate Acceptable(records: seq<Invocation>) {
    forall i | 0 <= i < |records| :: EvidenceIssues(records[i]) == []
  }

  lemma AcceptableNext(records: seq<Invocation>, i: nat)
    requires i < |records| && Acceptable(records[..i]) && EvidenceIssues(records[i]) == []
    ensures Acceptable(records[..i + 1])
  {
    assert records[..i + 1] == records[..i] + [records[i]];
  }

  lemma NotAcceptable(records: seq<Invocation>, i: nat)
    requires i < |records| && EvidenceIssues(records[i]) != []
    ensures !Acceptable(records)
  {
  }

  method CheckRecords(records: seq<Invocation>) returns (ok: bool)
    ensures ok <==> Acceptable(records)
  {
    for i := 0 to |records|
      invariant Acceptable(records[..i])
    {
      if EvidenceIssues(records[i]) != [] {
        NotAcceptable(records, i);
        return false;
      }
      AcceptableNext(records, i);
    }
    assert records[..|records|] == records;
    ok := true;
  }

  // ----- when there are none -----

  /** Exactly one record for each of the thirteen phases, each in the state its matrix expects. */
  ghost predicate PhasesFollow(phases: seq<PhaseRecord>, composition: Composition, cohort: Cohort) {
    && HasMatrix(composition, cohort)
    && |phases| == |PhaseNames|
    && (forall i, j | 0 <= i < j < |phases| :: phases[i].name != phases[j].name)
    && (forall i | 0 <= i < |phases| :: phases[i].state == Matrix(composition, cohort, phases[i].name))
  }

  ghost predicate Sound(r: Invocation) {
    && r.slot == r.lane
    && r.evidence.Normal? && r.evidence.cohort.Some?
    && (r.family == DifferentOrder ==> r.evidence.cohort == Some(Accepted))
    && r.evidence.availability == Some("AVAILABLE")
    && r.evidence.phases.Some?
    && PhasesFollow(r.evidence.phases.value, r.composition, r.evidence.cohort.value)
  }

  lemma PhaseNamesComplete(name: PhaseName)
    ensures name in PhaseNames && name in ToSet(PhaseNames)
  {
    match name
    case ProducerWriteInvocation => assert PhaseNames[0] == name;
    case BusinessUow => assert PhaseNames[1] == name;
    case ValidationRuntimeCall => assert PhaseNames[2] == name;
    case PreliminaryIdempotencyCheck => assert PhaseNames[3] == name;
    case PreliminaryReadCleanup => assert PhaseNames[4] == name;
    case AuthoritativeIdempotencyCheck => assert PhaseNames[5] == name;
    case AcceptedHistoryLoad => assert PhaseNames[6] == name;
    case ConcurrencyPreparationCall => assert PhaseNames[7] == name;
    case PessimisticAdvisoryTryLockCall => assert PhaseNames[8] == name;
    case AppendAdmissionCall => assert PhaseNames[9] == name;
    case IdempotencyRecordCall => assert PhaseNames[10] == name;
    case CommitFinalization => assert PhaseNames[11] == name;
    case RollbackFinalization => assert PhaseNames[12] == name;
  }

  lemma PhaseNamesSize()
    ensures NoDuplicates(PhaseNames) && |ToSet(PhaseNames)| == |PhaseNames| == 13
  {
    ToSetSize(PhaseNames);
  }

  /** Thirteen records naming all thirteen phases name each exactly once, and conversely. */
  lemma NamesComplete(phases: seq<PhaseRecord>)
    requires |phases| == |PhaseNames|
    ensures ToSet(Names(phases)) == ToSet(PhaseNames) <==>
            (forall i, j | 0 <= i < j < |phases| :: phases[i].name != phases[j].name)
  {
    PhaseNamesSize();
    ToSetSize(Names(phases));
    forall n | n in ToSet(Names(phases)) ensures n in ToSet(PhaseNames) { PhaseNamesComplete(n); }
    SubsetSize(ToSet(Names(phases)), ToSet(PhaseNames));
    assert NoDuplicates(Names(phases)) <==>
           (forall i, j | 0 <= i < j < |phases| :: phases[i].name != phases[j].name) by {
      assert forall i | 0 <= i < |phases| :: Names(phases)[i] == phases[i].name;
    }
  }

  lemma SubsetSize<T>(a: set<T>, b: set<T>)
    requires a <= b
    ensures a == b <==> |a| == |b|
  {
    assert b == a + (b - a);
  }

  lemma {:induction false} StateNamedIs(phases: seq<PhaseRecord>, i: nat)
    requires i < |phases|
    requires forall i, j | 0 <= i < j < |phases| :: phases[i].name != phases[j].name
    ensures StateNamed(phases, phases[i].name) == Some(phases[i].state)
  {
    if i < |phases| - 1 {
      StateNamedIs(phases[..|phases| - 1], i);
    }
  }

  function Mismatches(phases: seq<PhaseRecord>, composition: Composition, cohort: Cohort, names: seq<PhaseName>)
    : seq<Issue>
    requires HasMatrix(composition, cohort)
  {
    FlatMap((name: PhaseName) =>
        if StateNamed(phases, name) == Some(Matrix(composition, cohort, name))
        then [] else [PhaseMismatch(name)], names)
  }

  lemma MeasurementIssuesIff(r: Invocation, e: Evidence)
    requires e.Normal? && e.cohort.Some? && HasMatrix(r.composition, e.cohort.value)
    ensures MeasurementIssues(r, e) == [] <==>
            e.availability == Some("AVAILABLE") && e.phases.Some?
            && PhasesFollow(e.phases.value, r.composition, e.cohort.value)
  {
    var phases := if e.phases.Some? then e.phases.value else [];
    if e.availability == Some("AVAILABLE") && |phases| == |PhaseNames| {
      NamesComplete(phases);
      if ToSet(Names(phases)) == ToSet(PhaseNames) {
        CompleteMismatches(phases, r.composition, e.cohort.value);
      }
    }
  }

  lemma CompleteMismatches(phases: seq<PhaseRecord>, composition: Composition, cohort: Cohort)
    requires HasMatrix(composition, cohort) && ToSet(Names(phases)) == ToSet(PhaseNames)
    requires forall i, j | 0 <= i < j < |phases| :: phases[i].name != phases[j].name
    ensures Mismatches(phases, composition, cohort, PhaseNames) == []
            <==> forall i | 0 <= i < |phases| :: phases[i].state == Matrix(composition, cohort, phases[i].name)
  {
    forall i | 0 <= i < |phases| ensures phases[i].name in PhaseNames { PhaseNamesComplete(phases[i].name); }
    forall k | 0 <= k < |PhaseNames| ensures PhaseNames[k] in Names(phases) {
      assert PhaseNames[k] in ToSet(Names(phases));
    }
    MismatchesIff(phases, composition, cohort, PhaseNames);
  }

  lemma MismatchesIff(phases: seq<PhaseRecord>, composition: Composition, cohort: Cohort, names: seq<PhaseName>)
    requires HasMatrix(composition, cohort)
    requires forall k | 0 <= k < |names| :: names[k] in Names(phases)
    requires forall i | 0 <= i < |phases| :: phases[i].name in names
    requires forall i, j | 0 <= i < j < |phases| :: phases[i].name != phases[j].name
    ensures Mismatches(phases, composition, cohort, names) == []
            <==> forall i | 0 <= i < |phases| :: phases[i].state == Matrix(composition, cohort, phases[i].name)
  {
    if Mismatches(phases, composition, cohort, names) == [] {
      forall i | 0 <= i < |phases| ensures phases[i].state == Matrix(composition, cohort, phases[i].name) {
        NoMismatchAt(phases, composition, cohort, names, i);
      }
    }
    if forall i | 0 <= i < |phases| :: phases[i].state == Matrix(composition, cohort, phases[i].name) {
      NoMismatches(phases, composition, cohort, names);
    }
  }

  lemma NoMismatchAt(phases: seq<PhaseRecord>, composition: Composition, cohort: Cohort, names: seq<PhaseName>, i: nat)
    requires HasMatrix(composition, cohort) && i < |phases| && phases[i].name in names
    requires forall i, j | 0 <= i < j < |phases| :: phases[i].name != phases[j].name
    requires Mismatches(phases, composition, cohort, names) == []
    ensures phases[i].state == Matrix(composition, cohort, phases[i].name)
  {
    var f := (name: PhaseName) =>
      if StateNamed(phases, name) == Some(Matrix(composition, cohort, name)) then [] else [PhaseMismatch(name)];
    StateNamedIs(phases, i);
    FlatMapMember(f, names, PhaseMismatch(phases[i].name));
  }

  lemma NoMismatches(phases: seq<PhaseRecord>, composition: Composition, cohort: Cohort, names: seq<PhaseName>)
    requires HasMatrix(composition, cohort)
    requires forall k | 0 <= k < |names| :: names[k] in Names(phases)
    requires forall i, j | 0 <= i < j < |phases| :: phases[i].name != phases[j].name
    requires forall i | 0 <= i < |phases| :: phases[i].state == Matrix(composition, cohort, phases[i].name)
    ensures Mismatches(phases, composition, cohort, names) == []
  {
    var f := (name: PhaseName) =>
      if StateNamed(phases, name) == Some(Matrix(composition, cohort, name)) then [] else [PhaseMismatch(name)];
    forall k | 0 <= k < |names| ensures f(names[k]) == [] {
      var i :| 0 <= i < |phases| && Names(phases)[i] == names[k];
      StateNamedIs(phases, i);
    }
    FlatMapNone(f, names);
  }

  /** A record is free of evidence issues exactly when its evidence is sound. */
  lemma EvidenceIssuesIff(r: Invocation)
    ensures EvidenceIssues(r) == [] <==> Sound(r)
  {
    if r.evidence.Normal? && r.evidence.cohort.Some? && HasMatrix(r.composition, r.evidence.cohort.value) {
      MeasurementIssuesIff(r, r.evidence);
    }
  }

  // ----- the same in terms of the raw delivery -----

  /** The delivery is one of the three supported terminal outcomes. */
  predicate Terminal(d: Delivery, cohort: Cohort) {
    d.Gave? &&
    match cohort
    case Accepted => d.outcome == Some("ACCEPTED") && d.stream == d.append == Some("ADMITTED")
    case AppendStaleWrite =>
      d.outcome == Some("ADMISSION_REJECTED") && d.stream == Some("ADMITTED") && d.append == Some("STALE_WRITE")
    case PrepareLockTimeout =>
      d.outcome == Some("ADMISSION_REJECTED") && d.stream == Some("LOCK_TIMEOUT") && d.append == None
  }

  /** Every phase was delivered in its expected state, with a duration exactly if measured. */
  ghost predicate Follows(m: map<PhaseName, Reading>, composition: Composition, cohort: Cohort) {
    && HasMatrix(composition, cohort)
    && forall name: PhaseName ::
         && name in m && m[name].state == Matrix(composition, cohort, name)
         && (if m[name].state == Measured then m[name].elapsed.Some? && m[name].elapsed.value >= 0
             else m[name].elapsed == None)
  }

  ghost predicate SoundDelivery(d: Delivery, cell: Cell) {
    exists cohort ::
      && Terminal(d, cohort)
      && (cell.family == DifferentOrder ==> cohort == Accepted)
      && d.availability == Some("AVAILABLE") && d.measurement.Some?
      && Follows(d.measurement.value, cell.composition, cohort)
  }

  lemma ClassifiedIffTerminal(d: Delivery, cohort: Cohort)
    requires d.Gave?
    ensures EvidenceOf(d).cohort == Some(cohort) <==> Terminal(d, cohort)
  {
  }

  lemma {:induction false} ParsedPhases(m: map<PhaseName, Reading>, names: seq<PhaseName>)
    requires NoDuplicates(names)
    ensures var p := FlatMap((name: PhaseName) => ParsePhase(name, m), names);
      && |p| <= |names|
      && (|p| == |names| <==> forall i | 0 <= i < |names| :: ParsePhase(names[i], m) != [])
      && (|p| == |names| ==> forall i | 0 <= i < |names| :: p[i] == ParsePhase(names[i], m)[0])
  {
    if names != [] {
      ParsedPhases(m, names[..|names| - 1]);
    }
  }

  lemma ParsedFollow(m: map<PhaseName, Reading>, composition: Composition, cohort: Cohort)
    ensures PhasesFollow(ParsePhases(m), composition, cohort) <==> Follows(m, composition, cohort)
  {
    PhaseNamesSize();
    forall name ensures name in PhaseNames { PhaseNamesComplete(name); }
    if HasMatrix(composition, cohort) {
      ParsedFollowAll(m, composition, cohort, PhaseNames);
    }
  }

  lemma ParsedFollowAll(m: map<PhaseName, Reading>, composition: Composition, cohort: Cohort, names: seq<PhaseName>)
    requires NoDuplicates(names) && forall name: PhaseName :: name in names
    requires HasMatrix(composition, cohort)
    ensures var p := FlatMap((name: PhaseName) => ParsePhase(name, m), names);
      (&& |p| == |names|
       && (forall i, j | 0 <= i < j < |p| :: p[i].name != p[j].name)
       && (forall i | 0 <= i < |p| :: p[i].state == Matrix(composition, cohort, p[i].name)))
      <==> Follows(m, composition, cohort)
  {
    ParsedPhases(m, names);
    var p := FlatMap((name: PhaseName) => ParsePhase(name, m), names);
    if |p| == |names| && forall i | 0 <= i < |p| :: p[i].state == Matrix(composition, cohort, p[i].name) {
      forall name: PhaseName ensures ParsePhase(name, m) != [] && name in m
                                  && m[name].state == Matrix(composition, cohort, name) {
        ParsedFollowsAt(m, composition, cohort, names, p, name);
      }
    }
    if Follows(m, composition, cohort) { FollowedParses(m, composition, cohort, names, p); }
  }

  lemma FollowedParses(m: map<PhaseName, Reading>, composition: Composition, cohort: Cohort, names: seq<PhaseName>,
                       p: seq<PhaseRecord>)
    requires NoDuplicates(names) && HasMatrix(composition, cohort) && Follows(m, composition, cohort)
    requires |p| == |names| <==> forall i | 0 <= i < |names| :: ParsePhase(names[i], m) != []
    requires |p| == |names| ==> forall i | 0 <= i < |names| :: p[i] == ParsePhase(names[i], m)[0]
    ensures |p| == |names|
    ensures forall i, j | 0 <= i < j < |p| :: p[i].name != p[j].name
    ensures forall i | 0 <= i < |p| :: p[i].state == Matrix(composition, cohort, p[i].name)
  {
    assert forall i | 0 <= i < |names| :: ParsePhase(names[i], m) != [];
    assert forall i | 0 <= i < |names| :: p[i].name == names[i];
  }

  lemma ParsedFollowsAt(m: map<PhaseName, Reading>, composition: Composition, cohort: Cohort, names: seq<PhaseName>,
                        p: seq<PhaseRecord>, name: PhaseName)
    requires HasMatrix(composition, cohort) && name in names && |p| == |names|
    requires forall i | 0 <= i < |names| :: ParsePhase(names[i], m) != [] && p[i] == ParsePhase(names[i], m)[0]
    requires forall i | 0 <= i < |p| :: p[i].state == Matrix(composition, cohort, p[i].name)
    ensures ParsePhase(name, m) != [] && name in m && m[name].state == Matrix(composition, cohort, name)
  {
    var i :| 0 <= i < |names| && names[i] == name;
    assert p[i] == ParsePhase(name, m)[0];
  }

  /** The record made from a lane's observation has no issue exactly when the raw delivery was sound. */
  lemma RecordSoundIff(runId: string, index: nat, plan: BatchPlan, lane: nat, o: Observation, referenceNs: nat)
    requires o.startNs >= referenceNs
    ensures EvidenceIssues(RecordOf(runId, index, plan, lane, o, referenceNs)) == [] <==>
            SoundDelivery(o.delivery, plan.cell)
  {
    var r := RecordOf(runId, index, plan, lane, o, referenceNs);
    EvidenceIssuesIff(r);
    var d := o.delivery;
    if d.Gave? {
      forall cohort ensures EvidenceOf(d).cohort == Some(cohort) <==> Terminal(d, cohort) {
        ClassifiedIffTerminal(d, cohort);
      }
      if d.measurement.Some? {
        forall cohort ensures PhasesFollow(ParsePhases(d.measurement.value), plan.cell.composition, cohort)
                         <==> Follows(d.measurement.value, plan.cell.composition, cohort) {
          ParsedFollow(d.measurement.value, plan.cell.composition, cohort);
        }
      }
    }
  }

  // ----- the expected states, phase by phase -----

  /** The thirteen states of each supported pair, in the order of PhaseNames; nothing for any other pair. */
  function ExpectedStates(composition: Composition, cohort: Cohort): seq<PhaseState> {
    match (composition, cohort)
    case (PreOcc, Accepted) =>
      [Measured, Measured, Measured, Measured, Measured, Measured, Measured,
       Measured, NotApplicable, Measured, Measured, Measured, NotReached]
    case (PreOcc, AppendStaleWrite) =>
      [Measured, Measured, Measured, Measured, Measured, Measured, Measured,
       Measured, NotApplicable, Measured, NotReached, NotReached, Measured]
    case (InPessimistic, Accepted) =>
      [Measured, Measured, Measured, NotApplicable, NotApplicable, Measured, Measured,
       Measured, Measured, Measured, Measured, Measured, NotReached]
    case (InPessimistic, PrepareLockTimeout) =>
      [Measured, Measured, NotReached, NotApplicable, NotApplicable, Measured, NotReached,
       Measured, Measured, NotReached, NotReached, NotReached, Measured]
    case _ => []
  }

  lemma MatrixIsListed(composition: Composition, cohort: Cohort)
    ensures HasMatrix(composition, cohort) <==> |ExpectedStates(composition, cohort)| == |PhaseNames|
    ensures HasMatrix(composition, cohort) <==> ExpectedStates(composition, cohort) != []
    ensures HasMatrix(composition, cohort) ==>
              forall i | 0 <= i < |PhaseNames| ::
                Matrix(composition, cohort, PhaseNames[i]) == ExpectedStates(composition, cohort)[i]
  {
    if HasMatrix(composition, cohort) {
      forall i | 0 <= i < |PhaseNames| ensures Matrix(composition, cohort, PhaseNames[i]) == ExpectedStates(composition, cohort)[i] {
        ListedAt(composition, cohort, i);
      }
    }
  }

  lemma ListedAt(composition: Composition, cohort: Cohort, i: nat)
    requires HasMatrix(composition, cohort) && i < 13
    ensures Matrix(composition, cohort, PhaseNames[i]) == ExpectedStates(composition, cohort)[i]
  {
    if i < 7 { ListedEarly(composition, cohort, i); } else { ListedLate(composition, cohort, i); }
  }

  lemma ListedEarly(composition: Composition, cohort: Cohort, i: nat)
    requires HasMatrix(composition, cohort) && i < 7
    ensures Matrix(composition, cohort, PhaseNames[i]) == ExpectedStates(composition, cohort)[i]
  {
    assert i == 0 || i == 1 || i == 2 || i == 3 || i == 4 || i == 5 || i == 6;
  }

  lemma ListedLate(composition: Composition, cohort: Cohort, i: nat)
    requires HasMatrix(composition, cohort) && 7 <= i < 13
    ensures Matrix(composition, cohort, PhaseNames[i]) == ExpectedStates(composition, cohort)[i]
  {
    assert i == 7 || i == 8 || i == 9 || i == 10 || i == 11 || i == 12;
  }

  /** A reading in the given state has a duration, not negative, exactly if it was measured. */
  predicate ReadAs(reading: Reading, state: PhaseState) {
    && reading.state == state
    && (if state == Measured then reading.elapsed.Some? && reading.elapsed.value >= 0 else reading.elapsed == None)
  }

  /** The measurement has each phase in its listed state. */
  predicate ReadsAsListed(m: map<PhaseName, Reading>, composition: Composition, cohort: Cohort) {
    && |ExpectedStates(composition, cohort)| == |PhaseNames|
    && forall i | 0 <= i < |PhaseNames| ::
         PhaseNames[i] in m && ReadAs(m[PhaseNames[i]], ExpectedStates(composition, cohort)[i])
  }

  lemma FollowsListed(m: map<PhaseName, Reading>, composition: Composition, cohort: Cohort)
    ensures Follows(m, composition, cohort) <==> ReadsAsListed(m, composition, cohort)
  {
    MatrixIsListed(composition, cohort);
    if ReadsAsListed(m, composition, cohort) {
      forall name: PhaseName ensures name in m && ReadAs(m[name], Matrix(composition, cohort, name)) {
        PhaseNamesComplete(name);
        var i :| 0 <= i < |PhaseNames| && PhaseNames[i] == name;
      }
    }
    if Follows(m, composition, cohort) {
      forall i | 0 <= i < |PhaseNames|
        ensures PhaseNames[i] in m && ReadAs(m[PhaseNames[i]], ExpectedStates(composition, cohort)[i])
      {
        assert PhaseNames[i] in m;
      }
    }
  }

  /** A delivery is sound exactly when its measured states are the list of its composition and terminal cohort. */
  lemma SoundDeliveryListed(d: Delivery, cell: Cell)
    ensures SoundDelivery(d, cell) <==>
            exists cohort ::
              && Terminal(d, cohort) && (cell.family == DifferentOrder ==> cohort == Accepted)
              && d.availability == Some("AVAILABLE") && d.measurement.Some?
              && ReadsAsListed(d.measurement.value, cell.composition, cohort)
  {
    if d.Gave? && d.measurement.Some? {
      forall cohort ensures Follows(d.measurement.value, cell.composition, cohort)
                       <==> ReadsAsListed(d.measurement.value, cell.composition, cohort) {
        FollowsListed(d.measurement.value, cell.composition, cohort);
      }
    }
  }

  predicate WasMeasured(d: Delivery, name: PhaseName) {
    d.Gave? && d.measurement.Some? && name in d.measurement.value && d.measurement.value[name].state == Measured
  }

  /**
   Of a sound delivery: exactly one of commit and rollback was measured, commit exactly when it was accepted; the
   try-lock exactly under the pessimistic composition, and the preliminary phases exactly under the other.
   */
  lemma SoundPhases(d: Delivery, cell: Cell)
    requires SoundDelivery(d, cell)
    ensures WasMeasured(d, CommitFinalization) <==> d.outcome == Some("ACCEPTED")
    ensures WasMeasured(d, RollbackFinalization) <==> d.outcome == Some("ADMISSION_REJECTED")
    ensures WasMeasured(d, CommitFinalization) <==> !WasMeasured(d, RollbackFinalization)
    ensures WasMeasured(d, IdempotencyRecordCall) <==> WasMeasured(d, CommitFinalization)
    ensures WasMeasured(d, PessimisticAdvisoryTryLockCall) <==> cell.composition == InPessimistic
    ensures WasMeasured(d, PreliminaryIdempotencyCheck) <==> cell.composition == PreOcc
    ensures WasMeasured(d, PreliminaryReadCleanup) <==> cell.composition == PreOcc
    ensures WasMeasured(d, AppendAdmissionCall) <==> d.append.Some?
  {
    var cohort :| Terminal(d, cohort) && d.measurement.Some? && Follows(d.measurement.value, cell.composition, cohort);
    TerminalIs(d, cohort);
    MeasuredOf(d, cell.composition, cohort);
  }

  lemma MeasuredOf(d: Delivery, composition: Composition, cohort: Cohort)
    requires d.Gave? && d.measurement.Some? && Follows(d.measurement.value, composition, cohort)
    ensures WasMeasured(d, CommitFinalization) <==> cohort == Accepted
    ensures WasMeasured(d, RollbackFinalization) <==> cohort != Accepted
    ensures WasMeasured(d, IdempotencyRecordCall) <==> cohort == Accepted
    ensures WasMeasured(d, PessimisticAdvisoryTryLockCall) <==> composition == InPessimistic
    ensures WasMeasured(d, PreliminaryIdempotencyCheck) <==> composition == PreOcc
    ensures WasMeasured(d, PreliminaryReadCleanup) <==> composition == PreOcc
    ensures WasMeasured(d, AppendAdmissionCall) <==> cohort != PrepareLockTimeout
  {
    forall name: PhaseName ensures WasMeasured(d, name) <==> Matrix(composition, cohort, name) == Measured {
      MeasuredByMatrix(d, composition, cohort, name);
    }
  }

  lemma MeasuredByMatrix(d: Delivery, composition: Composition, cohort: Cohort, name: PhaseName)
    requires d.Gave? && d.measurement.Some? && Follows(d.measurement.value, composition, cohort)
    ensures WasMeasured(d, name) <==> Matrix(composition, cohort, name) == Measured
  {
  }

  lemma TerminalIs(d: Delivery, cohort: Cohort)
    requires Terminal(d, cohort)
    ensures d.outcome == Some("ACCEPTED") <==> cohort == Accepted
    ensures d.outcome == Some("ADMISSION_REJECTED") <==> cohort != Accepted
    ensures d.append.Some? <==> cohort != PrepareLockTimeout
  {
    assert "ACCEPTED"[1] != "ADMISSION_REJECTED"[1];
  }

  // ----- batch records -----

  function CohortLabel(cohort: Cohort): string {
    match cohort
    case Accepted => "ACCEPTED"
    case AppendStaleWrite => "ADMISSION_REJECTED_APPEND_STALE_WRITE"
    case PrepareLockTimeout => "ADMISSION_REJECTED_PREPARE_LOCK_TIMEOUT"
  }

  function OrElse(text: Option<string>, fallback: string): string {
    if text.Some? && text.value != "" then text.value else fallback
  }

  function StageLabel(stage: Option<Stage>): string {
    match stage
    case None => "NONE"
    case Some(Append) => "append"
    case Some(PrepareStream) => "prepare_stream"
  }

  function Label(r: Invocation): string {
    match r.evidence
    case Exceptional(exceptionType) => "EXCEPTION::" + exceptionType
    case Normal(outcome, stage, stream, append, cohort, _, _) =>
      if cohort.Some? then CohortLabel(cohort.value)
      else "UNSUPPORTED::" + OrElse(outcome, "MISSING") + "::" + StageLabel(stage)
           + "::" + OrElse(stream, "NONE") + "::" + OrElse(append, "NONE")
  }

  function Labels(records: seq<Invocation>): (r: seq<Key>)
    ensures |r| == |records|
  {
    seq(|records|, i requires 0 <= i < |records| => [Text(Label(records[i]))])
  }

  /** Counter(labels) listed by sorted label. */
  function TypedCounts(records: seq<Invocation>): seq<TypedCount> {
    var keys := SortedKeys(Labels(records));
    seq(|keys|, i requires 0 <= i < |keys| =>
      TypedCount(if keys[i] != [] && keys[i][0].Text? then keys[i][0].text else "",
                 multiset(Labels(records))[keys[i]]))
  }

  predicate IsAccepted(r: Invocation) {
    r.evidence.Normal? && r.evidence.cohort == Some(Accepted)
  }

  function AcceptedCount(records: seq<Invocation>): nat {
    if records == [] then 0
    else AcceptedCount(records[..|records| - 1]) + if IsAccepted(records[|records| - 1]) then 1 else 0
  }

  function Least(values: seq<nat>): (m: nat)
    requires values != []
    ensures m in values && forall i | 0 <= i < |values| :: m <= values[i]
  {
    var last := values[|values| - 1];
    if |values| == 1 then last
    else
      var m := Least(values[..|values| - 1]);
      if last < m then last else m
  }

  function Greatest(values: seq<nat>): (m: nat)
    requires values != []
    ensures m in values && forall i | 0 <= i < |values| :: values[i] <= m
  {
    var last := values[|values| - 1];
    if |values| == 1 then last
    else
      var m := Greatest(values[..|values| - 1]);
      if last > m then last else m
  }

  function Starts(records: seq<Invocation>): (r: seq<nat>)
    ensures |r| == |records|
  {
    seq(|records|, i requires 0 <= i < |records| => records[i].startOffset)
  }

  function Stops(records: seq<Invocation>): (r: seq<nat>)
    ensures |r| == |records|
  {
    seq(|records|, i requires 0 <= i < |records| => records[i].startOffset + records[i].elapsedNs)
  }

  function BuildBatch(runId: string, index: nat, plan: BatchPlan, referenceNs: nat, records: seq<Invocation>): Batch
    requires records != []
  {
    Batch(runId, index, plan.cell.index, plan.batchIndex,
          plan.cell.level, plan.cell.family, plan.cell.composition,
          referenceNs, Least(Starts(records)), Greatest(Starts(records)), Greatest(Stops(records)),
          |records|, AcceptedCount(records), TypedCounts(records))
  }

  /** The checks the batch record makes on its own construction. */
  predicate WellFormed(b: Batch) {
    && b.firstStart <= b.lastStart
    && b.accepted <= b.completed
    && (forall i | 0 <= i < |b.typedCounts| :: b.typedCounts[i].count > 0)
    && (forall i, j | 0 <= i < j < |b.typedCounts| ::
          TextLess(b.typedCounts[i].outcome, b.typedCounts[j].outcome))
    && TotalCount(b.typedCounts) == b.completed
  }

  function TotalCount(counts: seq<TypedCount>): nat {
    if counts == [] then 0 else TotalCount(counts[..|counts| - 1]) + counts[|counts| - 1].count
  }

  function SumCounts<T(==)>(keys: seq<T>, s: seq<T>): nat {
    if keys == [] then 0 else SumCounts(keys[..|keys| - 1], s) + multiset(s)[keys[|keys| - 1]]
  }

  lemma {:induction false} SumCountsStep<T>(keys: seq<T>, s: seq<T>, x: T)
    requires NoDuplicates(keys)
    ensures SumCounts(keys, s + [x]) == SumCounts(keys, s) + if x in keys then 1 else 0
  {
    if keys != [] {
      SumCountsStep(keys[..|keys| - 1], s, x);
      assert keys == keys[..|keys| - 1] + [keys[|keys| - 1]];
    }
  }

  /** Counting by distinct keys that cover a sequence counts each element once. */
  lemma {:induction false} SumCountsTotal<T>(keys: seq<T>, s: seq<T>)
    requires NoDuplicates(keys)
    requires forall i | 0 <= i < |s| :: s[i] in keys
    ensures SumCounts(keys, s) == |s|
    decreases |s|
  {
    if s == [] {
      SumCountsNone(keys);
    } else {
      SumCountsTotal(keys, s[..|s| - 1]);
      SumCountsStep(keys, s[..|s| - 1], s[|s| - 1]);
      assert s == s[..|s| - 1] + [s[|s| - 1]];
    }
  }

  lemma {:induction false} SumCountsNone<T>(keys: seq<T>)
    ensures SumCounts(keys, []) == 0
  {
    if keys != [] { SumCountsNone(keys[..|keys| - 1]); }
  }

  lemma {:induction false} TotalIsSum(counts: seq<TypedCount>, keys: seq<Key>, labels: seq<Key>)
    requires |counts| == |keys|
    requires forall i | 0 <= i < |keys| :: counts[i].count == multiset(labels)[keys[i]]
    ensures TotalCount(counts) == SumCounts(keys, labels)
  {
    if keys != [] { TotalIsSum(counts[..|keys| - 1], keys[..|keys| - 1], labels); }
  }

  lemma TypedCountsConserve(records: seq<Invocation>)
    ensures TotalCount(TypedCounts(records)) == |records|
    ensures forall i | 0 <= i < |TypedCounts(records)| :: TypedCounts(records)[i].count > 0
  {
    var labels := Labels(records);
    var keys := SortedKeys(labels);
    AscendingDistinct(keys);
    forall i | 0 <= i < |labels| ensures labels[i] in keys { assert labels[i] in labels; }
    SumCountsTotal(keys, labels);
    TotalIsSum(TypedCounts(records), keys, labels);
    forall i | 0 <= i < |keys| ensures multiset(labels)[keys[i]] > 0 {
      assert keys[i] in keys;
    }
  }

  lemma TypedCountsSorted(records: seq<Invocation>, i: nat, j: nat)
    requires i < j < |TypedCounts(records)|
    ensures TextLess(TypedCounts(records)[i].outcome, TypedCounts(records)[j].outcome)
  {
    var keys := SortedKeys(Labels(records));
    assert keys[i] in keys && keys[j] in keys;
    LabelKey(records, keys[i]);
    LabelKey(records, keys[j]);
    SingleKeyLess(keys[i], keys[j]);
  }

  lemma SingleKeyLess(a: Key, b: Key)
    requires |a| == |b| == 1 && KeyLess(a, b)
    ensures AtomLess(a[0], b[0])
  {
    assert b[1..] == [];
  }

  lemma LabelKey(records: seq<Invocation>, key: Key)
    requires key in Labels(records)
    ensures |key| == 1 && key[0].Text?
  {
  }

  lemma {:induction false} AcceptedAtMost(records: seq<Invocation>)
    ensures AcceptedCount(records) <= |records|
  {
    if records != [] { AcceptedAtMost(records[..|records| - 1]); }
  }

  /** The batch record built from any non-empty burst passes every check its constructor makes. */
  lemma BuiltBatchIsWellFormed(runId: string, index: nat, plan: BatchPlan, referenceNs: nat, records: seq<Invocation>)
    requires records != []
    ensures WellFormed(BuildBatch(runId, index, plan, referenceNs, records))
  {
    var b := BuildBatch(runId, index, plan, referenceNs, records);
    AcceptedAtMost(records);
    TypedCountsConserve(records);
    forall i, j | 0 <= i < j < |b.typedCounts|
      ensures TextLess(b.typedCounts[i].outcome, b.typedCounts[j].outcome)
    {
      TypedCountsSorted(records, i, j);
    }
    assert b.firstStart <= Starts(records)[0] <= b.lastStart;
  }
}
