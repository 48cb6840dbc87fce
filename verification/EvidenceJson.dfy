/**
JSON value trees and the conversions of run records to and from closed JSON objects.
Field names are an enumeration; how a tree is written as text is a parameter of the
file model.
*/
module EvidenceJson {
  import opened Wrappers
  import opened Sequences
  import opened Rationals
  import opened DescriptiveStatistics
  import opened FixedSchedule
  import opened RunRecords
  import opened RecordedExecutor
  import opened CohortAggregation
  import opened BatchRates

  datatype Field =
    | SchemaName | SchemaVersion | RunId | InvocationIndexField | BatchRecordIndex | CellIndex | BatchIndexField
    | LaneIndex | ConnectionSlot | WorkerLevel | WorkloadFamily | CompositionField | ExternalElapsed | StartOffset
    | ProducerOutcome | RejectionStageField | StreamVerdict | AppendVerdict | CohortField | Availability | Phases
    | ExceptionType | Name | State | ElapsedNs | ReleaseReference | FirstStart | LastStart | BatchElapsed
    | CompletedCount | AcceptedCountField | TypedOutcomeCounts | OutcomeField | CountField | ThreadId
    | Minimum | Maximum | MeanField | MedianField | PhaseNameField | StatisticsField | AcceptedRateField | AllRateField
    | SourceCommit | ServerVersion | Isolation | Autocommit | TopologyLabel

  datatype Json =
    | Null | Boolean(truth: bool) | Integer(whole: int) | Number(exact: real) | Str(text: string)
    | Array(items: seq<Json>) | Object(fields: map<Field, Json>)

  const SchemaText := "stage4b2-pr7-bounded-concurrency"

  /** A value that can be written down: every number in it is a quotient of integers. */
  ghost predicate Printable(v: Json) {
    match v
    case Number(x) => Rational(x)
    case Array(items) => forall i | 0 <= i < |items| :: Printable(items[i])
    case Object(fields) => forall f | f in fields.Keys :: Printable(fields[f])
    case _ => true
  }

  // ----- parts -----

  predicate Closed(v: Json, fields: set<Field>) {
    v.Object? && v.fields.Keys == fields
  }

  function Map<T, U>(f: T -> U, s: seq<T>): (r: seq<U>)
    ensures |r| == |s| && forall i | 0 <= i < |s| :: r[i] == f(s[i])
  {
    seq(|s|, i requires 0 <= i < |s| => f(s[i]))
  }

  /** Every item decoded, or none of them. */
  function DecodeAll<T>(decode: Json -> Option<T>, items: seq<Json>): Option<seq<T>> {
    if items == [] then Some([])
    else
      match (DecodeAll(decode, items[..|items| - 1]), decode(items[|items| - 1]))
      case (Some(earlier), Some(last)) => Some(earlier + [last])
      case _ => None
  }

  lemma {:induction false} DecodeAllInverts<T>(encode: T -> Json, decode: Json -> Option<T>, s: seq<T>)
    requires forall i | 0 <= i < |s| :: decode(encode(s[i])) == Some(s[i])
    ensures DecodeAll(decode, Map(encode, s)) == Some(s)
  {
    if s != [] {
      var n := |s| - 1;
      DecodeAllInverts(encode, decode, s[..n]);
      assert Map(encode, s)[..n] == Map(encode, s[..n]);
      assert s == s[..n] + [s[n]];
    }
  }

  function NatOf(v: Json): Option<nat> {
    if v.Integer? && v.whole >= 0 then Some(v.whole) else None
  }

  function TextOf(v: Json): Option<string> {
    if v.Str? then Some(v.text) else None
  }

  function EncodeOptional(o: Option<string>): Json {
    match o
    case None => Null
    case Some(t) => Str(t)
  }

  function OptionalOf(v: Json): Option<Option<string>> {
    match v
    case Null => Some(None)
    case Str(t) => Some(Some(t))
    case _ => None
  }

  // ----- enumerations by their text -----

  function FamilyOf(v: Json): Option<Family> {
    if v == Str(FamilyText(SameOrder)) then Some(SameOrder)
    else if v == Str(FamilyText(DifferentOrder)) then Some(DifferentOrder)
    else None
  }

  function CompositionOf(v: Json): Option<Composition> {
    if v == Str(CompositionText(PreOcc)) then Some(PreOcc)
    else if v == Str(CompositionText(InPessimistic)) then Some(InPessimistic)
    else None
  }

  function CohortOf(v: Json): Option<Cohort> {
    if v == Str(CohortLabel(Accepted)) then Some(Accepted)
    else if v == Str(CohortLabel(AppendStaleWrite)) then Some(AppendStaleWrite)
    else if v == Str(CohortLabel(PrepareLockTimeout)) then Some(PrepareLockTimeout)
    else None
  }

  function EncodeCohort(c: Option<Cohort>): Json {
    if c.Some? then Str(CohortLabel(c.value)) else Null
  }

  function OptionalCohortOf(v: Json): Option<Option<Cohort>> {
    if v == Null then Some(None)
    else if CohortOf(v).Some? then Some(CohortOf(v))
    else None
  }

  function StageText(s: Stage): string {
    match s
    case Append => "append"
    case PrepareStream => "prepare_stream"
  }

  function EncodeStage(s: Option<Stage>): Json {
    if s.Some? then Str(StageText(s.value)) else Null
  }

  function OptionalStageOf(v: Json): Option<Option<Stage>> {
    if v == Null then Some(None)
    else if v == Str(StageText(Append)) then Some(Some(Append))
    else if v == Str(StageText(PrepareStream)) then Some(Some(PrepareStream))
    else None
  }

  function StateText(s: PhaseState): string {
    match s
    case NotApplicable => "NOT_APPLICABLE"
    case NotReached => "NOT_REACHED"
    case NotCollected => "NOT_COLLECTED"
    case Measured => "MEASURED"
  }

  function StateOf(v: Json): Option<PhaseState> {
    if v == Str(StateText(NotApplicable)) then Some(NotApplicable)
    else if v == Str(StateText(NotReached)) then Some(NotReached)
    else if v == Str(StateText(NotCollected)) then Some(NotCollected)
    else if v == Str(StateText(Measured)) then Some(Measured)
    else None
  }

  function PhaseText(n: PhaseName): string {
    match n
    case ProducerWriteInvocation => "producer_write_invocation"
    case BusinessUow => "business_uow"
    case ValidationRuntimeCall => "validation_runtime_call"
    case PreliminaryIdempotencyCheck => "preliminary_idempotency_check"
    case PreliminaryReadCleanup => "preliminary_read_cleanup"
    case AuthoritativeIdempotencyCheck => "authoritative_idempotency_check"
    case AcceptedHistoryLoad => "accepted_history_load"
    case ConcurrencyPreparationCall => "concurrency_preparation_call"
    case PessimisticAdvisoryTryLockCall => "pessimistic_advisory_try_lock_call"
    case AppendAdmissionCall => "append_admission_call"
    case IdempotencyRecordCall => "idempotency_record_call"
    case CommitFinalization => "commit_finalization"
    case RollbackFinalization => "rollback_finalization"
  }

  function FindPhase(names: seq<PhaseName>, text: string): Option<PhaseName> {
    if names == [] then None
    else if PhaseText(names[0]) == text then Some(names[0])
    else FindPhase(names[1..], text)
  }

  function PhaseOf(v: Json): Option<PhaseName> {
    if v.Str? then FindPhase(PhaseNames, v.text) else None
  }

  lemma StatesDiffer()
    ensures |StateText(NotApplicable)| == 14 && |StateText(NotReached)| == 11
    ensures |StateText(NotCollected)| == 13 && |StateText(Measured)| == 8
    ensures |StageText(Append)| != |StageText(PrepareStream)|
  {
  }

  /** How long each name is; three names are of length 21 and two of length 23. */
  function PhaseSize(n: PhaseName): nat {
    match n
    case ProducerWriteInvocation => 25
    case BusinessUow => 12
    case ValidationRuntimeCall => 23
    case PreliminaryIdempotencyCheck => 29
    case PreliminaryReadCleanup => 24
    case AuthoritativeIdempotencyCheck => 31
    case AcceptedHistoryLoad => 21
    case ConcurrencyPreparationCall => 28
    case PessimisticAdvisoryTryLockCall => 34
    case AppendAdmissionCall => 21
    case IdempotencyRecordCall => 23
    case CommitFinalization => 19
    case RollbackFinalization => 21
  }

  lemma PhaseLength(n: PhaseName)
    ensures |PhaseText(n)| == PhaseSize(n)
  {
  }

  lemma SecondLetters()
    ensures PhaseText(AcceptedHistoryLoad)[1] == 'c' && PhaseText(AppendAdmissionCall)[1] == 'p'
    ensures PhaseText(RollbackFinalization)[1] == 'o'
    ensures PhaseText(ValidationRuntimeCall)[1] == 'a' && PhaseText(IdempotencyRecordCall)[1] == 'd'
  {
  }

  /** Length and second letter tell the thirteen phase names apart. */
  lemma PhaseTextInjective(m: PhaseName, n: PhaseName)
    requires PhaseText(m) == PhaseText(n)
    ensures m == n
  {
    PhaseLength(m);
    PhaseLength(n);
    SecondLetters();
  }

  lemma {:induction false} FindPhaseInverts(names: seq<PhaseName>, n: PhaseName)
    requires n in names
    ensures FindPhase(names, PhaseText(n)) == Some(n)
  {
    if PhaseText(names[0]) == PhaseText(n) {
      PhaseTextInjective(names[0], n);
    } else {
      FindPhaseInverts(names[1..], n);
    }
  }

  lemma EnumsInvert(f: Family, c: Composition, h: Cohort)
    ensures FamilyOf(Str(FamilyText(f))) == Some(f)
    ensures CompositionOf(Str(CompositionText(c))) == Some(c)
    ensures CohortOf(Str(CohortLabel(h))) == Some(h)
  {
    TextsDiffer();
  }

  lemma OptionalsInvert(s: Option<Stage>, h: Option<Cohort>, t: Option<string>)
    ensures OptionalStageOf(EncodeStage(s)) == Some(s)
    ensures OptionalCohortOf(EncodeCohort(h)) == Some(h)
    ensures OptionalOf(EncodeOptional(t)) == Some(t)
  {
    StatesDiffer();
    if h.Some? { EnumsInvert(SameOrder, PreOcc, h.value); }
  }

  lemma StateInverts(s: PhaseState)
    ensures StateOf(Str(StateText(s))) == Some(s)
  {
    StatesDiffer();
  }

  lemma PhaseInverts(n: PhaseName)
    ensures PhaseOf(Str(PhaseText(n))) == Some(n)
  {
    PhaseNamesComplete(n);
    FindPhaseInverts(PhaseNames, n);
  }

  // ----- phases -----

  predicate PhaseConstructed(p: PhaseRecord) {
    p.state == Measured <==> p.elapsed.Some?
  }

  function EncodePhase(p: PhaseRecord): Json {
    Object(map[Name := Str(PhaseText(p.name)), State := Str(StateText(p.state)),
               ElapsedNs := if p.elapsed.Some? then Integer(p.elapsed.value) else Null])
  }

  function DecodePhase(v: Json): Option<PhaseRecord> {
    if !Closed(v, {Name, State, ElapsedNs}) then None
    else
      match (PhaseOf(v.fields[Name]), StateOf(v.fields[State]))
      case (Some(name), Some(state)) =>
        if state == Measured then
          (match NatOf(v.fields[ElapsedNs])
           case Some(n) => Some(PhaseRecord(name, state, Some(n)))
           case None => None)
        else if v.fields[ElapsedNs] == Null then Some(PhaseRecord(name, state, None))
        else None
      case _ => None
  }

  lemma PhaseRoundTrip(p: PhaseRecord)
    requires PhaseConstructed(p)
    ensures DecodePhase(EncodePhase(p)) == Some(p)
  {
    PhaseInverts(p.name);
    StateInverts(p.state);
  }

  function EncodePhases(phases: Option<seq<PhaseRecord>>): Json {
    match phases
    case None => Null
    case Some(s) => Array(Map(EncodePhase, s))
  }

  function DecodePhases(v: Json): Option<Option<seq<PhaseRecord>>> {
    match v
    case Null => Some(None)
    case Array(items) =>
      (match DecodeAll(DecodePhase, items)
       case Some(s) => Some(Some(s))
       case None => None)
    case _ => None
  }

  lemma PhasesRoundTrip(phases: Option<seq<PhaseRecord>>)
    requires phases.Some? ==> forall i | 0 <= i < |phases.value| :: PhaseConstructed(phases.value[i])
    ensures DecodePhases(EncodePhases(phases)) == Some(phases)
  {
    if phases.Some? {
      forall i | 0 <= i < |phases.value| ensures DecodePhase(EncodePhase(phases.value[i])) == Some(phases.value[i]) {
        PhaseRoundTrip(phases.value[i]);
      }
      DecodeAllInverts(EncodePhase, DecodePhase, phases.value);
    }
  }

  // ----- invocations -----

  /** What the record checks when it is constructed. */
  predicate InvocationConstructed(retained: seq<nat>, r: Invocation) {
    && r.runId != "" && r.level in retained && r.lane < r.level && r.slot < r.level
    && (r.evidence.Exceptional? ==> r.evidence.exceptionType != "")
    && (r.evidence.Normal? && r.evidence.phases.Some? ==>
          && (forall i | 0 <= i < |r.evidence.phases.value| :: PhaseConstructed(r.evidence.phases.value[i]))
          && NoDuplicates(Names(r.evidence.phases.value)))
  }

  const LabelFields := {SchemaName, SchemaVersion, RunId, WorkerLevel, WorkloadFamily, CompositionField}

  const PositionFields := {InvocationIndexField, CellIndex, BatchIndexField, LaneIndex, ConnectionSlot, ExternalElapsed, StartOffset}

  const EvidenceFields := {ProducerOutcome, RejectionStageField, StreamVerdict, AppendVerdict, CohortField, Availability,
                           Phases, ExceptionType}

  function EncodeLabels(runId: string, level: nat, family: Family, composition: Composition): map<Field, Json> {
    map[SchemaName := Str(SchemaText), SchemaVersion := Integer(1), RunId := Str(runId), WorkerLevel := Integer(level),
        WorkloadFamily := Str(FamilyText(family)), CompositionField := Str(CompositionText(composition))]
  }

  function EncodePosition(r: Invocation): map<Field, Json> {
    map[InvocationIndexField := Integer(r.index), CellIndex := Integer(r.cellIndex), BatchIndexField := Integer(r.batchIndex),
        LaneIndex := Integer(r.lane), ConnectionSlot := Integer(r.slot),
        ExternalElapsed := Integer(r.elapsedNs), StartOffset := Integer(r.startOffset)]
  }

  function EncodeEvidence(e: Evidence): map<Field, Json> {
    match e
    case Exceptional(t) =>
      map[ProducerOutcome := Null, RejectionStageField := Null, StreamVerdict := Null, AppendVerdict := Null,
          CohortField := Null, Availability := Null, Phases := Null, ExceptionType := Str(t)]
    case Normal(outcome, stage, stream, append, cohort, availability, phases) =>
      map[ProducerOutcome := EncodeOptional(outcome), RejectionStageField := EncodeStage(stage),
          StreamVerdict := EncodeOptional(stream), AppendVerdict := EncodeOptional(append),
          CohortField := EncodeCohort(cohort), Availability := EncodeOptional(availability),
          Phases := EncodePhases(phases), ExceptionType := Null]
  }

  function EncodeInvocation(r: Invocation): Json {
    Object(EncodeLabels(r.runId, r.level, r.family, r.composition) + EncodePosition(r) + EncodeEvidence(r.evidence))
  }

  function DecodeEvidence(m: map<Field, Json>): Option<Evidence>
    requires EvidenceFields <= m.Keys
  {
    match m[ExceptionType]
    case Str(t) =>
      if m[ProducerOutcome] == m[RejectionStageField] == m[StreamVerdict] == m[AppendVerdict] == Null
         && m[CohortField] == m[Availability] == m[Phases] == Null
      then Some(Exceptional(t)) else None
    case Null =>
      (match (OptionalOf(m[ProducerOutcome]), OptionalStageOf(m[RejectionStageField]), OptionalOf(m[StreamVerdict]),
              OptionalOf(m[AppendVerdict]), OptionalCohortOf(m[CohortField]), OptionalOf(m[Availability]),
              DecodePhases(m[Phases]))
       case (Some(outcome), Some(stage), Some(stream), Some(append), Some(cohort), Some(availability), Some(phases)) =>
         Some(Normal(outcome, stage, stream, append, cohort, availability, phases))
       case _ => None)
    case _ => None
  }

  datatype Labels = Labels(runId: string, level: nat, family: Family, composition: Composition)

  function DecodeLabels(m: map<Field, Json>): Option<Labels>
    requires LabelFields <= m.Keys
  {
    if m[SchemaName] != Str(SchemaText) || m[SchemaVersion] != Integer(1) then None
    else
      match (TextOf(m[RunId]), NatOf(m[WorkerLevel]), FamilyOf(m[WorkloadFamily]), CompositionOf(m[CompositionField]))
      case (Some(runId), Some(level), Some(family), Some(composition)) => Some(Labels(runId, level, family, composition))
      case _ => None
  }

  /** A record with everything but its labels and evidence. */
  function DecodePosition(m: map<Field, Json>): Option<Invocation>
    requires PositionFields <= m.Keys
  {
    match (NatOf(m[InvocationIndexField]), NatOf(m[CellIndex]), NatOf(m[BatchIndexField]), NatOf(m[LaneIndex]),
           NatOf(m[ConnectionSlot]), NatOf(m[ExternalElapsed]), NatOf(m[StartOffset]))
    case (Some(index), Some(cell), Some(batch), Some(lane), Some(slot), Some(elapsed), Some(start)) =>
      Some(Invocation("", index, cell, batch, lane, slot, 0, SameOrder, PreOcc, elapsed, start, Exceptional("")))
    case _ => None
  }

  function DecodeInvocation(retained: seq<nat>): Json -> Option<Invocation> {
    (v: Json) =>
      if !Closed(v, LabelFields + PositionFields + EvidenceFields) then None
      else
        match (DecodeLabels(v.fields), DecodePosition(v.fields), DecodeEvidence(v.fields))
        case (Some(l), Some(n), Some(evidence)) =>
          var r := n.(runId := l.runId, level := l.level, family := l.family, composition := l.composition, evidence := evidence);
          if InvocationConstructed(retained, r) then Some(r) else None
        case _ => None
  }

  lemma ExceptionRoundTrip(e: Evidence, m: map<Field, Json>)
    requires e.Exceptional? && EvidenceFields <= m.Keys && Holds(m, EncodeEvidence(e))
    ensures DecodeEvidence(m) == Some(e)
  {
    EvidenceValues(e, m);
  }

  /** The eight evidence fields, one by one. */
  lemma EvidenceValues(e: Evidence, m: map<Field, Json>)
    requires EvidenceFields <= m.Keys && Holds(m, EncodeEvidence(e))
    ensures var part := EncodeEvidence(e);
            && part.Keys == EvidenceFields
            && m[ProducerOutcome] == part[ProducerOutcome] && m[RejectionStageField] == part[RejectionStageField]
            && m[StreamVerdict] == part[StreamVerdict] && m[AppendVerdict] == part[AppendVerdict]
            && m[CohortField] == part[CohortField] && m[Availability] == part[Availability]
            && m[Phases] == part[Phases] && m[ExceptionType] == part[ExceptionType]
  {
    EvidenceKeys(e);
  }

  lemma EvidenceRoundTrip(e: Evidence, m: map<Field, Json>)
    requires e.Normal? && e.phases.Some? ==> forall i | 0 <= i < |e.phases.value| :: PhaseConstructed(e.phases.value[i])
    requires EvidenceFields <= m.Keys && Holds(m, EncodeEvidence(e))
    ensures DecodeEvidence(m) == Some(e)
  {
    if e.Exceptional? {
      ExceptionRoundTrip(e, m);
    } else {
      EvidenceValues(e, m);
      PhasesRoundTrip(e.phases);
      NormalRoundTrip(e, m);
    }
  }

  lemma NormalRoundTrip(e: Evidence, m: map<Field, Json>)
    requires e.Normal? && EvidenceFields <= m.Keys
    requires m[ExceptionType] == Null
    requires m[ProducerOutcome] == EncodeOptional(e.outcome) && m[RejectionStageField] == EncodeStage(e.stage)
    requires m[StreamVerdict] == EncodeOptional(e.stream) && m[AppendVerdict] == EncodeOptional(e.append)
    requires m[CohortField] == EncodeCohort(e.cohort) && m[Availability] == EncodeOptional(e.availability)
    requires DecodePhases(m[Phases]) == Some(e.phases)
    ensures DecodeEvidence(m) == Some(e)
  {
    OptionalsInvert(e.stage, e.cohort, e.outcome);
    OptionalsInvert(e.stage, e.cohort, e.stream);
    OptionalsInvert(e.stage, e.cohort, e.append);
    OptionalsInvert(e.stage, e.cohort, e.availability);
  }

  /** Within m, the fields of part are as part has them. */
  predicate Holds(m: map<Field, Json>, part: map<Field, Json>) {
    part.Keys <= m.Keys && forall f | f in part.Keys :: m[f] == part[f]
  }

  lemma Merged(a: map<Field, Json>, b: map<Field, Json>, c: map<Field, Json>)
    requires a.Keys !! b.Keys && a.Keys !! c.Keys && b.Keys !! c.Keys
    ensures (a + b + c).Keys == a.Keys + b.Keys + c.Keys
    ensures Holds(a + b + c, a) && Holds(a + b + c, b) && Holds(a + b + c, c)
  {
  }

  lemma FieldsApart()
    ensures LabelFields !! PositionFields && LabelFields !! EvidenceFields && PositionFields !! EvidenceFields
  {
  }

  lemma LabelKeys(runId: string, level: nat, family: Family, composition: Composition)
    ensures EncodeLabels(runId, level, family, composition).Keys == LabelFields
  {
  }

  lemma PositionKeys(r: Invocation)
    ensures EncodePosition(r).Keys == PositionFields
  {
  }

  lemma EvidenceKeys(e: Evidence)
    ensures EncodeEvidence(e).Keys == EvidenceFields
  {
  }

  lemma LabelsRoundTrip(runId: string, level: nat, family: Family, composition: Composition, m: map<Field, Json>)
    requires LabelFields <= m.Keys && Holds(m, EncodeLabels(runId, level, family, composition))
    ensures DecodeLabels(m) == Some(Labels(runId, level, family, composition))
  {
    EnumsInvert(family, composition, Accepted);
    var part := EncodeLabels(runId, level, family, composition);
    assert m[SchemaName] == part[SchemaName] && m[SchemaVersion] == part[SchemaVersion] && m[RunId] == part[RunId];
    assert m[WorkerLevel] == part[WorkerLevel] && m[WorkloadFamily] == part[WorkloadFamily];
    assert m[CompositionField] == part[CompositionField];
  }

  lemma PositionRoundTrip(r: Invocation, m: map<Field, Json>)
    requires PositionFields <= m.Keys && Holds(m, EncodePosition(r))
    ensures DecodePosition(m)
         == Some(r.(runId := "", level := 0, family := SameOrder, composition := PreOcc, evidence := Exceptional("")))
  {
    var part := EncodePosition(r);
    assert m[InvocationIndexField] == part[InvocationIndexField] && m[CellIndex] == part[CellIndex];
    assert m[BatchIndexField] == part[BatchIndexField] && m[LaneIndex] == part[LaneIndex];
    assert m[ConnectionSlot] == part[ConnectionSlot] && m[ExternalElapsed] == part[ExternalElapsed];
    assert m[StartOffset] == part[StartOffset];
  }

  lemma InvocationParts(r: Invocation)
    ensures var m := EncodeInvocation(r).fields;
            && m.Keys == LabelFields + PositionFields + EvidenceFields
            && Holds(m, EncodeLabels(r.runId, r.level, r.family, r.composition))
            && Holds(m, EncodePosition(r)) && Holds(m, EncodeEvidence(r.evidence))
  {
    LabelKeys(r.runId, r.level, r.family, r.composition);
    PositionKeys(r);
    EvidenceKeys(r.evidence);
    FieldsApart();
    Merged(EncodeLabels(r.runId, r.level, r.family, r.composition), EncodePosition(r), EncodeEvidence(r.evidence));
  }

  lemma InvocationAssembled(retained: seq<nat>, r: Invocation, v: Json)
    requires InvocationConstructed(retained, r) && Closed(v, LabelFields + PositionFields + EvidenceFields)
    requires DecodeLabels(v.fields) == Some(Labels(r.runId, r.level, r.family, r.composition))
    requires DecodePosition(v.fields)
          == Some(r.(runId := "", level := 0, family := SameOrder, composition := PreOcc, evidence := Exceptional("")))
    requires DecodeEvidence(v.fields) == Some(r.evidence)
    ensures DecodeInvocation(retained)(v) == Some(r)
  {
  }

  /** Every invocation record comes back from its closed object as it was, optional parts and all. */
  lemma InvocationRoundTrip(retained: seq<nat>, r: Invocation)
    requires InvocationConstructed(retained, r)
    ensures DecodeInvocation(retained)(EncodeInvocation(r)) == Some(r)
  {
    var v := EncodeInvocation(r);
    InvocationParts(r);
    LabelsRoundTrip(r.runId, r.level, r.family, r.composition, v.fields);
    PositionRoundTrip(r, v.fields);
    EvidenceKeys(r.evidence);
    EvidenceRoundTrip(r.evidence, v.fields);
    InvocationAssembled(retained, r, v);
  }

  // ----- batches -----

  predicate BatchConstructed(retained: seq<nat>, b: Batch) {
    && b.runId != "" && b.level in retained && WellFormed(b)
    && forall i | 0 <= i < |b.typedCounts| :: b.typedCounts[i].outcome != "" && b.typedCounts[i].count > 0
  }

  const CountFields := {CompletedCount, AcceptedCountField, TypedOutcomeCounts}

  const TimingFields := {BatchRecordIndex, CellIndex, BatchIndexField, ReleaseReference, FirstStart, LastStart, BatchElapsed}

  function EncodeCount(c: TypedCount): Json {
    Object(map[OutcomeField := Str(c.outcome), CountField := Integer(c.count)])
  }

  function DecodeCount(v: Json): Option<TypedCount> {
    if !Closed(v, {OutcomeField, CountField}) then None
    else
      match (TextOf(v.fields[OutcomeField]), NatOf(v.fields[CountField]))
      case (Some(outcome), Some(count)) => if outcome != "" && count > 0 then Some(TypedCount(outcome, count)) else None
      case _ => None
  }

  function EncodeTiming(b: Batch): map<Field, Json> {
    map[BatchRecordIndex := Integer(b.index), CellIndex := Integer(b.cellIndex), BatchIndexField := Integer(b.batchIndex),
        ReleaseReference := Integer(b.referenceNs), FirstStart := Integer(b.firstStart), LastStart := Integer(b.lastStart),
        BatchElapsed := Integer(b.elapsedNs)]
  }

  function EncodeCounts(b: Batch): map<Field, Json> {
    map[CompletedCount := Integer(b.completed), AcceptedCountField := Integer(b.accepted),
        TypedOutcomeCounts := Array(Map(EncodeCount, b.typedCounts))]
  }

  function EncodeBatch(b: Batch): Json {
    Object(EncodeLabels(b.runId, b.level, b.family, b.composition) + EncodeTiming(b) + EncodeCounts(b))
  }

  /** A batch with everything but its labels and counts. */
  function DecodeTiming(m: map<Field, Json>): Option<Batch>
    requires TimingFields <= m.Keys
  {
    match (NatOf(m[BatchRecordIndex]), NatOf(m[CellIndex]), NatOf(m[BatchIndexField]), NatOf(m[ReleaseReference]),
           NatOf(m[FirstStart]), NatOf(m[LastStart]), NatOf(m[BatchElapsed]))
    case (Some(index), Some(cell), Some(batch), Some(reference), Some(first), Some(last), Some(elapsed)) =>
      Some(Batch("", index, cell, batch, 0, SameOrder, PreOcc, reference, first, last, elapsed, 0, 0, []))
    case _ => None
  }

  function DecodeCounts(m: map<Field, Json>): Option<(nat, nat, seq<TypedCount>)>
    requires CountFields <= m.Keys
  {
    if !m[TypedOutcomeCounts].Array? then None
    else
      match (NatOf(m[CompletedCount]), NatOf(m[AcceptedCountField]), DecodeAll(DecodeCount, m[TypedOutcomeCounts].items))
      case (Some(completed), Some(accepted), Some(counts)) => Some((completed, accepted, counts))
      case _ => None
  }

  function DecodeBatch(retained: seq<nat>): Json -> Option<Batch> {
    (v: Json) =>
      if !Closed(v, LabelFields + TimingFields + CountFields) then None
      else
        match (DecodeLabels(v.fields), DecodeTiming(v.fields), DecodeCounts(v.fields))
        case (Some(l), Some(t), Some(c)) =>
          var b := t.(runId := l.runId, level := l.level, family := l.family, composition := l.composition,
                      completed := c.0, accepted := c.1, typedCounts := c.2);
          if BatchConstructed(retained, b) then Some(b) else None
        case _ => None
  }

  lemma TimingKeys(b: Batch)
    ensures EncodeTiming(b).Keys == TimingFields && EncodeCounts(b).Keys == CountFields
  {
  }

  lemma BatchFieldsApart()
    ensures LabelFields !! TimingFields && LabelFields !! CountFields && TimingFields !! CountFields
  {
  }

  lemma BatchParts(b: Batch)
    ensures var m := EncodeBatch(b).fields;
            && m.Keys == LabelFields + TimingFields + CountFields
            && Holds(m, EncodeLabels(b.runId, b.level, b.family, b.composition))
            && Holds(m, EncodeTiming(b)) && Holds(m, EncodeCounts(b))
  {
    LabelKeys(b.runId, b.level, b.family, b.composition);
    TimingKeys(b);
    BatchFieldsApart();
    Merged(EncodeLabels(b.runId, b.level, b.family, b.composition), EncodeTiming(b), EncodeCounts(b));
  }

  lemma TimingRoundTrip(b: Batch, m: map<Field, Json>)
    requires TimingFields <= m.Keys && Holds(m, EncodeTiming(b))
    ensures DecodeTiming(m) == Some(Batch("", b.index, b.cellIndex, b.batchIndex, 0, SameOrder, PreOcc,
                                          b.referenceNs, b.firstStart, b.lastStart, b.elapsedNs, 0, 0, []))
  {
    var part := EncodeTiming(b);
    assert m[BatchRecordIndex] == part[BatchRecordIndex] && m[CellIndex] == part[CellIndex];
    assert m[BatchIndexField] == part[BatchIndexField] && m[ReleaseReference] == part[ReleaseReference];
    assert m[FirstStart] == part[FirstStart] && m[LastStart] == part[LastStart] && m[BatchElapsed] == part[BatchElapsed];
  }

  lemma CountsRoundTrip(b: Batch, m: map<Field, Json>)
    requires forall i | 0 <= i < |b.typedCounts| :: b.typedCounts[i].outcome != "" && b.typedCounts[i].count > 0
    requires CountFields <= m.Keys && Holds(m, EncodeCounts(b))
    ensures DecodeCounts(m) == Some((b.completed, b.accepted, b.typedCounts))
  {
    var part := EncodeCounts(b);
    assert m[CompletedCount] == part[CompletedCount] && m[AcceptedCountField] == part[AcceptedCountField];
    assert m[TypedOutcomeCounts] == part[TypedOutcomeCounts];
    forall i | 0 <= i < |b.typedCounts| ensures DecodeCount(EncodeCount(b.typedCounts[i])) == Some(b.typedCounts[i]) {
    }
    DecodeAllInverts(EncodeCount, DecodeCount, b.typedCounts);
  }

  lemma BatchAssembled(retained: seq<nat>, b: Batch, v: Json)
    requires BatchConstructed(retained, b) && Closed(v, LabelFields + TimingFields + CountFields)
    requires DecodeLabels(v.fields) == Some(Labels(b.runId, b.level, b.family, b.composition))
    requires DecodeTiming(v.fields) == Some(Batch("", b.index, b.cellIndex, b.batchIndex, 0, SameOrder, PreOcc,
                                                  b.referenceNs, b.firstStart, b.lastStart, b.elapsedNs, 0, 0, []))
    requires DecodeCounts(v.fields) == Some((b.completed, b.accepted, b.typedCounts))
    ensures DecodeBatch(retained)(v) == Some(b)
  {
  }

  lemma BatchRoundTrip(retained: seq<nat>, b: Batch)
    requires BatchConstructed(retained, b)
    ensures DecodeBatch(retained)(EncodeBatch(b)) == Some(b)
  {
    var v := EncodeBatch(b);
    BatchParts(b);
    LabelsRoundTrip(b.runId, b.level, b.family, b.composition, v.fields);
    TimingRoundTrip(b, v.fields);
    CountsRoundTrip(b, v.fields);
    BatchAssembled(retained, b, v);
  }

  // ----- lane ownership -----

  predicate OwnershipConstructed(retained: seq<nat>, o: Ownership) {
    o.level in retained && o.thread > 0 && o.lane == o.slot
  }

  function EncodeOwnership(o: Ownership): Json {
    Object(map[WorkerLevel := Integer(o.level), LaneIndex := Integer(o.lane), ConnectionSlot := Integer(o.slot),
               ThreadId := Integer(o.thread)])
  }

  function DecodeOwnership(retained: seq<nat>): Json -> Option<Ownership> {
    (v: Json) =>
      if !Closed(v, {WorkerLevel, LaneIndex, ConnectionSlot, ThreadId}) then None
      else
        match (NatOf(v.fields[WorkerLevel]), NatOf(v.fields[LaneIndex]), NatOf(v.fields[ConnectionSlot]), NatOf(v.fields[ThreadId]))
        case (Some(level), Some(lane), Some(slot), Some(thread)) =>
          var o := Ownership(level, lane, slot, thread);
          if OwnershipConstructed(retained, o) then Some(o) else None
        case _ => None
  }

  lemma OwnershipRoundTrip(retained: seq<nat>, o: Ownership)
    requires OwnershipConstructed(retained, o)
    ensures DecodeOwnership(retained)(EncodeOwnership(o)) == Some(o)
  {
  }

  // ----- aggregates -----

  function EncodeStatistics(s: Statistics): Json {
    Object(map[CountField := Integer(s.count), Minimum := Number(s.minimum), Maximum := Number(s.maximum),
               MeanField := Number(s.mean), MedianField := Number(s.median)])
  }

  function RealOf(v: Json): Option<real> {
    match v
    case Number(x) => Some(x)
    case Integer(n) => Some(n as real)
    case _ => None
  }

  /** Statistics are refused unless counted at least once and lying within their own extremes. */
  function DecodeStatistics(v: Json): Option<Statistics> {
    if !Closed(v, {CountField, Minimum, Maximum, MeanField, MedianField}) then None
    else
      match (NatOf(v.fields[CountField]), RealOf(v.fields[Minimum]), RealOf(v.fields[Maximum]),
             RealOf(v.fields[MeanField]), RealOf(v.fields[MedianField]))
      case (Some(count), Some(minimum), Some(maximum), Some(mean), Some(median)) =>
        var s := Statistics(count, minimum, maximum, mean, median);
        if count > 0 && minimum <= maximum && Ordered(s) then Some(s) else None
      case _ => None
  }

  lemma StatisticsRoundTrip(s: Statistics)
    requires s.count > 0 && Ordered(s)
    ensures DecodeStatistics(EncodeStatistics(s)) == Some(s)
  {
  }

  function AggregateName(p: PhaseAggregate): PhaseName { p.name }

  predicate PhasesInOrder(phases: seq<PhaseAggregate>) {
    var names := Map(AggregateName, phases);
    names == FlatMap((n: PhaseName) => if n in names then [n] else [], PhaseNames)
  }

  function EncodePhaseAggregate(p: PhaseAggregate): Json {
    Object(map[PhaseNameField := Str(PhaseText(p.name)), StatisticsField := EncodeStatistics(p.statistics)])
  }

  function DecodePhaseAggregate(v: Json): Option<PhaseAggregate> {
    if !Closed(v, {PhaseNameField, StatisticsField}) then None
    else
      match (PhaseOf(v.fields[PhaseNameField]), DecodeStatistics(v.fields[StatisticsField]))
      case (Some(name), Some(s)) => Some(PhaseAggregate(name, s))
      case _ => None
  }

  function EncodeAggregate(a: Aggregate): Json {
    Object(map[RunId := Str(a.runId), WorkerLevel := Integer(a.level), WorkloadFamily := Str(FamilyText(a.family)),
               CompositionField := Str(CompositionText(a.composition)), CohortField := Str(CohortLabel(a.cohort)),
               ExternalElapsed := EncodeStatistics(a.elapsed), Phases := Array(Map(EncodePhaseAggregate, a.phases))])
  }

  const AggregateFields := {RunId, WorkerLevel, WorkloadFamily, CompositionField, CohortField, ExternalElapsed, Phases}

  function DecodeAggregatePhases(v: Json): Option<seq<PhaseAggregate>> {
    if v.Array? then DecodeAll(DecodePhaseAggregate, v.items) else None
  }

  function DecodeAggregate(retained: seq<nat>): Json -> Option<Aggregate> {
    (v: Json) =>
      if !Closed(v, AggregateFields) then None
      else
        match (TextOf(v.fields[RunId]), NatOf(v.fields[WorkerLevel]), FamilyOf(v.fields[WorkloadFamily]),
               CompositionOf(v.fields[CompositionField]), CohortOf(v.fields[CohortField]),
               DecodeStatistics(v.fields[ExternalElapsed]), DecodeAggregatePhases(v.fields[Phases]))
        case (Some(runId), Some(level), Some(family), Some(composition), Some(cohort), Some(elapsed), Some(phases)) =>
          if level in retained && PhasesInOrder(phases)
          then Some(Aggregate(runId, level, family, composition, cohort, elapsed, phases)) else None
        case _ => None
  }

  predicate AggregateReadable(retained: seq<nat>, a: Aggregate) {
    && a.level in retained && a.elapsed.count > 0 && Ordered(a.elapsed) && PhasesInOrder(a.phases)
    && forall i | 0 <= i < |a.phases| :: a.phases[i].statistics.count > 0 && Ordered(a.phases[i].statistics)
  }

  lemma AggregatePhasesRoundTrip(phases: seq<PhaseAggregate>)
    requires forall i | 0 <= i < |phases| :: phases[i].statistics.count > 0 && Ordered(phases[i].statistics)
    ensures DecodeAggregatePhases(Array(Map(EncodePhaseAggregate, phases))) == Some(phases)
  {
    forall i | 0 <= i < |phases| ensures DecodePhaseAggregate(EncodePhaseAggregate(phases[i])) == Some(phases[i]) {
      PhaseInverts(phases[i].name);
      StatisticsRoundTrip(phases[i].statistics);
    }
    DecodeAllInverts(EncodePhaseAggregate, DecodePhaseAggregate, phases);
  }

  lemma AggregateKeys(a: Aggregate)
    ensures Closed(EncodeAggregate(a), AggregateFields)
  {
  }

  /** The seven fields of an aggregate, one by one. */
  lemma AggregateValues(a: Aggregate)
    ensures Closed(EncodeAggregate(a), AggregateFields)
    ensures var m := EncodeAggregate(a).fields;
            && m[RunId] == Str(a.runId) && m[WorkerLevel] == Integer(a.level)
            && m[WorkloadFamily] == Str(FamilyText(a.family)) && m[CompositionField] == Str(CompositionText(a.composition))
            && m[CohortField] == Str(CohortLabel(a.cohort)) && m[ExternalElapsed] == EncodeStatistics(a.elapsed)
            && m[Phases] == Array(Map(EncodePhaseAggregate, a.phases))
  {
    AggregateKeys(a);
  }

  lemma AggregateAssembled(retained: seq<nat>, a: Aggregate, v: Json)
    requires Closed(v, AggregateFields) && a.level in retained && PhasesInOrder(a.phases)
    requires TextOf(v.fields[RunId]) == Some(a.runId) && NatOf(v.fields[WorkerLevel]) == Some(a.level)
    requires FamilyOf(v.fields[WorkloadFamily]) == Some(a.family)
    requires CompositionOf(v.fields[CompositionField]) == Some(a.composition)
    requires CohortOf(v.fields[CohortField]) == Some(a.cohort)
    requires DecodeStatistics(v.fields[ExternalElapsed]) == Some(a.elapsed)
    requires DecodeAggregatePhases(v.fields[Phases]) == Some(a.phases)
    ensures DecodeAggregate(retained)(v) == Some(a)
  {
  }

  lemma AggregateRoundTrip(retained: seq<nat>, a: Aggregate)
    requires AggregateReadable(retained, a)
    ensures DecodeAggregate(retained)(EncodeAggregate(a)) == Some(a)
  {
    AggregateValues(a);
    EnumsInvert(a.family, a.composition, a.cohort);
    StatisticsRoundTrip(a.elapsed);
    AggregatePhasesRoundTrip(a.phases);
    AggregateAssembled(retained, a, EncodeAggregate(a));
  }

  function EncodeRate(a: RateAggregate): Json {
    Object(map[RunId := Str(a.runId), WorkerLevel := Integer(a.level), WorkloadFamily := Str(FamilyText(a.family)),
               CompositionField := Str(CompositionText(a.composition)), AcceptedRateField := EncodeStatistics(a.accepted),
               AllRateField := EncodeStatistics(a.all)])
  }

  const RateFields := {RunId, WorkerLevel, WorkloadFamily, CompositionField, AcceptedRateField, AllRateField}

  function DecodeRate(retained: seq<nat>): Json -> Option<RateAggregate> {
    (v: Json) =>
      if !Closed(v, RateFields) then None
      else
        match (TextOf(v.fields[RunId]), NatOf(v.fields[WorkerLevel]), FamilyOf(v.fields[WorkloadFamily]),
               CompositionOf(v.fields[CompositionField]), DecodeStatistics(v.fields[AcceptedRateField]),
               DecodeStatistics(v.fields[AllRateField]))
        case (Some(runId), Some(level), Some(family), Some(composition), Some(accepted), Some(all)) =>
          if level in retained then Some(RateAggregate(runId, level, family, composition, accepted, all)) else None
        case _ => None
  }

  predicate RateReadable(retained: seq<nat>, a: RateAggregate) {
    a.level in retained && a.accepted.count > 0 && Ordered(a.accepted) && a.all.count > 0 && Ordered(a.all)
  }

  lemma RateKeys(a: RateAggregate)
    ensures Closed(EncodeRate(a), RateFields)
  {
  }

  lemma RateRoundTrip(retained: seq<nat>, a: RateAggregate)
    requires RateReadable(retained, a)
    ensures DecodeRate(retained)(EncodeRate(a)) == Some(a)
  {
    RateKeys(a);
    EnumsInvert(a.family, a.composition, Accepted);
    StatisticsRoundTrip(a.accepted);
    StatisticsRoundTrip(a.all);
  }
}
