/** The names of the evidence files' fields, and the order in which an object lists them. */
module JsonFields {
  import opened EvidenceJson

  function FieldText(f: Field): string {
    match f
    case AcceptedRateField => "accepted_completion_rate_per_second"
    case AcceptedCountField => "accepted_count"
    case AllRateField => "all_completion_rate_per_second"
    case AppendVerdict => "append_admission_verdict"
    case Autocommit => "autocommit"
    case BatchElapsed => "batch_elapsed_ns"
    case BatchIndexField => "batch_index"
    case BatchRecordIndex => "batch_record_index"
    case CellIndex => "cell_index"
    case CohortField => "cohort"
    case CompletedCount => "completed_count"
    case CompositionField => "composition"
    case ConnectionSlot => "connection_slot"
    case CountField => "count"
    case ElapsedNs => "elapsed_ns"
    case ExceptionType => "exception_type"
    case ExternalElapsed => "external_elapsed_ns"
    case FirstStart => "first_start_offset_ns"
    case InvocationIndexField => "invocation_index"
    case LaneIndex => "lane_index"
    case LastStart => "last_start_offset_ns"
    case Maximum => "maximum"
    case MeanField => "mean"
    case Availability => "measurement_availability"
    case MedianField => "median"
    case Minimum => "minimum"
    case Name => "name"
    case OutcomeField => "outcome"
    case PhaseNameField => "phase_name"
    case Phases => "phases"
    case ServerVersion => "postgresql_server_version"
    case ProducerOutcome => "producer_outcome"
    case RejectionStageField => "rejection_stage"
    case ReleaseReference => "release_reference_ns"
    case RunId => "run_id"
    case SchemaName => "schema_name"
    case SchemaVersion => "schema_version"
    case SourceCommit => "source_commit"
    case StartOffset => "start_offset_ns"
    case State => "state"
    case StatisticsField => "statistics_ns"
    case StreamVerdict => "stream_admission_verdict"
    case ThreadId => "thread_id"
    case TopologyLabel => "topology_label"
    case Isolation => "transaction_isolation"
    case TypedOutcomeCounts => "typed_outcome_counts"
    case WorkerLevel => "worker_level"
    case WorkloadFamily => "workload_family"
  }

  /** The field with a given name, told by its length and at most two of its characters. */
  function FieldNamed(t: string): Field {
    match |t|
    case 4 => if t[0] == 'm' then MeanField else Name
    case 5 => if t[0] == 'c' then CountField else State
    case 6 => if t[0] == 'c' then CohortField else if t[0] == 'm' then MedianField else if t[0] == 'p' then Phases else RunId
    case 7 => if t[1] == 'a' then Maximum else if t[1] == 'i' then Minimum else OutcomeField
    case 9 => ThreadId
    case 10 => if t[0] == 'a' then Autocommit else if t[0] == 'c' then CellIndex else if t[0] == 'e' then ElapsedNs else if t[0] == 'l' then LaneIndex else PhaseNameField
    case 11 => if t[0] == 'b' then BatchIndexField else if t[0] == 'c' then CompositionField else SchemaName
    case 12 => WorkerLevel
    case 13 => if t[1] == 'o' then SourceCommit else StatisticsField
    case 14 => if t[0] == 'a' then AcceptedCountField else if t[0] == 'e' then ExceptionType else if t[0] == 's' then SchemaVersion else TopologyLabel
    case 15 => if t[2] == 'a' then StartOffset else if t[2] == 'j' then RejectionStageField else if t[2] == 'm' then CompletedCount else if t[2] == 'n' then ConnectionSlot else WorkloadFamily
    case 16 => if t[0] == 'b' then BatchElapsed else if t[0] == 'i' then InvocationIndexField else ProducerOutcome
    case 18 => BatchRecordIndex
    case 19 => ExternalElapsed
    case 20 => if t[0] == 'l' then LastStart else if t[0] == 'r' then ReleaseReference else TypedOutcomeCounts
    case 21 => if t[0] == 'f' then FirstStart else Isolation
    case 24 => if t[0] == 'a' then AppendVerdict else if t[0] == 'm' then Availability else StreamVerdict
    case 25 => ServerVersion
    case 30 => AllRateField
    case 35 => AcceptedRateField
    case _ => SchemaName
  }

  lemma NamedBack1(f: Field)
    requires f == AcceptedRateField || f == AcceptedCountField || f == AllRateField || f == AppendVerdict || f == Autocommit || f == BatchElapsed
    ensures FieldNamed(FieldText(f)) == f
  {
  }

  lemma NamedBack2(f: Field)
    requires f == BatchIndexField || f == BatchRecordIndex || f == CellIndex || f == CohortField || f == CompletedCount || f == CompositionField
    ensures FieldNamed(FieldText(f)) == f
  {
  }

  lemma NamedBack3(f: Field)
    requires f == ConnectionSlot || f == CountField || f == ElapsedNs || f == ExceptionType || f == ExternalElapsed || f == FirstStart
    ensures FieldNamed(FieldText(f)) == f
  {
  }

  lemma NamedBack4(f: Field)
    requires f == InvocationIndexField || f == LaneIndex || f == LastStart || f == Maximum || f == MeanField || f == Availability
    ensures FieldNamed(FieldText(f)) == f
  {
  }

  lemma NamedBack5(f: Field)
    requires f == MedianField || f == Minimum || f == Name || f == OutcomeField || f == PhaseNameField || f == Phases
    ensures FieldNamed(FieldText(f)) == f
  {
  }

  lemma NamedBack6(f: Field)
    requires f == ServerVersion || f == ProducerOutcome || f == RejectionStageField || f == ReleaseReference || f == RunId || f == SchemaName
    ensures FieldNamed(FieldText(f)) == f
  {
  }

  lemma NamedBack7(f: Field)
    requires f == SchemaVersion || f == SourceCommit || f == StartOffset || f == State || f == StatisticsField || f == StreamVerdict
    ensures FieldNamed(FieldText(f)) == f
  {
  }

  lemma NamedBack8(f: Field)
    requires f == ThreadId || f == TopologyLabel || f == Isolation || f == TypedOutcomeCounts || f == WorkerLevel || f == WorkloadFamily
    ensures FieldNamed(FieldText(f)) == f
  {
  }

  lemma NamedBack(f: Field)
    ensures FieldNamed(FieldText(f)) == f
  {
    match f
    case AcceptedRateField | AcceptedCountField | AllRateField | AppendVerdict | Autocommit | BatchElapsed => NamedBack1(f);
    case BatchIndexField | BatchRecordIndex | CellIndex | CohortField | CompletedCount | CompositionField => NamedBack2(f);
    case ConnectionSlot | CountField | ElapsedNs | ExceptionType | ExternalElapsed | FirstStart => NamedBack3(f);
    case InvocationIndexField | LaneIndex | LastStart | Maximum | MeanField | Availability => NamedBack4(f);
    case MedianField | Minimum | Name | OutcomeField | PhaseNameField | Phases => NamedBack5(f);
    case ServerVersion | ProducerOutcome | RejectionStageField | ReleaseReference | RunId | SchemaName => NamedBack6(f);
    case SchemaVersion | SourceCommit | StartOffset | State | StatisticsField | StreamVerdict => NamedBack7(f);
    case ThreadId | TopologyLabel | Isolation | TypedOutcomeCounts | WorkerLevel | WorkloadFamily => NamedBack8(f);
  }

  /** No two fields have the same name. */
  lemma FieldTextExact(f: Field, g: Field)
    requires FieldText(f) == FieldText(g)
    ensures f == g
  {
    NamedBack(f);
    NamedBack(g);
  }

  // ----- in the order of their names -----

  const Fields1: seq<Field> := [AcceptedRateField, AcceptedCountField, AllRateField, AppendVerdict, Autocommit, BatchElapsed]

  const Fields2: seq<Field> := [BatchIndexField, BatchRecordIndex, CellIndex, CohortField, CompletedCount, CompositionField]

  const Fields3: seq<Field> := [ConnectionSlot, CountField, ElapsedNs, ExceptionType, ExternalElapsed, FirstStart]

  const Fields4: seq<Field> := [InvocationIndexField, LaneIndex, LastStart, Maximum, MeanField, Availability]

  const Fields5: seq<Field> := [MedianField, Minimum, Name, OutcomeField, PhaseNameField, Phases]

  const Fields6: seq<Field> := [ServerVersion, ProducerOutcome, RejectionStageField, ReleaseReference, RunId, SchemaName]

  const Fields7: seq<Field> := [SchemaVersion, SourceCommit, StartOffset, State, StatisticsField, StreamVerdict]

  const Fields8: seq<Field> := [ThreadId, TopologyLabel, Isolation, TypedOutcomeCounts, WorkerLevel, WorkloadFamily]

  const FieldOrder: seq<Field> := Fields1 + Fields2 + Fields3 + Fields4 + Fields5 + Fields6 + Fields7 + Fields8

  lemma FieldListed(f: Field)
    ensures f in FieldOrder
  {
    match f
    case AcceptedRateField | AcceptedCountField | AllRateField | AppendVerdict | Autocommit | BatchElapsed => assert f in Fields1;
    case BatchIndexField | BatchRecordIndex | CellIndex | CohortField | CompletedCount | CompositionField => assert f in Fields2;
    case ConnectionSlot | CountField | ElapsedNs | ExceptionType | ExternalElapsed | FirstStart => assert f in Fields3;
    case InvocationIndexField | LaneIndex | LastStart | Maximum | MeanField | Availability => assert f in Fields4;
    case MedianField | Minimum | Name | OutcomeField | PhaseNameField | Phases => assert f in Fields5;
    case ServerVersion | ProducerOutcome | RejectionStageField | ReleaseReference | RunId | SchemaName => assert f in Fields6;
    case SchemaVersion | SourceCommit | StartOffset | State | StatisticsField | StreamVerdict => assert f in Fields7;
    case ThreadId | TopologyLabel | Isolation | TypedOutcomeCounts | WorkerLevel | WorkloadFamily => assert f in Fields8;
  }
}
