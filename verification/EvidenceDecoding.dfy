/**
Decoding is exact: a run record is read from a value only if the value is that record's own
encoding, so nothing else is ever accepted in its place.
*/
module EvidenceDecoding {
  import opened Wrappers
  import opened DescriptiveStatistics
  import opened FixedSchedule
  import opened RunRecords
  import opened RecordedExecutor
  import opened CohortAggregation
  import opened EvidenceJson

  // ----- parts -----

  lemma PlainExact(v: Json)
    ensures NatOf(v).Some? ==> v == Integer(NatOf(v).value)
    ensures TextOf(v).Some? ==> v == Str(TextOf(v).value)
    ensures OptionalOf(v).Some? ==> v == EncodeOptional(OptionalOf(v).value)
  {
  }

  lemma CellExact(v: Json)
    ensures FamilyOf(v).Some? ==> v == Str(FamilyText(FamilyOf(v).value))
    ensures CompositionOf(v).Some? ==> v == Str(CompositionText(CompositionOf(v).value))
  {
  }

  lemma CohortExact(v: Json)
    ensures EvidenceJson.CohortOf(v).Some? ==> v == Str(CohortLabel(EvidenceJson.CohortOf(v).value))
  {
  }

  lemma StateExact(v: Json)
    ensures StateOf(v).Some? ==> v == Str(StateText(StateOf(v).value))
  {
  }

  lemma OptionalsExact(v: Json)
    ensures OptionalStageOf(v).Some? ==> v == EncodeStage(OptionalStageOf(v).value)
    ensures OptionalCohortOf(v).Some? ==> v == EncodeCohort(OptionalCohortOf(v).value)
  {
    CohortExact(v);
  }

  lemma {:induction false} FindPhaseExact(names: seq<PhaseName>, text: string)
    ensures FindPhase(names, text).Some? ==> PhaseText(FindPhase(names, text).value) == text
  {
    if names != [] { FindPhaseExact(names[1..], text); }
  }

  lemma PhaseOfExact(v: Json)
    ensures PhaseOf(v).Some? ==> v == Str(PhaseText(PhaseOf(v).value))
  {
    if v.Str? { FindPhaseExact(PhaseNames, v.text); }
  }

  lemma {:induction false} DecodeAllExact<T>(encode: T -> Json, decode: Json -> Option<T>, items: seq<Json>)
    requires forall i | 0 <= i < |items| && decode(items[i]).Some? :: items[i] == encode(decode(items[i]).value)
    ensures DecodeAll(decode, items).Some? ==> items == Map(encode, DecodeAll(decode, items).value)
  {
    if items != [] {
      var n := |items| - 1;
      DecodeAllExact(encode, decode, items[..n]);
      if DecodeAll(decode, items).Some? {
        var earlier, last := DecodeAll(decode, items[..n]).value, decode(items[n]).value;
        assert items == items[..n] + [items[n]];
        assert Map(encode, earlier + [last]) == Map(encode, earlier) + [encode(last)];
      }
    }
  }

  /** An object with exactly these fields, each as the other has it, is the other. */
  lemma ObjectIs(v: Json, m: map<Field, Json>)
    requires Closed(v, m.Keys) && forall f | f in m.Keys :: v.fields[f] == m[f]
    ensures v == Object(m)
  {
    assert v.fields == m;
  }

  // ----- phases -----

  lemma PhaseFields(v: Json, p: PhaseRecord)
    requires Closed(v, {Name, State, ElapsedNs})
    requires v.fields[Name] == Str(PhaseText(p.name)) && v.fields[State] == Str(StateText(p.state))
    requires v.fields[ElapsedNs] == if p.elapsed.Some? then Integer(p.elapsed.value) else Null
    ensures v == EncodePhase(p)
  {
    ObjectIs(v, EncodePhase(p).fields);
  }

  lemma PhaseExact(v: Json)
    ensures DecodePhase(v).Some? ==> PhaseConstructed(DecodePhase(v).value) && v == EncodePhase(DecodePhase(v).value)
  {
    if DecodePhase(v).Some? {
      PhaseOfExact(v.fields[Name]);
      StateExact(v.fields[State]);
      PlainExact(v.fields[ElapsedNs]);
      PhaseFields(v, DecodePhase(v).value);
    }
  }

  lemma PhasesExact(v: Json)
    ensures DecodePhases(v).Some? ==> v == EncodePhases(DecodePhases(v).value)
  {
    if v.Array? {
      forall i | 0 <= i < |v.items| && DecodePhase(v.items[i]).Some? ensures v.items[i] == EncodePhase(DecodePhase(v.items[i]).value) {
        PhaseExact(v.items[i]);
      }
      DecodeAllExact(EncodePhase, DecodePhase, v.items);
    }
  }

  // ----- invocations -----

  lemma LabelsExact(m: map<Field, Json>)
    requires LabelFields <= m.Keys && DecodeLabels(m).Some?
    ensures var l := DecodeLabels(m).value; Holds(m, EncodeLabels(l.runId, l.level, l.family, l.composition))
  {
    LabelValues(m);
    var l := DecodeLabels(m).value;
    LabelKeys(l.runId, l.level, l.family, l.composition);
    LabelsHold(m, l.runId, l.level, l.family, l.composition);
  }

  lemma LabelValues(m: map<Field, Json>)
    requires LabelFields <= m.Keys && DecodeLabels(m).Some?
    ensures var l := DecodeLabels(m).value;
            && m[SchemaName] == Str(SchemaText) && m[SchemaVersion] == Integer(1)
            && m[RunId] == Str(l.runId) && m[WorkerLevel] == Integer(l.level)
            && m[WorkloadFamily] == Str(FamilyText(l.family)) && m[CompositionField] == Str(CompositionText(l.composition))
  {
    PlainExact(m[RunId]);
    PlainExact(m[WorkerLevel]);
    CellExact(m[WorkloadFamily]);
    CellExact(m[CompositionField]);
  }

  lemma LabelsHold(m: map<Field, Json>, runId: string, level: nat, family: Family, composition: Composition)
    requires LabelFields <= m.Keys && m[SchemaName] == Str(SchemaText) && m[SchemaVersion] == Integer(1)
    requires m[RunId] == Str(runId) && m[WorkerLevel] == Integer(level)
    requires m[WorkloadFamily] == Str(FamilyText(family)) && m[CompositionField] == Str(CompositionText(composition))
    ensures Holds(m, EncodeLabels(runId, level, family, composition))
  {
  }

  lemma PositionExact(m: map<Field, Json>)
    requires PositionFields <= m.Keys && DecodePosition(m).Some?
    ensures Holds(m, EncodePosition(DecodePosition(m).value))
  {
    PlainExact(m[InvocationIndexField]);
    PlainExact(m[CellIndex]);
    PlainExact(m[BatchIndexField]);
    PlainExact(m[LaneIndex]);
    PlainExact(m[ConnectionSlot]);
    PlainExact(m[ExternalElapsed]);
    PlainExact(m[StartOffset]);
    PositionKeys(DecodePosition(m).value);
  }

  lemma EvidenceFieldsExact(m: map<Field, Json>)
    requires EvidenceFields <= m.Keys && DecodeEvidence(m).Some? && m[ExceptionType] == Null
    ensures var e := DecodeEvidence(m).value;
            && e.Normal?
            && m[ProducerOutcome] == EncodeOptional(e.outcome) && m[RejectionStageField] == EncodeStage(e.stage)
            && m[StreamVerdict] == EncodeOptional(e.stream) && m[AppendVerdict] == EncodeOptional(e.append)
            && m[CohortField] == EncodeCohort(e.cohort) && m[Availability] == EncodeOptional(e.availability)
            && m[Phases] == EncodePhases(e.phases)
  {
    PlainExact(m[ProducerOutcome]);
    OptionalsExact(m[RejectionStageField]);
    PlainExact(m[StreamVerdict]);
    PlainExact(m[AppendVerdict]);
    OptionalsExact(m[CohortField]);
    PlainExact(m[Availability]);
    PhasesExact(m[Phases]);
  }

  lemma EvidenceExact(m: map<Field, Json>)
    requires EvidenceFields <= m.Keys && DecodeEvidence(m).Some?
    ensures Holds(m, EncodeEvidence(DecodeEvidence(m).value))
  {
    var e := DecodeEvidence(m).value;
    EvidenceKeys(e);
    if m[ExceptionType] == Null { EvidenceFieldsExact(m); }
  }

  lemma MergedIs(m: map<Field, Json>, a: map<Field, Json>, b: map<Field, Json>, c: map<Field, Json>)
    requires m.Keys == a.Keys + b.Keys + c.Keys && Holds(m, a) && Holds(m, b) && Holds(m, c)
    ensures m == a + b + c
  {
  }

  lemma InvocationIs(v: Json, r: Invocation)
    requires Closed(v, LabelFields + PositionFields + EvidenceFields)
    requires Holds(v.fields, EncodeLabels(r.runId, r.level, r.family, r.composition))
    requires Holds(v.fields, EncodePosition(r)) && Holds(v.fields, EncodeEvidence(r.evidence))
    ensures v == EncodeInvocation(r)
  {
    LabelKeys(r.runId, r.level, r.family, r.composition);
    PositionKeys(r);
    EvidenceKeys(r.evidence);
    MergedIs(v.fields, EncodeLabels(r.runId, r.level, r.family, r.composition), EncodePosition(r), EncodeEvidence(r.evidence));
  }

  lemma InvocationDecoded(retained: seq<nat>, v: Json)
    requires DecodeInvocation(retained)(v).Some?
    ensures var r := DecodeInvocation(retained)(v).value; InvocationConstructed(retained, r) && v == EncodeInvocation(r)
  {
    DecodedParts(retained, v);
    var r, n := DecodeInvocation(retained)(v).value, DecodePosition(v.fields).value;
    LabelsExact(v.fields);
    PositionExact(v.fields);
    EvidenceExact(v.fields);
    SamePosition(r, n);
    InvocationIs(v, r);
  }

  /** What a record read from a value was put together from. */
  lemma DecodedParts(retained: seq<nat>, v: Json)
    requires DecodeInvocation(retained)(v).Some?
    ensures Closed(v, LabelFields + PositionFields + EvidenceFields)
    ensures DecodeLabels(v.fields).Some? && DecodePosition(v.fields).Some? && DecodeEvidence(v.fields).Some?
    ensures var r, l := DecodeInvocation(retained)(v).value, DecodeLabels(v.fields).value;
            && InvocationConstructed(retained, r)
            && r == DecodePosition(v.fields).value.(runId := l.runId, level := l.level, family := l.family,
                                                    composition := l.composition, evidence := DecodeEvidence(v.fields).value)
  {
  }

  lemma SamePosition(r: Invocation, n: Invocation)
    requires (r.index, r.cellIndex, r.batchIndex, r.lane) == (n.index, n.cellIndex, n.batchIndex, n.lane)
    requires (r.slot, r.elapsedNs, r.startOffset) == (n.slot, n.elapsedNs, n.startOffset)
    ensures EncodePosition(r) == EncodePosition(n)
  {
  }

  /** A value is read as an invocation exactly when it is the encoding of that constructible invocation. */
  lemma InvocationExact(retained: seq<nat>, v: Json, r: Invocation)
    ensures DecodeInvocation(retained)(v) == Some(r) <==> InvocationConstructed(retained, r) && v == EncodeInvocation(r)
  {
    if DecodeInvocation(retained)(v).Some? { InvocationDecoded(retained, v); }
    if InvocationConstructed(retained, r) { InvocationRoundTrip(retained, r); }
  }

  // ----- batches and ownership -----

  lemma CountExact(v: Json)
    ensures DecodeCount(v).Some? ==> v == EncodeCount(DecodeCount(v).value)
  {
    if DecodeCount(v).Some? {
      PlainExact(v.fields[OutcomeField]);
      PlainExact(v.fields[CountField]);
      ObjectIs(v, EncodeCount(DecodeCount(v).value).fields);
    }
  }

  lemma CountsExact(m: map<Field, Json>)
    requires CountFields <= m.Keys && DecodeCounts(m).Some?
    ensures var c := DecodeCounts(m).value;
            && m[CompletedCount] == Integer(c.0) && m[AcceptedCountField] == Integer(c.1)
            && m[TypedOutcomeCounts] == Array(Map(EncodeCount, c.2))
  {
    PlainExact(m[CompletedCount]);
    PlainExact(m[AcceptedCountField]);
    var items := m[TypedOutcomeCounts].items;
    forall i | 0 <= i < |items| && DecodeCount(items[i]).Some? ensures items[i] == EncodeCount(DecodeCount(items[i]).value) {
      CountExact(items[i]);
    }
    DecodeAllExact(EncodeCount, DecodeCount, items);
  }

  lemma TimingExact(m: map<Field, Json>)
    requires TimingFields <= m.Keys && DecodeTiming(m).Some?
    ensures Holds(m, EncodeTiming(DecodeTiming(m).value))
  {
    PlainExact(m[BatchRecordIndex]);
    PlainExact(m[CellIndex]);
    PlainExact(m[BatchIndexField]);
    PlainExact(m[ReleaseReference]);
    PlainExact(m[FirstStart]);
    PlainExact(m[LastStart]);
    PlainExact(m[BatchElapsed]);
    TimingKeys(DecodeTiming(m).value);
  }

  lemma BatchIs(v: Json, b: Batch)
    requires Closed(v, LabelFields + TimingFields + CountFields)
    requires Holds(v.fields, EncodeLabels(b.runId, b.level, b.family, b.composition))
    requires Holds(v.fields, EncodeTiming(b)) && Holds(v.fields, EncodeCounts(b))
    ensures v == EncodeBatch(b)
  {
    LabelKeys(b.runId, b.level, b.family, b.composition);
    TimingKeys(b);
    MergedIs(v.fields, EncodeLabels(b.runId, b.level, b.family, b.composition), EncodeTiming(b), EncodeCounts(b));
  }

  lemma BatchDecoded(retained: seq<nat>, v: Json)
    requires DecodeBatch(retained)(v).Some?
    ensures var b := DecodeBatch(retained)(v).value; BatchConstructed(retained, b) && v == EncodeBatch(b)
  {
    var b := DecodeBatch(retained)(v).value;
    LabelsExact(v.fields);
    TimingExact(v.fields);
    CountsExact(v.fields);
    SameTiming(b, DecodeTiming(v.fields).value);
    CountsHold(v.fields, b);
    BatchIs(v, b);
  }

  lemma SameTiming(b: Batch, t: Batch)
    requires (b.index, b.cellIndex, b.batchIndex, b.referenceNs) == (t.index, t.cellIndex, t.batchIndex, t.referenceNs)
    requires (b.firstStart, b.lastStart, b.elapsedNs) == (t.firstStart, t.lastStart, t.elapsedNs)
    ensures EncodeTiming(b) == EncodeTiming(t)
  {
  }

  lemma CountsHold(m: map<Field, Json>, b: Batch)
    requires CountFields <= m.Keys && m[CompletedCount] == Integer(b.completed) && m[AcceptedCountField] == Integer(b.accepted)
    requires m[TypedOutcomeCounts] == Array(Map(EncodeCount, b.typedCounts))
    ensures Holds(m, EncodeCounts(b))
  {
    TimingKeys(b);
  }

  /** The same of batch records. */
  lemma BatchExact(retained: seq<nat>, v: Json, b: Batch)
    ensures DecodeBatch(retained)(v) == Some(b) <==> BatchConstructed(retained, b) && v == EncodeBatch(b)
  {
    if DecodeBatch(retained)(v).Some? { BatchDecoded(retained, v); }
    if BatchConstructed(retained, b) { BatchRoundTrip(retained, b); }
  }

  /** And of lane ownership. */
  lemma OwnershipExact(retained: seq<nat>, v: Json, o: Ownership)
    ensures DecodeOwnership(retained)(v) == Some(o) <==> OwnershipConstructed(retained, o) && v == EncodeOwnership(o)
  {
    if DecodeOwnership(retained)(v).Some? {
      PlainExact(v.fields[WorkerLevel]);
      PlainExact(v.fields[LaneIndex]);
      PlainExact(v.fields[ConnectionSlot]);
      PlainExact(v.fields[ThreadId]);
      ObjectIs(v, EncodeOwnership(DecodeOwnership(retained)(v).value).fields);
    }
    if OwnershipConstructed(retained, o) { OwnershipRoundTrip(retained, o); }
  }

  // ----- statistics -----

  /** Statistics are read exactly from their five numbers, counted at least once, with mean and median within the extremes. */
  lemma StatisticsExact(v: Json, s: Statistics)
    ensures DecodeStatistics(v) == Some(s) <==>
            && s.count > 0 && s.minimum <= s.mean <= s.maximum && s.minimum <= s.median <= s.maximum
            && Closed(v, {CountField, Minimum, Maximum, MeanField, MedianField})
            && v.fields[CountField] == Integer(s.count)
            && RealOf(v.fields[Minimum]) == Some(s.minimum) && RealOf(v.fields[Maximum]) == Some(s.maximum)
            && RealOf(v.fields[MeanField]) == Some(s.mean) && RealOf(v.fields[MedianField]) == Some(s.median)
  {
  }
}
