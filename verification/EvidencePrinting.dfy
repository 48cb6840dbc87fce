/** Everything the writer emits can be written down: its numbers are quotients of integers. */
module EvidencePrinting {
  import opened Wrappers
  import opened Ordering
  import opened Rationals
  import opened DescriptiveStatistics
  import opened FixedSchedule
  import opened RunRecords
  import opened RecordedExecutor
  import opened Grouping
  import opened CohortAggregation
  import opened BatchRates
  import opened EvidenceJson

  ghost predicate PrintableFields(m: map<Field, Json>) {
    forall f | f in m.Keys :: Printable(m[f])
  }

  lemma MergedPrintable(a: map<Field, Json>, b: map<Field, Json>, c: map<Field, Json>)
    requires PrintableFields(a) && PrintableFields(b) && PrintableFields(c)
    ensures Printable(Object(a + b + c))
  {
    var m := a + b + c;
    forall f | f in m.Keys ensures Printable(m[f]) {
      assert f in a || f in b || f in c;
    }
  }

  lemma LabelsPrintable(runId: string, level: nat, family: Family, composition: Composition)
    ensures PrintableFields(EncodeLabels(runId, level, family, composition))
  {
  }

  lemma PositionPrintable(r: Invocation)
    ensures PrintableFields(EncodePosition(r))
  {
  }

  lemma PhasePrintable(p: PhaseRecord)
    ensures Printable(EncodePhase(p))
  {
  }

  lemma PhasesPrintable(phases: Option<seq<PhaseRecord>>)
    ensures Printable(EncodePhases(phases))
  {
    if phases.Some? {
      forall i | 0 <= i < |phases.value| ensures Printable(EncodePhase(phases.value[i])) { PhasePrintable(phases.value[i]); }
    }
  }

  lemma EvidencePrintable(e: Evidence)
    ensures PrintableFields(EncodeEvidence(e))
  {
    if e.Normal? { PhasesPrintable(e.phases); }
  }

  lemma InvocationPrintable(r: Invocation)
    ensures Printable(EncodeInvocation(r))
  {
    LabelsPrintable(r.runId, r.level, r.family, r.composition);
    PositionPrintable(r);
    EvidencePrintable(r.evidence);
    MergedPrintable(EncodeLabels(r.runId, r.level, r.family, r.composition), EncodePosition(r), EncodeEvidence(r.evidence));
  }

  lemma TimingPrintable(b: Batch)
    ensures PrintableFields(EncodeTiming(b))
  {
  }

  lemma CountPrintable(c: TypedCount)
    ensures Printable(EncodeCount(c))
  {
  }

  lemma CountsPrintable(b: Batch)
    ensures PrintableFields(EncodeCounts(b))
  {
    forall i | 0 <= i < |b.typedCounts| ensures Printable(EncodeCount(b.typedCounts[i])) { CountPrintable(b.typedCounts[i]); }
    assert Printable(Array(Map(EncodeCount, b.typedCounts)));
  }

  lemma BatchPrintable(b: Batch)
    ensures Printable(EncodeBatch(b))
  {
    LabelsPrintable(b.runId, b.level, b.family, b.composition);
    TimingPrintable(b);
    CountsPrintable(b);
    MergedPrintable(EncodeLabels(b.runId, b.level, b.family, b.composition), EncodeTiming(b), EncodeCounts(b));
  }

  lemma OwnershipPrintable(o: Ownership)
    ensures Printable(EncodeOwnership(o))
  {
  }

  // ----- aggregates -----

  lemma StatisticsPrintable(s: Statistics)
    requires RationalStatistics(s)
    ensures Printable(EncodeStatistics(s))
  {
  }

  lemma PhaseAggregatePrintable(p: PhaseAggregate)
    requires RationalStatistics(p.statistics)
    ensures Printable(EncodePhaseAggregate(p))
  {
    StatisticsPrintable(p.statistics);
  }

  ghost predicate RationalAggregate(a: Aggregate) {
    RationalStatistics(a.elapsed) && forall i | 0 <= i < |a.phases| :: RationalStatistics(a.phases[i].statistics)
  }

  lemma AggregatePrintable(a: Aggregate)
    requires RationalAggregate(a)
    ensures Printable(EncodeAggregate(a))
  {
    StatisticsPrintable(a.elapsed);
    forall i | 0 <= i < |a.phases| ensures Printable(EncodePhaseAggregate(a.phases[i])) { PhaseAggregatePrintable(a.phases[i]); }
    assert Printable(Array(Map(EncodePhaseAggregate, a.phases)));
  }

  lemma RatePrintable(a: RateAggregate)
    requires RationalStatistics(a.accepted) && RationalStatistics(a.all)
    ensures Printable(EncodeRate(a))
  {
    StatisticsPrintable(a.accepted);
    StatisticsPrintable(a.all);
  }

  // ----- which are statistics of integers -----

  lemma {:induction false} ElapsedRational(group: seq<Invocation>)
    ensures AllRational(Elapsed(group))
  {
    if group != [] {
      var n := |group| - 1;
      ElapsedRational(group[..n]);
      IntegerIsRational(group[n].elapsedNs);
    }
  }

  lemma {:induction false} PhaseRecordsRational(phases: seq<PhaseRecord>, name: PhaseName)
    ensures AllRational(PhaseValuesIn(phases, name))
  {
    if phases != [] {
      var n := |phases| - 1;
      PhaseRecordsRational(phases[..n], name);
      if phases[n].elapsed.Some? { IntegerIsRational(phases[n].elapsed.value); }
    }
  }

  lemma {:induction false} PhaseValuesRational(group: seq<Invocation>, name: PhaseName)
    ensures AllRational(PhaseValues(group, name))
  {
    if group != [] {
      var n := |group| - 1;
      PhaseValuesRational(group[..n], name);
      var r := group[n];
      if r.evidence.Normal? && r.evidence.phases.Some? { PhaseRecordsRational(r.evidence.phases.value, name); }
    }
  }

  lemma {:induction false} PhasesRational(group: seq<Invocation>, names: seq<PhaseName>)
    ensures forall i | 0 <= i < |PhasesOf(group, names)| :: RationalStatistics(PhasesOf(group, names)[i].statistics)
  {
    if names != [] {
      var n := |names| - 1;
      PhasesRational(group, names[..n]);
      PhaseRational(group, names[n]);
      assert PhasesOf(group, names) == PhasesOf(group, names[..n]) + DescribePhase(group, names[n]);
    }
  }

  lemma PhaseRational(group: seq<Invocation>, name: PhaseName)
    ensures forall i | 0 <= i < |DescribePhase(group, name)| :: RationalStatistics(DescribePhase(group, name)[i].statistics)
  {
    PhaseValuesRational(group, name);
    if PhaseValues(group, name) != [] { DescribeRational(PhaseValues(group, name)); }
  }

  lemma GroupRational(group: seq<Invocation>)
    requires Describable(group)
    ensures RationalAggregate(AggregateGroup(group))
  {
    ElapsedRational(group);
    DescribeRational(Elapsed(group));
    PhasesRational(group, PhaseNames);
  }

  lemma AggregatesPrintable(records: seq<Invocation>)
    requires AggregateInvocations(records).Some?
    ensures var all := AggregateInvocations(records).value;
            forall i | 0 <= i < |all| :: Printable(EncodeAggregate(all[i]))
  {
    AggregatesByCohort(records);
    var keys := SortedCohorts(records);
    var all := AggregateInvocations(records).value;
    forall i | 0 <= i < |all| ensures Printable(EncodeAggregate(all[i])) {
      GroupShape(records, keys[i]);
      GroupRational(Group(records, keys[i]));
      AggregatePrintable(AggregateKey(records, keys[i]));
    }
  }

  lemma RateIsRational(count: nat, elapsedNs: nat)
    requires elapsedNs > 0
    ensures Rational(Rate(count, elapsedNs))
  {
    var second: nat := 1_000_000_000;
    assert second as real == 1_000_000_000.0;
    IntegerIsRational(second);
    QuotientIsRational(second as real, elapsedNs);
    IntegerIsRational(count);
    var scale, total := 1_000_000_000.0 / elapsedNs as real, count as real;
    ProductIsRational(total, scale);
    assert Rate(count, elapsedNs) == total * scale;
  }

  lemma {:induction false} RatesRational(group: seq<Batch>)
    ensures AllRational(AcceptedRates(group)) && AllRational(CompletedRates(group))
  {
    if group != [] {
      var n := |group| - 1;
      RatesRational(group[..n]);
      if group[n].elapsedNs > 0 {
        RateIsRational(group[n].accepted, group[n].elapsedNs);
        RateIsRational(group[n].completed, group[n].elapsedNs);
      }
    }
  }

  lemma RateAtPrintable(batches: seq<Batch>, key: Key, a: RateAggregate)
    requires a in RateAt(batches, key)
    ensures Printable(EncodeRate(a))
  {
    var group := GroupOf(batches, RateKey, key);
    RatesRational(group);
    DescribeRational(AcceptedRates(group));
    DescribeRational(CompletedRates(group));
    RatePrintable(a);
  }
}
