/** Writing and reading back the canonical evidence of a valid run. */
module CanonicalEvidence {
  import opened Wrappers
  import opened Sequences
  import opened Ordering
  import opened DescriptiveStatistics
  import opened FixedSchedule
  import opened RunRecords
  import opened RecordedExecutor
  import opened Reconciliation
  import opened RunValidation
  import opened RunVerdict
  import opened Grouping
  import opened CohortAggregation
  import opened BatchRates
  import opened EvidenceJson
  import opened EvidenceFiles
  import opened EvidencePrinting

  /** A listing of the same run in another order. */
  predicate Rearranges(a: Execution, b: Execution) {
    && multiset(a.invocations) == multiset(b.invocations)
    && multiset(a.batches) == multiset(b.batches)
    && multiset(a.ownership) == multiset(b.ownership)
  }

  // ----- validity does not depend on the order of the records -----

  lemma EnumeratesRearranged<P, O>(planned: seq<P>, s: seq<O>, t: seq<O>, index: O -> nat, agrees: (P, O) -> bool)
    requires Enumerates(planned, s, index, agrees) && multiset(s) == multiset(t)
    ensures Enumerates(planned, t, index, agrees)
  {
    PermutationLength(s, t);
    IndexesDistinct(s, t, index);
    forall i | 0 <= i < |t| ensures index(t[i]) < |planned| && agrees(planned[index(t[i])], t[i]) {
      assert t[i] in multiset(t);
      assert t[i] in multiset(s);
      var j :| 0 <= j < |s| && s[j] == t[i];
    }
  }

  lemma FoundRearranged(plans: seq<BatchPlan>, s: seq<Invocation>, t: seq<Invocation>)
    requires DistinctPlans(plans) && InvocationsMatch(plans, s) && InvocationsMatch(plans, t) && multiset(s) == multiset(t)
    ensures Found(s) == Found(t)
  {
    InvocationsReconciled(plans, s);
    InvocationsReconciled(plans, t);
    DictionaryPermutation(s, t, InvocationKey);
  }

  lemma FaithfulRearranged(plans: seq<BatchPlan>, s: seq<Invocation>, t: seq<Invocation>, b: seq<Batch>, c: seq<Batch>)
    requires BatchesFaithful(plans, s, b) && Found(s) == Found(t) && multiset(b) == multiset(c)
    ensures BatchesFaithful(plans, t, c)
  {
    forall i | 0 <= i < |c|
      ensures && c[i].index < |plans|
              && LanesFound(Found(t), plans[c[i].index])
              && Faithful(c[i], LaneRecords(Found(t), plans[c[i].index]))
    {
      assert c[i] in multiset(c);
      assert c[i] in multiset(b);
      var j :| 0 <= j < |b| && b[j] == c[i];
    }
  }

  lemma SameMembers<T>(s: seq<T>, t: seq<T>)
    requires multiset(s) == multiset(t)
    ensures forall x :: x in s <==> x in t
  {
    forall x ensures x in s <==> x in t {
      assert x in s <==> x in multiset(s);
      assert x in t <==> x in multiset(t);
    }
  }

  lemma OwnedRearranged(retained: seq<nat>, s: seq<Ownership>, t: seq<Ownership>)
    requires Owned(retained, s) && multiset(s) == multiset(t)
    ensures Owned(retained, t)
  {
    PermutationLength(s, t);
    SameMembers(s, t);
    assert ObservedOwners(s) == ObservedOwners(t);
    forall i | 0 <= i < |retained| ensures |ThreadIds(t, retained[i])| == retained[i] {
      assert ThreadIds(s, retained[i]) == ThreadIds(t, retained[i]);
    }
  }

  lemma RunIdsRearranged(a: Execution, b: Execution)
    requires Rearranges(a, b)
    ensures RunIds(a.invocations, a.batches) == RunIds(b.invocations, b.batches)
  {
    SameMembers(a.invocations, b.invocations);
    SameMembers(a.batches, b.batches);
  }

  /** Any rearrangement of a valid run is a valid run. */
  lemma ValidRearranged(d: Design, schedule: Schedule, a: Execution, b: Execution)
    requires Legal(d) && ValidRun(d, schedule, a) && Rearranges(a, b)
    ensures ValidRun(d, schedule, b)
  {
    var plans := RecordedOnly(schedule.batches);
    RecordedPlans(d);
    EnumeratesRearranged(PlannedInvocations(plans), a.invocations, b.invocations, InvocationIndex, InvocationAgrees);
    EnumeratesRearranged(PlannedBatches(plans), a.batches, b.batches, BatchIndex, BatchAgrees);
    AcceptablePermutation(a.invocations, b.invocations);
    FoundRearranged(plans, a.invocations, b.invocations);
    FaithfulRearranged(plans, a.invocations, b.invocations, a.batches, b.batches);
    OwnedRearranged(d.retained, a.ownership, b.ownership);
    RunIdsRearranged(a, b);
  }

  // ----- what may be published -----

  /** The facts that differ between runs; the manifest's other fields are constants of the contract. */
  datatype Manifest = Manifest(
    runId: string, sourceCommit: string, serverVersion: string, isolation: string, autocommit: bool, topology: string)

  predicate PhasesAreCanonical(r: Invocation) {
    r.evidence.Normal? && r.evidence.phases.Some? && Names(r.evidence.phases.value) == PhaseNames
  }

  predicate ClassifiedExactly(r: Invocation) {
    r.evidence.Normal? && r.evidence.cohort.Some?
    && Classify(r.evidence.outcome, r.evidence.stage, r.evidence.stream, r.evidence.append) == r.evidence.cohort
  }

  predicate Publishable(m: Manifest, r: Invocation) {
    r.runId == m.runId && PhasesAreCanonical(r) && ClassifiedExactly(r)
  }

  predicate AllPublishable(m: Manifest, run: Execution) {
    && (forall i | 0 <= i < |run.invocations| :: Publishable(m, run.invocations[i]))
    && (forall i | 0 <= i < |run.batches| :: run.batches[i].runId == m.runId)
  }

  predicate RatesComplete(d: Design, m: Manifest, rates: seq<RateAggregate>) {
    && |rates| == 4 * |d.order|
    && forall i | 0 <= i < |rates| :: rates[i].runId == m.runId && rates[i].accepted.count == rates[i].all.count == d.recorded
  }

  predicate AggregatesOfRun(m: Manifest, aggregates: seq<Aggregate>) {
    forall i | 0 <= i < |aggregates| :: aggregates[i].runId == m.runId
  }

  /** The checks made before writing and again after reading; they yield the aggregates. */
  ghost function ValidateCanonical(d: Design, m: Manifest, run: Execution): Option<(seq<Aggregate>, seq<RateAggregate>)> {
    if !ValidRun(d, ScheduleOf(d), run) then None
    else if !AllPublishable(m, run) then None
    else
      match (AggregateInvocations(run.invocations), AggregateBatchRates(run.batches))
      case (Some(aggregates), Some(rates)) =>
        if RatesComplete(d, m, rates) && AggregatesOfRun(m, aggregates) then Some((aggregates, rates)) else None
      case _ => None
  }

  /** Publishability does not depend on the order of the records either. */
  lemma CanonicalRearranged(d: Design, m: Manifest, a: Execution, b: Execution)
    requires Legal(d) && Rearranges(a, b) && ValidateCanonical(d, m, a).Some?
    ensures ValidateCanonical(d, m, b) == ValidateCanonical(d, m, a)
  {
    ValidRearranged(d, ScheduleOf(d), a, b);
    PublishableRearranged(m, a, b);
    AggregatesPermutation(a.invocations, b.invocations);
    BatchRatesPermutation(a.batches, b.batches);
    CanonicalFrom(d, m, a, b);
  }

  lemma CanonicalFrom(d: Design, m: Manifest, a: Execution, b: Execution)
    requires ValidRun(d, ScheduleOf(d), a) <==> ValidRun(d, ScheduleOf(d), b)
    requires AllPublishable(m, a) <==> AllPublishable(m, b)
    requires AggregateInvocations(a.invocations) == AggregateInvocations(b.invocations)
    requires AggregateBatchRates(a.batches) == AggregateBatchRates(b.batches)
    ensures ValidateCanonical(d, m, b) == ValidateCanonical(d, m, a)
  {
  }

  lemma PublishableRearranged(m: Manifest, a: Execution, b: Execution)
    requires Rearranges(a, b) && AllPublishable(m, a)
    ensures AllPublishable(m, b)
  {
    forall i | 0 <= i < |b.invocations| ensures Publishable(m, b.invocations[i]) {
      assert b.invocations[i] in multiset(b.invocations);
      assert b.invocations[i] in multiset(a.invocations);
    }
    forall i | 0 <= i < |b.batches| ensures b.batches[i].runId == m.runId {
      assert b.batches[i] in multiset(b.batches);
      assert b.batches[i] in multiset(a.batches);
    }
  }

  // ----- the payloads -----

  datatype Payloads = Payloads(manifest: string, invocations: string, batches: string, ownership: string,
                               invocationAggregates: string, rateAggregates: string)

  datatype Readback = Readback(manifest: Manifest, run: Execution, aggregates: seq<Aggregate>, rates: seq<RateAggregate>)

  function OwnershipKey(o: Ownership): Key {
    [Atom.Number(o.level), Atom.Number(o.lane), Atom.Number(o.slot), Atom.Number(o.thread)]
  }

  function Arranged(run: Execution): (r: Execution)
    ensures Rearranges(run, r)
  {
    Execution(SortBy(run.invocations, IndexKey(InvocationIndex)), SortBy(run.batches, IndexKey(BatchIndex)),
              SortBy(run.ownership, OwnershipKey))
  }

  function EncodeManifest(m: Manifest): Json {
    Object(map[RunId := Str(m.runId), SourceCommit := Str(m.sourceCommit), ServerVersion := Str(m.serverVersion),
               Isolation := Str(m.isolation), Autocommit := Boolean(m.autocommit), TopologyLabel := Str(m.topology)])
  }

  function DecodeManifest(v: Json): Option<Manifest> {
    if !Closed(v, {RunId, SourceCommit, ServerVersion, Isolation, Autocommit, TopologyLabel})
       || !v.fields[Autocommit].Boolean? then None
    else
      match (TextOf(v.fields[RunId]), TextOf(v.fields[SourceCommit]), TextOf(v.fields[ServerVersion]),
             TextOf(v.fields[Isolation]), TextOf(v.fields[TopologyLabel]))
      case (Some(runId), Some(commit), Some(version), Some(isolation), Some(topology)) =>
        Some(Manifest(runId, commit, version, isolation, v.fields[Autocommit].truth, topology))
      case _ => None
  }

  ghost function ConstructPayloads(d: Design, render: Json -> string, m: Manifest, run: Execution): Option<Payloads> {
    match ValidateCanonical(d, m, run)
    case None => None
    case Some((aggregates, rates)) =>
      var sorted := Arranged(run);
      Some(Payloads(JsonDocument(render, EncodeManifest(m)),
                    JsonlDocument(render, Map(EncodeInvocation, sorted.invocations)),
                    JsonlDocument(render, Map(EncodeBatch, sorted.batches)),
                    JsonDocument(render, Array(Map(EncodeOwnership, sorted.ownership))),
                    JsonDocument(render, Array(Map(EncodeAggregate, aggregates))),
                    JsonDocument(render, Array(Map(EncodeRate, rates)))))
  }

  function ReadArray<T>(parse: string -> Option<Json>, decode: Json -> Option<T>, t: string): Option<seq<T>> {
    match parse(t)
    case Some(Array(items)) => DecodeAll(decode, items)
    case _ => None
  }

  function ReadLines<T>(parse: string -> Option<Json>, decode: Json -> Option<T>, t: string): Option<seq<T>> {
    match ParseJsonl(parse, t)
    case Some(values) => DecodeAll(decode, values)
    case None => None
  }

  function ReadManifest(parse: string -> Option<Json>, t: string): Option<Manifest> {
    match parse(t)
    case Some(v) => DecodeManifest(v)
    case None => None
  }

  predicate InIndexOrder<T>(s: seq<T>, index: T -> nat, count: nat) {
    |s| == count && forall i | 0 <= i < |s| :: index(s[i]) == i
  }

  predicate InOwnershipOrder(s: seq<Ownership>, count: int) {
    |s| == count && SortBy(s, OwnershipKey) == s
  }

  ghost function ReadRun(d: Design, parse: string -> Option<Json>, p: Payloads): Option<Execution> {
    var plans := RecordedOnly(ScheduleOf(d).batches);
    match (ReadLines(parse, DecodeInvocation(d.retained), p.invocations), ReadLines(parse, DecodeBatch(d.retained), p.batches),
           ReadArray(parse, DecodeOwnership(d.retained), p.ownership))
    case (Some(invocations), Some(batches), Some(ownership)) =>
      if && InIndexOrder(invocations, InvocationIndex, |PlannedInvocations(plans)|)
         && InIndexOrder(batches, BatchIndex, |plans|)
         && InOwnershipOrder(ownership, RunVerdict.Total(d.retained))
      then Some(Execution(invocations, batches, ownership)) else None
    case _ => None
  }

  /** Parses, re-validates and recomputes; the manifest must name the directory and the published aggregates must equal the recomputed ones. */
  ghost function ReadPayloads(d: Design, parse: string -> Option<Json>, directory: string, p: Payloads): Option<Readback> {
    match (ReadManifest(parse, p.manifest), ReadRun(d, parse, p),
           ReadArray(parse, DecodeAggregate(d.retained), p.invocationAggregates),
           ReadArray(parse, DecodeRate(d.retained), p.rateAggregates))
    case (Some(m), Some(run), Some(aggregates), Some(rates)) =>
      if m.runId == directory && ValidateCanonical(d, m, run) == Some((aggregates, rates))
      then Some(Readback(m, run, aggregates, rates)) else None
    case _ => None
  }

  // ----- each file comes back -----

  lemma DocumentParses(render: Json -> string, parse: string -> Option<Json>, v: Json)
    requires Inverts(render, parse) && Printable(v)
    ensures parse(JsonDocument(render, v)) == Some(v)
  {
    assert OneLine(render(v));
  }

  lemma ReadArrayInverts<T>(render: Json -> string, parse: string -> Option<Json>,
                            encode: T -> Json, decode: Json -> Option<T>, s: seq<T>)
    requires Inverts(render, parse)
    requires forall i | 0 <= i < |s| :: decode(encode(s[i])) == Some(s[i]) && Printable(encode(s[i]))
    ensures ReadArray(parse, decode, JsonDocument(render, Array(Map(encode, s)))) == Some(s)
  {
    DocumentParses(render, parse, Array(Map(encode, s)));
    DecodeAllInverts(encode, decode, s);
  }

  lemma ReadLinesInverts<T>(render: Json -> string, parse: string -> Option<Json>,
                            encode: T -> Json, decode: Json -> Option<T>, s: seq<T>)
    requires Inverts(render, parse) && s != []
    requires forall i | 0 <= i < |s| :: decode(encode(s[i])) == Some(s[i]) && Printable(encode(s[i]))
    ensures ReadLines(parse, decode, JsonlDocument(render, Map(encode, s))) == Some(s)
  {
    JsonlRoundTrip(render, parse, Map(encode, s));
    DecodeAllInverts(encode, decode, s);
  }

  lemma ReadManifestInverts(render: Json -> string, parse: string -> Option<Json>, m: Manifest)
    requires Inverts(render, parse)
    ensures ReadManifest(parse, JsonDocument(render, EncodeManifest(m))) == Some(m)
  {
    ManifestPrintable(m);
    DocumentParses(render, parse, EncodeManifest(m));
    ManifestRoundTrip(m);
  }

  lemma ManifestPrintable(m: Manifest)
    ensures Printable(EncodeManifest(m))
  {
  }

  lemma ManifestRoundTrip(m: Manifest)
    ensures DecodeManifest(EncodeManifest(m)) == Some(m)
  {
  }

  /** Records exist only as their constructors let them. */
  predicate RunConstructed(retained: seq<nat>, run: Execution) {
    && (forall i | 0 <= i < |run.invocations| :: InvocationConstructed(retained, run.invocations[i]))
    && (forall i | 0 <= i < |run.batches| :: BatchConstructed(retained, run.batches[i]))
    && (forall i | 0 <= i < |run.ownership| :: OwnershipConstructed(retained, run.ownership[i]))
  }

  lemma ConstructedRearranged(retained: seq<nat>, a: Execution, b: Execution)
    requires RunConstructed(retained, a) && Rearranges(a, b)
    ensures RunConstructed(retained, b)
  {
    forall i | 0 <= i < |b.invocations| ensures InvocationConstructed(retained, b.invocations[i]) {
      assert b.invocations[i] in multiset(b.invocations);
      assert b.invocations[i] in multiset(a.invocations);
    }
    forall i | 0 <= i < |b.batches| ensures BatchConstructed(retained, b.batches[i]) {
      assert b.batches[i] in multiset(b.batches);
      assert b.batches[i] in multiset(a.batches);
    }
    forall i | 0 <= i < |b.ownership| ensures OwnershipConstructed(retained, b.ownership[i]) {
      assert b.ownership[i] in multiset(b.ownership);
      assert b.ownership[i] in multiset(a.ownership);
    }
  }

  // ----- the aggregates are readable -----

  lemma {:induction false} FlatMapSame<T, U>(f: T -> seq<U>, g: T -> seq<U>, s: seq<T>)
    requires forall i | 0 <= i < |s| :: f(s[i]) == g(s[i])
    ensures FlatMap(f, s) == FlatMap(g, s)
  {
    if s != [] { FlatMapSame(f, g, s[..|s| - 1]); }
  }

  function MeasuredIn(group: seq<Invocation>, n: PhaseName): seq<PhaseName> {
    if PhaseValues(group, n) != [] then [n] else []
  }

  lemma {:induction false} PhasesReadable(group: seq<Invocation>, names: seq<PhaseName>)
    ensures var phases := PhasesOf(group, names);
            && Map(AggregateName, phases) == FlatMap((n: PhaseName) => MeasuredIn(group, n), names)
            && forall i | 0 <= i < |phases| :: phases[i].statistics.count > 0 && Ordered(phases[i].statistics)
  {
    if names != [] {
      var n := |names| - 1;
      PhasesReadable(group, names[..n]);
      PhaseReadable(group, names[n]);
      NamesOfMore(PhasesOf(group, names[..n]), DescribePhase(group, names[n]));
      assert PhasesOf(group, names) == PhasesOf(group, names[..n]) + DescribePhase(group, names[n]);
    }
  }

  lemma PhaseReadable(group: seq<Invocation>, name: PhaseName)
    ensures var phases := DescribePhase(group, name);
            && Map(AggregateName, phases) == MeasuredIn(group, name)
            && forall i | 0 <= i < |phases| :: phases[i].statistics.count > 0 && Ordered(phases[i].statistics)
  {
    DescribedPhase(group, name, PhaseValues(group, name));
    if PhaseValues(group, name) != [] { OnePhaseReadable(PhaseValues(group, name), name); }
  }

  lemma DescribedPhase(group: seq<Invocation>, name: PhaseName, values: seq<real>)
    requires values == PhaseValues(group, name)
    ensures DescribePhase(group, name) == if values == [] then [] else [PhaseAggregate(name, Describe(values))]
  {
  }

  lemma OnePhaseReadable(values: seq<real>, name: PhaseName)
    requires values != []
    ensures var phases := [PhaseAggregate(name, Describe(values))];
            && Map(AggregateName, phases) == [name]
            && phases[0].statistics.count > 0 && Ordered(phases[0].statistics)
  {
    DescribeOrdered(values);
  }

  lemma NamesOfMore(s: seq<PhaseAggregate>, t: seq<PhaseAggregate>)
    ensures Map(AggregateName, s + t)
         == Map(AggregateName, s) + Map(AggregateName, t)
  {
  }

  lemma PhasesListedInOrder(group: seq<Invocation>)
    ensures PhasesInOrder(PhasesOf(group, PhaseNames))
  {
    PhasesReadable(group, PhaseNames);
    var names := Map(AggregateName, PhasesOf(group, PhaseNames));
    var f, g := (n: PhaseName) => MeasuredIn(group, n), (n: PhaseName) => if n in names then [n] else [];
    forall i | 0 <= i < |PhaseNames| ensures f(PhaseNames[i]) == g(PhaseNames[i]) {
      MeasuredIsListed(group, PhaseNames, PhaseNames[i]);
    }
    FlatMapSame(f, g, PhaseNames);
  }

  lemma MeasuredIsListed(group: seq<Invocation>, names: seq<PhaseName>, name: PhaseName)
    requires name in names
    ensures var listed := FlatMap((n: PhaseName) => MeasuredIn(group, n), names);
            MeasuredIn(group, name) == if name in listed then [name] else []
  {
    FlatMapMember((n: PhaseName) => MeasuredIn(group, n), names, name);
    var i :| 0 <= i < |names| && names[i] == name;
    assert name in MeasuredIn(group, names[i]) <==> MeasuredIn(group, name) == [name];
  }

  lemma GroupReadable(retained: seq<nat>, group: seq<Invocation>)
    requires Describable(group) && group[0].level in retained
    ensures AggregateReadable(retained, AggregateGroup(group))
  {
    DescribeOrdered(Elapsed(group));
    PhasesReadable(group, PhaseNames);
    PhasesListedInOrder(group);
  }

  lemma KeyReadable(retained: seq<nat>, records: seq<Invocation>, key: Key)
    requires AllClassified(records) && key in Keys(records)
    requires forall i | 0 <= i < |records| :: records[i].level in retained
    ensures AggregateReadable(retained, AggregateKey(records, key))
  {
    GroupShape(records, key);
    assert Group(records, key)[0] in records;
    GroupReadable(retained, Group(records, key));
  }

  lemma AggregatesReadable(retained: seq<nat>, records: seq<Invocation>)
    requires AggregateInvocations(records).Some?
    requires forall i | 0 <= i < |records| :: records[i].level in retained
    ensures var all := AggregateInvocations(records).value;
            forall i | 0 <= i < |all| :: DecodeAggregate(retained)(EncodeAggregate(all[i])) == Some(all[i])
  {
    AggregatesByCohort(records);
    var keys := SortedCohorts(records);
    var all := AggregateInvocations(records).value;
    forall i | 0 <= i < |all| ensures DecodeAggregate(retained)(EncodeAggregate(all[i])) == Some(all[i]) {
      KeyReadable(retained, records, keys[i]);
      AggregateRoundTrip(retained, AggregateKey(records, keys[i]));
    }
  }

  lemma RateAtReadable(retained: seq<nat>, batches: seq<Batch>, key: Key)
    requires AllTimed(batches) && key in KeysOf(batches, RateKey)
    requires forall i | 0 <= i < |batches| :: batches[i].level in retained
    ensures |RateAt(batches, key)| == 1 && RateReadable(retained, RateAt(batches, key)[0])
  {
    RatesDescribed(batches, key);
    GroupRates(batches, key);
    var group := GroupOf(batches, RateKey, key);
    GroupMember(batches, RateKey, key, group[0]);
    assert group[0] in group;
  }

  lemma RateMember(batches: seq<Batch>, keys: seq<Key>, a: RateAggregate) returns (key: Key)
    requires a in FlatMap((key: Key) => RateAt(batches, key), keys)
    ensures key in keys && a in RateAt(batches, key)
  {
    FlatMapMember((key: Key) => RateAt(batches, key), keys, a);
    var k :| 0 <= k < |keys| && a in RateAt(batches, keys[k]);
    key := keys[k];
  }

  lemma RateReads(retained: seq<nat>, batches: seq<Batch>, key: Key, a: RateAggregate)
    requires AllTimed(batches) && key in KeysOf(batches, RateKey) && a in RateAt(batches, key)
    requires forall i | 0 <= i < |batches| :: batches[i].level in retained
    ensures DecodeRate(retained)(EncodeRate(a)) == Some(a)
  {
    RateAtReadable(retained, batches, key);
    RateRoundTrip(retained, a);
  }

  lemma RatesReadable(retained: seq<nat>, batches: seq<Batch>)
    requires AggregateBatchRates(batches).Some?
    requires forall i | 0 <= i < |batches| :: batches[i].level in retained
    ensures var all := AggregateBatchRates(batches).value;
            forall i | 0 <= i < |all| :: DecodeRate(retained)(EncodeRate(all[i])) == Some(all[i])
  {
    var all := AggregateBatchRates(batches).value;
    forall i | 0 <= i < |all| ensures DecodeRate(retained)(EncodeRate(all[i])) == Some(all[i]) {
      var key := RateMember(batches, SortedKeys(KeysOf(batches, RateKey)), all[i]);
      RateReads(retained, batches, key, all[i]);
    }
  }

  // ----- the records are readable -----

  lemma NoIdsWithoutRecords(invocations: seq<Invocation>, batches: seq<Batch>)
    ensures invocations == [] && batches == [] ==> RunIds(invocations, batches) == {}
  {
  }

  lemma SomethingRecorded(d: Design, run: Execution)
    requires Legal(d) && ValidRun(d, ScheduleOf(d), run)
    ensures run.invocations != [] && run.batches != []
  {
    var plans := RecordedOnly(ScheduleOf(d).batches);
    RecordedPlans(d);
    NoIdsWithoutRecords(run.invocations, run.batches);
    if plans != [] { PlannedLane(plans, 0, 0); }
  }

  lemma ArrangedInOrder(d: Design, run: Execution)
    requires Legal(d) && ValidRun(d, ScheduleOf(d), run)
    ensures var plans := RecordedOnly(ScheduleOf(d).batches);
            && InIndexOrder(Arranged(run).invocations, InvocationIndex, |PlannedInvocations(plans)|)
            && InIndexOrder(Arranged(run).batches, BatchIndex, |plans|)
            && InOwnershipOrder(Arranged(run).ownership, RunVerdict.Total(d.retained))
  {
    SortedByIndex(run.invocations, InvocationIndex);
    SortedByIndex(run.batches, BatchIndex);
    SortByOrdered(run.ownership, OwnershipKey);
    SortedStays(SortBy(run.ownership, OwnershipKey), OwnershipKey);
    PermutationLength(SortBy(run.ownership, OwnershipKey), run.ownership);
  }

  lemma RunReadsBack(d: Design, render: Json -> string, parse: string -> Option<Json>, run: Execution, p: Payloads)
    requires Inverts(render, parse) && RunConstructed(d.retained, run)
    requires run.invocations != [] && run.batches != []
    requires p.invocations == JsonlDocument(render, Map(EncodeInvocation, run.invocations))
    requires p.batches == JsonlDocument(render, Map(EncodeBatch, run.batches))
    requires p.ownership == JsonDocument(render, Array(Map(EncodeOwnership, run.ownership)))
    ensures ReadLines(parse, DecodeInvocation(d.retained), p.invocations) == Some(run.invocations)
    ensures ReadLines(parse, DecodeBatch(d.retained), p.batches) == Some(run.batches)
    ensures ReadArray(parse, DecodeOwnership(d.retained), p.ownership) == Some(run.ownership)
  {
    InvocationsReadBack(d.retained, render, parse, run.invocations);
    BatchesReadBack(d.retained, render, parse, run.batches);
    OwnershipReadsBack(d.retained, render, parse, run.ownership);
  }

  lemma InvocationsReadBack(retained: seq<nat>, render: Json -> string, parse: string -> Option<Json>, s: seq<Invocation>)
    requires Inverts(render, parse) && s != []
    requires forall i | 0 <= i < |s| :: InvocationConstructed(retained, s[i])
    ensures ReadLines(parse, DecodeInvocation(retained), JsonlDocument(render, Map(EncodeInvocation, s))) == Some(s)
  {
    var decode := DecodeInvocation(retained);
    forall i | 0 <= i < |s| ensures decode(EncodeInvocation(s[i])) == Some(s[i]) && Printable(EncodeInvocation(s[i])) {
      InvocationRoundTrip(retained, s[i]);
      InvocationPrintable(s[i]);
    }
    ReadLinesInverts(render, parse, EncodeInvocation, decode, s);
  }

  lemma BatchesReadBack(retained: seq<nat>, render: Json -> string, parse: string -> Option<Json>, s: seq<Batch>)
    requires Inverts(render, parse) && s != []
    requires forall i | 0 <= i < |s| :: BatchConstructed(retained, s[i])
    ensures ReadLines(parse, DecodeBatch(retained), JsonlDocument(render, Map(EncodeBatch, s))) == Some(s)
  {
    var decode := DecodeBatch(retained);
    forall i | 0 <= i < |s| ensures decode(EncodeBatch(s[i])) == Some(s[i]) && Printable(EncodeBatch(s[i])) {
      BatchRoundTrip(retained, s[i]);
      BatchPrintable(s[i]);
    }
    ReadLinesInverts(render, parse, EncodeBatch, decode, s);
  }

  lemma OwnershipReadsBack(retained: seq<nat>, render: Json -> string, parse: string -> Option<Json>, s: seq<Ownership>)
    requires Inverts(render, parse)
    requires forall i | 0 <= i < |s| :: OwnershipConstructed(retained, s[i])
    ensures ReadArray(parse, DecodeOwnership(retained), JsonDocument(render, Array(Map(EncodeOwnership, s)))) == Some(s)
  {
    var decode := DecodeOwnership(retained);
    forall i | 0 <= i < |s| ensures decode(EncodeOwnership(s[i])) == Some(s[i]) && Printable(EncodeOwnership(s[i])) {
      OwnershipRoundTrip(retained, s[i]);
      OwnershipPrintable(s[i]);
    }
    ReadArrayInverts(render, parse, EncodeOwnership, decode, s);
  }

  lemma AggregatesReadBack(d: Design, render: Json -> string, parse: string -> Option<Json>, m: Manifest, run: Execution, p: Payloads)
    requires Inverts(render, parse) && RunConstructed(d.retained, run) && ValidateCanonical(d, m, run).Some?
    requires p.invocationAggregates == JsonDocument(render, Array(Map(EncodeAggregate, ValidateCanonical(d, m, run).value.0)))
    requires p.rateAggregates == JsonDocument(render, Array(Map(EncodeRate, ValidateCanonical(d, m, run).value.1)))
    ensures ReadArray(parse, DecodeAggregate(d.retained), p.invocationAggregates) == Some(ValidateCanonical(d, m, run).value.0)
    ensures ReadArray(parse, DecodeRate(d.retained), p.rateAggregates) == Some(ValidateCanonical(d, m, run).value.1)
  {
    CohortsReadBack(d.retained, render, parse, run.invocations);
    RatesReadBack(d.retained, render, parse, run.batches);
  }

  lemma CohortsReadBack(retained: seq<nat>, render: Json -> string, parse: string -> Option<Json>, records: seq<Invocation>)
    requires Inverts(render, parse) && AggregateInvocations(records).Some?
    requires forall i | 0 <= i < |records| :: records[i].level in retained
    ensures var all := AggregateInvocations(records).value;
            ReadArray(parse, DecodeAggregate(retained), JsonDocument(render, Array(Map(EncodeAggregate, all)))) == Some(all)
  {
    var all := AggregateInvocations(records).value;
    AggregatesReadable(retained, records);
    AggregatesPrintable(records);
    ReadArrayInverts(render, parse, EncodeAggregate, DecodeAggregate(retained), all);
  }

  lemma RatesReadBack(retained: seq<nat>, render: Json -> string, parse: string -> Option<Json>, batches: seq<Batch>)
    requires Inverts(render, parse) && AggregateBatchRates(batches).Some?
    requires forall i | 0 <= i < |batches| :: batches[i].level in retained
    ensures var all := AggregateBatchRates(batches).value;
            ReadArray(parse, DecodeRate(retained), JsonDocument(render, Array(Map(EncodeRate, all)))) == Some(all)
  {
    var all := AggregateBatchRates(batches).value;
    RatesReadable(retained, batches);
    forall i | 0 <= i < |all| ensures Printable(EncodeRate(all[i])) {
      var key := RateMember(batches, SortedKeys(KeysOf(batches, RateKey)), all[i]);
      RateAtPrintable(batches, key, all[i]);
    }
    ReadArrayInverts(render, parse, EncodeRate, DecodeRate(retained), all);
  }

  lemma RunFromParts(d: Design, parse: string -> Option<Json>, p: Payloads, run: Execution)
    requires ReadLines(parse, DecodeInvocation(d.retained), p.invocations) == Some(run.invocations)
    requires ReadLines(parse, DecodeBatch(d.retained), p.batches) == Some(run.batches)
    requires ReadArray(parse, DecodeOwnership(d.retained), p.ownership) == Some(run.ownership)
    requires var plans := RecordedOnly(ScheduleOf(d).batches);
             && InIndexOrder(run.invocations, InvocationIndex, |PlannedInvocations(plans)|)
             && InIndexOrder(run.batches, BatchIndex, |plans|)
             && InOwnershipOrder(run.ownership, RunVerdict.Total(d.retained))
    ensures ReadRun(d, parse, p) == Some(run)
  {
  }

  lemma ReadFromParts(d: Design, parse: string -> Option<Json>, p: Payloads, m: Manifest, run: Execution,
                      aggregates: seq<Aggregate>, rates: seq<RateAggregate>)
    requires ReadManifest(parse, p.manifest) == Some(m) && ReadRun(d, parse, p) == Some(run)
    requires ReadArray(parse, DecodeAggregate(d.retained), p.invocationAggregates) == Some(aggregates)
    requires ReadArray(parse, DecodeRate(d.retained), p.rateAggregates) == Some(rates)
    requires ValidateCanonical(d, m, run) == Some((aggregates, rates))
    ensures ReadPayloads(d, parse, m.runId, p) == Some(Readback(m, run, aggregates, rates))
    ensures forall name | name != m.runId :: ReadPayloads(d, parse, name, p) == None
  {
  }

  lemma WrittenParts(d: Design, render: Json -> string, m: Manifest, run: Execution)
    requires ValidateCanonical(d, m, run).Some?
    ensures ConstructPayloads(d, render, m, run).Some?
    ensures var p, sorted := ConstructPayloads(d, render, m, run).value, Arranged(run);
            && p.manifest == JsonDocument(render, EncodeManifest(m))
            && p.invocations == JsonlDocument(render, Map(EncodeInvocation, sorted.invocations))
            && p.batches == JsonlDocument(render, Map(EncodeBatch, sorted.batches))
            && p.ownership == JsonDocument(render, Array(Map(EncodeOwnership, sorted.ownership)))
            && p.invocationAggregates == JsonDocument(render, Array(Map(EncodeAggregate, ValidateCanonical(d, m, run).value.0)))
            && p.rateAggregates == JsonDocument(render, Array(Map(EncodeRate, ValidateCanonical(d, m, run).value.1)))
  {
  }

  lemma AcceptedIsValid(d: Design, m: Manifest, run: Execution)
    requires ValidateCanonical(d, m, run).Some?
    ensures ValidRun(d, ScheduleOf(d), run)
  {
  }

  /**
   Whatever the writer accepts is read back from the directory of its run without rejection: the same
   manifest, the records in index order, and published aggregates equal to those recomputed from the
   records read. Under any other directory name it is refused.
   */
  lemma PublishedReadsBack(d: Design, render: Json -> string, parse: string -> Option<Json>, m: Manifest, run: Execution)
    requires Legal(d) && Inverts(render, parse) && RunConstructed(d.retained, run)
    requires ConstructPayloads(d, render, m, run).Some?
    ensures ValidateCanonical(d, m, run).Some?
    ensures var (aggregates, rates) := ValidateCanonical(d, m, run).value;
            && ReadPayloads(d, parse, m.runId, ConstructPayloads(d, render, m, run).value)
               == Some(Readback(m, Arranged(run), aggregates, rates))
            && (forall name | name != m.runId ::
                  ReadPayloads(d, parse, name, ConstructPayloads(d, render, m, run).value) == None)
            && ValidateCanonical(d, m, Arranged(run)) == Some((aggregates, rates))
  {
    var p, sorted := ConstructPayloads(d, render, m, run).value, Arranged(run);
    WrittenParts(d, render, m, run);
    AcceptedIsValid(d, m, run);
    CanonicalRearranged(d, m, run, sorted);
    AcceptedIsValid(d, m, sorted);
    ConstructedRearranged(d.retained, run, sorted);
    SomethingRecorded(d, sorted);
    ArrangedInOrder(d, run);
    RunReadsBack(d, render, parse, sorted, p);
    AggregatesReadBack(d, render, parse, m, sorted, p);
    ReadManifestInverts(render, parse, m);
    RunFromParts(d, parse, p, sorted);
    var found := ValidateCanonical(d, m, run).value;
    ReadFromParts(d, parse, p, m, sorted, found.0, found.1);
  }
}
