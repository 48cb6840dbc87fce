/**
What a reader that does not reject has established: each file is the encoding of what it
returns, record by record and in order, and all of it would be accepted for writing again.
*/
module EvidenceReading {
  import opened Wrappers
  import opened Ordering
  import opened FixedSchedule
  import opened RunRecords
  import opened RecordedExecutor
  import opened RunValidation
  import opened RunVerdict
  import opened CohortAggregation
  import opened BatchRates
  import opened EvidenceJson
  import opened EvidenceDecoding
  import opened EvidenceFiles
  import opened CanonicalEvidence
  import opened CanonicalAcceptance

  lemma ManifestExact(v: Json)
    ensures DecodeManifest(v).Some? ==> v == EncodeManifest(DecodeManifest(v).value)
  {
    if DecodeManifest(v).Some? {
      PlainExact(v.fields[RunId]);
      PlainExact(v.fields[SourceCommit]);
      PlainExact(v.fields[ServerVersion]);
      PlainExact(v.fields[Isolation]);
      PlainExact(v.fields[TopologyLabel]);
      ObjectIs(v, EncodeManifest(DecodeManifest(v).value).fields);
    }
  }

  /** Decoding gives back only what has that encoding and meets the record's own checks. */
  ghost predicate Exact<T(!new)>(encode: T -> Json, decode: Json -> Option<T>, ok: T -> bool) {
    forall v | decode(v).Some? :: v == encode(decode(v).value) && ok(decode(v).value)
  }

  lemma {:induction false} AllDecodedOk<T(!new)>(encode: T -> Json, decode: Json -> Option<T>, ok: T -> bool, items: seq<Json>)
    requires Exact(encode, decode, ok) && DecodeAll(decode, items).Some?
    ensures forall i | 0 <= i < |DecodeAll(decode, items).value| :: ok(DecodeAll(decode, items).value[i])
  {
    if items != [] { AllDecodedOk(encode, decode, ok, items[..|items| - 1]); }
  }

  lemma ItemsExact<T(!new)>(encode: T -> Json, decode: Json -> Option<T>, ok: T -> bool, items: seq<Json>)
    requires Exact(encode, decode, ok) && DecodeAll(decode, items).Some?
    ensures var s := DecodeAll(decode, items).value; items == Map(encode, s) && forall i | 0 <= i < |s| :: ok(s[i])
  {
    DecodeAllExact(encode, decode, items);
    AllDecodedOk(encode, decode, ok, items);
  }

  lemma ArrayExact<T(!new)>(parse: string -> Option<Json>, encode: T -> Json, decode: Json -> Option<T>, ok: T -> bool, t: string)
    requires Exact(encode, decode, ok) && ReadArray(parse, decode, t).Some?
    ensures var s := ReadArray(parse, decode, t).value;
            parse(t) == Some(Array(Map(encode, s))) && forall i | 0 <= i < |s| :: ok(s[i])
  {
    ItemsExact(encode, decode, ok, parse(t).value.items);
  }

  lemma LinesExact<T(!new)>(parse: string -> Option<Json>, encode: T -> Json, decode: Json -> Option<T>, ok: T -> bool, t: string)
    requires Exact(encode, decode, ok) && ReadLines(parse, decode, t).Some?
    ensures var s := ReadLines(parse, decode, t).value;
            ParseJsonl(parse, t) == Some(Map(encode, s)) && forall i | 0 <= i < |s| :: ok(s[i])
  {
    ItemsExact(encode, decode, ok, ParseJsonl(parse, t).value);
  }

  /** The three record files hold exactly these records, each as its constructor asks for it. */
  ghost predicate FilesHold(d: Design, parse: string -> Option<Json>, p: Payloads, run: Execution) {
    && ParseJsonl(parse, p.invocations) == Some(Map(EncodeInvocation, run.invocations))
    && ParseJsonl(parse, p.batches) == Some(Map(EncodeBatch, run.batches))
    && parse(p.ownership) == Some(Array(Map(EncodeOwnership, run.ownership)))
    && (forall i | 0 <= i < |run.invocations| :: InvocationConstructed(d.retained, run.invocations[i]))
    && (forall i | 0 <= i < |run.batches| :: BatchConstructed(d.retained, run.batches[i]))
    && (forall i | 0 <= i < |run.ownership| :: OwnershipConstructed(d.retained, run.ownership[i]))
  }

  /** Invocations and batches by index, ownership by level, lane, slot and thread. */
  predicate FilesInOrder(run: Execution) {
    && (forall i | 0 <= i < |run.invocations| :: run.invocations[i].index == i)
    && (forall i | 0 <= i < |run.batches| :: run.batches[i].index == i)
    && (forall i, j | 0 <= i < j < |run.ownership| :: !OwnerLess(run.ownership[j], run.ownership[i]))
  }

  predicate OwnerLess(a: Ownership, b: Ownership) {
    || a.level < b.level
    || (a.level == b.level
        && (a.lane < b.lane || (a.lane == b.lane && (a.slot < b.slot || (a.slot == b.slot && a.thread < b.thread)))))
  }

  lemma NumberFirst(x: int, y: int, k: Key, l: Key)
    ensures KeyLess([Atom.Number(x)] + k, [Atom.Number(y)] + l) <==> x < y || (x == y && KeyLess(k, l))
  {
    assert ([Atom.Number(x)] + k)[1..] == k && ([Atom.Number(y)] + l)[1..] == l;
  }

  lemma OwnerOrder(a: Ownership, b: Ownership)
    ensures KeyLess(OwnershipKey(a), OwnershipKey(b)) <==> OwnerLess(a, b)
  {
    var k, l := [Atom.Number(a.thread)], [Atom.Number(b.thread)];
    NumberKeyLess(a.thread, b.thread);
    NumberFirst(a.slot, b.slot, k, l);
    NumberFirst(a.lane, b.lane, [Atom.Number(a.slot)] + k, [Atom.Number(b.slot)] + l);
    NumberFirst(a.level, b.level, [Atom.Number(a.lane)] + ([Atom.Number(a.slot)] + k), [Atom.Number(b.lane)] + ([Atom.Number(b.slot)] + l));
    assert OwnershipKey(a) == [Atom.Number(a.level)] + ([Atom.Number(a.lane)] + ([Atom.Number(a.slot)] + k));
    assert OwnershipKey(b) == [Atom.Number(b.level)] + ([Atom.Number(b.lane)] + ([Atom.Number(b.slot)] + l));
  }

  lemma OwnersInOrder(s: seq<Ownership>)
    requires SortBy(s, OwnershipKey) == s
    ensures forall i, j | 0 <= i < j < |s| :: !OwnerLess(s[j], s[i])
  {
    SortByOrdered(s, OwnershipKey);
    forall i, j | 0 <= i < j < |s| ensures !OwnerLess(s[j], s[i]) { OwnerOrder(s[j], s[i]); }
  }

  lemma InvocationsExact(retained: seq<nat>)
    ensures Exact(EncodeInvocation, DecodeInvocation(retained), r => InvocationConstructed(retained, r))
  {
    forall v | DecodeInvocation(retained)(v).Some?
      ensures v == EncodeInvocation(DecodeInvocation(retained)(v).value)
      ensures InvocationConstructed(retained, DecodeInvocation(retained)(v).value)
    {
      InvocationExact(retained, v, DecodeInvocation(retained)(v).value);
    }
  }

  lemma BatchesExact(retained: seq<nat>)
    ensures Exact(EncodeBatch, DecodeBatch(retained), b => BatchConstructed(retained, b))
  {
    forall v | DecodeBatch(retained)(v).Some?
      ensures v == EncodeBatch(DecodeBatch(retained)(v).value)
      ensures BatchConstructed(retained, DecodeBatch(retained)(v).value)
    {
      BatchExact(retained, v, DecodeBatch(retained)(v).value);
    }
  }

  lemma OwnersExact(retained: seq<nat>)
    ensures Exact(EncodeOwnership, DecodeOwnership(retained), o => OwnershipConstructed(retained, o))
  {
    forall v | DecodeOwnership(retained)(v).Some?
      ensures v == EncodeOwnership(DecodeOwnership(retained)(v).value)
      ensures OwnershipConstructed(retained, DecodeOwnership(retained)(v).value)
    {
      OwnershipExact(retained, v, DecodeOwnership(retained)(v).value);
    }
  }

  lemma RunIsRead(d: Design, parse: string -> Option<Json>, p: Payloads)
    requires ReadRun(d, parse, p).Some?
    ensures FilesHold(d, parse, p, ReadRun(d, parse, p).value) && FilesInOrder(ReadRun(d, parse, p).value)
  {
    var run := ReadRun(d, parse, p).value;
    InvocationsExact(d.retained);
    BatchesExact(d.retained);
    OwnersExact(d.retained);
    LinesExact(parse, EncodeInvocation, DecodeInvocation(d.retained), r => InvocationConstructed(d.retained, r), p.invocations);
    LinesExact(parse, EncodeBatch, DecodeBatch(d.retained), b => BatchConstructed(d.retained, b), p.batches);
    ArrayExact(parse, EncodeOwnership, DecodeOwnership(d.retained), o => OwnershipConstructed(d.retained, o), p.ownership);
    forall i | 0 <= i < |run.invocations| ensures run.invocations[i].index == i { assert InvocationIndex(run.invocations[i]) == i; }
    forall i | 0 <= i < |run.batches| ensures run.batches[i].index == i { assert BatchIndex(run.batches[i]) == i; }
    OwnersInOrder(run.ownership);
  }

  /** What a publishable record says: its run, the thirteen phases in order, and a cohort its outcome classifies into. */
  predicate SaysItsRun(directory: string, r: Invocation) {
    && r.runId == directory && r.evidence.Normal? && r.evidence.phases.Some? && Names(r.evidence.phases.value) == PhaseNames
    && r.evidence.cohort.Some?
    && Classify(r.evidence.outcome, r.evidence.stage, r.evidence.stream, r.evidence.append) == r.evidence.cohort
  }

  /**
   Whatever the reader returns for a directory: the manifest names the directory; the files hold exactly the
   returned records in their order; the run is valid, timed and of that run id; and the published aggregates
   are those recomputed from the records.
   */
  lemma ReadIsFaithful(d: Design, parse: string -> Option<Json>, directory: string, p: Payloads)
    requires Legal(d) && ReadPayloads(d, parse, directory, p).Some?
    ensures var back := ReadPayloads(d, parse, directory, p).value;
            && back.manifest.runId == directory && parse(p.manifest) == Some(EncodeManifest(back.manifest))
            && FilesHold(d, parse, p, back.run) && FilesInOrder(back.run)
            && ValidRun(d, ScheduleOf(d), back.run)
            && (forall i | 0 <= i < |back.run.invocations| :: SaysItsRun(directory, back.run.invocations[i]))
            && (forall i | 0 <= i < |back.run.batches| ::
                  back.run.batches[i].runId == directory && back.run.batches[i].elapsedNs > 0)
            && AggregateInvocations(back.run.invocations) == Some(back.aggregates)
            && AggregateBatchRates(back.run.batches) == Some(back.rates)
            && ReadArray(parse, DecodeAggregate(d.retained), p.invocationAggregates) == Some(back.aggregates)
            && ReadArray(parse, DecodeRate(d.retained), p.rateAggregates) == Some(back.rates)
  {
    var back := ReadPayloads(d, parse, directory, p).value;
    ReadParts(d, parse, directory, p);
    ManifestExact(parse(p.manifest).value);
    RunIsRead(d, parse, p);
    CanonicalIff(d, back.manifest, back.run);
    AcceptedAggregates(d, back.manifest, back.run);
    PublishableSays(back.manifest, back.run);
  }

  lemma ReadParts(d: Design, parse: string -> Option<Json>, directory: string, p: Payloads)
    requires ReadPayloads(d, parse, directory, p).Some?
    ensures var back := ReadPayloads(d, parse, directory, p).value;
            && ReadManifest(parse, p.manifest) == Some(back.manifest) && ReadRun(d, parse, p) == Some(back.run)
            && parse(p.manifest).Some? && DecodeManifest(parse(p.manifest).value) == Some(back.manifest)
            && ReadArray(parse, DecodeAggregate(d.retained), p.invocationAggregates) == Some(back.aggregates)
            && ReadArray(parse, DecodeRate(d.retained), p.rateAggregates) == Some(back.rates)
            && back.manifest.runId == directory
            && ValidateCanonical(d, back.manifest, back.run) == Some((back.aggregates, back.rates))
  {
  }

  lemma AcceptedAggregates(d: Design, m: Manifest, run: Execution)
    requires ValidateCanonical(d, m, run).Some?
    ensures var (aggregates, rates) := ValidateCanonical(d, m, run).value;
            AggregateInvocations(run.invocations) == Some(aggregates) && AggregateBatchRates(run.batches) == Some(rates)
  {
  }

  lemma PublishableSays(m: Manifest, run: Execution)
    requires AllPublishable(m, run)
    ensures forall i | 0 <= i < |run.invocations| :: SaysItsRun(m.runId, run.invocations[i])
    ensures forall i | 0 <= i < |run.batches| :: run.batches[i].runId == m.runId
  {
    forall i | 0 <= i < |run.invocations| ensures SaysItsRun(m.runId, run.invocations[i]) {
      assert Publishable(m, run.invocations[i]);
    }
  }
}
