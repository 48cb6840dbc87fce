/**
Descriptive aggregation of a run's invocations by exact cohort: grouped by run, level,
workload, composition and cohort, each with statistics of its elapsed times and of
every phase that was measured. Means and medians are exact.
*/
module CohortAggregation {
  import opened Wrappers
  import opened Sequences
  import opened Ordering
  import opened DescriptiveStatistics
  import opened FixedSchedule
  import opened RunRecords
  import opened Grouping

  datatype PhaseAggregate = PhaseAggregate(name: PhaseName, statistics: Statistics)

  datatype Aggregate = Aggregate(
    runId: string, level: nat, family: Family, composition: Composition, cohort: Cohort,
    elapsed: Statistics, phases: seq<PhaseAggregate>)

  // ----- cohort keys -----

  function Digit(n: nat): char
    requires n < 10
  {
    '0' + n as char
  }

  function Decimal(n: nat): (r: string)
    ensures r != []
  {
    if n < 10 then [Digit(n)] else Decimal(n / 10) + [Digit(n % 10)]
  }

  lemma {:induction false} DecimalInjective(m: nat, n: nat)
    requires Decimal(m) == Decimal(n)
    ensures m == n
  {
    var s, t := Decimal(m), Decimal(n);
    assert s[|s| - 1] == t[|t| - 1];
    assert s[|s| - 1] == Digit(m % 10) && t[|t| - 1] == Digit(n % 10);
    if m >= 10 && n >= 10 {
      assert s[..|s| - 1] == Decimal(m / 10);
      assert t[..|t| - 1] == Decimal(n / 10);
      DecimalInjective(m / 10, n / 10);
    } else if m >= 10 || n >= 10 {
      assert false;
    }
  }

  function FamilyText(f: Family): string {
    match f
    case SameOrder => "SAME_ORDER_HOT_STREAM"
    case DifferentOrder => "DIFFERENT_ORDER_GENERAL_CONCURRENCY"
  }

  function CompositionText(c: Composition): string {
    match c
    case PreOcc => "PRE_OCC"
    case InPessimistic => "IN_PESSIMISTIC"
  }

  predicate Classified(r: Invocation) {
    r.evidence.Normal? && r.evidence.cohort.Some?
  }

  /** The group key as it is sorted: every part by its text, the level by its decimal digits. */
  function CohortKey(r: Invocation): Key
    requires Classified(r)
  {
    [Text(r.runId), Text(Decimal(r.level)), Text(FamilyText(r.family)), Text(CompositionText(r.composition)),
     Text(CohortLabel(r.evidence.cohort.value))]
  }

  function KeyOf(r: Invocation): Key {
    if Classified(r) then CohortKey(r) else []
  }

  predicate SameCohort(r: Invocation, q: Invocation) {
    && Classified(r) && Classified(q)
    && r.runId == q.runId && r.level == q.level && r.family == q.family && r.composition == q.composition
    && r.evidence.cohort == q.evidence.cohort
  }

  lemma TextsDiffer()
    ensures FamilyText(SameOrder) != FamilyText(DifferentOrder)
    ensures CompositionText(PreOcc) != CompositionText(InPessimistic)
    ensures CohortLabel(Accepted) != CohortLabel(AppendStaleWrite)
    ensures CohortLabel(Accepted) != CohortLabel(PrepareLockTimeout)
    ensures CohortLabel(AppendStaleWrite) != CohortLabel(PrepareLockTimeout)
  {
    assert FamilyText(SameOrder)[0] != FamilyText(DifferentOrder)[0];
    assert CompositionText(PreOcc)[0] != CompositionText(InPessimistic)[0];
    assert |CohortLabel(AppendStaleWrite)| != |CohortLabel(PrepareLockTimeout)|;
    assert |CohortLabel(Accepted)| != |CohortLabel(PrepareLockTimeout)|;
  }

  /** The sorted text keys tell the cohorts apart: no two cohorts are pooled. */
  lemma CohortKeyExact(r: Invocation, q: Invocation)
    requires Classified(r) && Classified(q)
    ensures CohortKey(r) == CohortKey(q) <==> SameCohort(r, q)
  {
    if CohortKey(r) == CohortKey(q) {
      var k, l := CohortKey(r), CohortKey(q);
      assert k[0].text == l[0].text && k[1].text == l[1].text && k[2].text == l[2].text
          && k[3].text == l[3].text && k[4].text == l[4].text;
      DecimalInjective(r.level, q.level);
      TextsDiffer();
    }
  }

  // ----- the aggregates -----

  function Keys(records: seq<Invocation>): seq<Key> {
    KeysOf(records, KeyOf)
  }

  function Group(records: seq<Invocation>, key: Key): seq<Invocation> {
    GroupOf(records, KeyOf, key)
  }

  function MeasuredValue(p: PhaseRecord, name: PhaseName): seq<real> {
    if p.name == name && p.state == Measured && p.elapsed.Some? then [p.elapsed.value as real] else []
  }

  function PhaseValuesIn(phases: seq<PhaseRecord>, name: PhaseName): seq<real> {
    FlatMap((p: PhaseRecord) => MeasuredValue(p, name), phases)
  }

  function ValuesOf(r: Invocation, name: PhaseName): seq<real> {
    if r.evidence.Normal? && r.evidence.phases.Some? then PhaseValuesIn(r.evidence.phases.value, name) else []
  }

  /** All measured values of one phase across a group. */
  function PhaseValues(group: seq<Invocation>, name: PhaseName): seq<real> {
    FlatMap((r: Invocation) => ValuesOf(r, name), group)
  }

  function DescribePhase(group: seq<Invocation>, name: PhaseName): seq<PhaseAggregate> {
    var values := PhaseValues(group, name);
    if values == [] then [] else [PhaseAggregate(name, Describe(values))]
  }

  function PhasesOf(group: seq<Invocation>, names: seq<PhaseName>): seq<PhaseAggregate> {
    FlatMap((name: PhaseName) => DescribePhase(group, name), names)
  }

  function Elapsed(group: seq<Invocation>): (r: seq<real>) {
    FlatMap((r: Invocation) => [r.elapsedNs as real], group)
  }

  function AggregateGroup(group: seq<Invocation>): Aggregate
    requires Describable(group)
  {
    var r := group[0];
    Aggregate(r.runId, r.level, r.family, r.composition, r.evidence.cohort.value,
              Describe(Elapsed(group)), PhasesOf(group, PhaseNames))
  }

  predicate AllClassified(records: seq<Invocation>) {
    forall i | 0 <= i < |records| :: Classified(records[i])
  }

  lemma AcceptableIsClassified(records: seq<Invocation>)
    requires Acceptable(records)
    ensures AllClassified(records)
  {
    forall i | 0 <= i < |records| ensures Classified(records[i]) { EvidenceIssuesIff(records[i]); }
  }

  lemma GroupShape(records: seq<Invocation>, key: Key)
    requires AllClassified(records) && key in Keys(records)
    ensures var group := Group(records, key);
            && group != [] && |Elapsed(group)| == |group|
            && forall i | 0 <= i < |group| :: group[i] in records && KeyOf(group[i]) == key && Classified(group[i])
  {
    var group := Group(records, key);
    var i :| 0 <= i < |records| && Keys(records)[i] == key;
    GroupMember(records, KeyOf, key, records[i]);
    assert records[i] in group;
    forall j | 0 <= j < |group| ensures group[j] in records && KeyOf(group[j]) == key && Classified(group[j]) {
      GroupMember(records, KeyOf, key, group[j]);
      assert group[j] in group;
    }
    FlatMapSingles((r: Invocation) => [r.elapsedNs as real], group);
  }

  function AggregateKey(records: seq<Invocation>, key: Key): Aggregate
    requires AllClassified(records) && key in Keys(records)
  {
    GroupShape(records, key);
    AggregateGroup(Group(records, key))
  }

  function AggregateKeys(records: seq<Invocation>, keys: seq<Key>): (r: seq<Aggregate>)
    requires AllClassified(records) && forall i | 0 <= i < |keys| :: keys[i] in Keys(records)
    ensures |r| == |keys|
  {
    seq(|keys|, i requires 0 <= i < |keys| => AggregateKey(records, keys[i]))
  }

  /** One aggregate per cohort by sorted key; an invocation with any evidence issue is refused. */
  function AggregateInvocations(records: seq<Invocation>): Option<seq<Aggregate>> {
    if !Acceptable(records) then None
    else
      AcceptableIsClassified(records);
      var keys := SortedKeys(Keys(records));
      assert forall i | 0 <= i < |keys| :: keys[i] in keys;
      Some(AggregateKeys(records, keys))
  }

  // ----- the dictionary form -----

  /** Refuse unsound records, group the others, then describe the groups by sorted key. */
  method ComputeAggregates(records: seq<Invocation>) returns (r: Option<seq<Aggregate>>)
    ensures r == AggregateInvocations(records)
  {
    var ok := CheckRecords(records);
    if !ok {
      return None;
    }
    AcceptableIsClassified(records);
    var groups, order := Collect(records, KeyOf);
    var keys := SortedKeys(order);
    AscendingUnique(keys, SortedKeys(Keys(records)));
    forall i | 0 <= i < |keys|
      ensures keys[i] in groups && keys[i] in Keys(records) && Describable(groups[keys[i]])
      ensures groups[keys[i]] == Group(records, keys[i])
    {
      assert keys[i] in keys;
      GroupShape(records, keys[i]);
    }
    var aggregates := DescribeGroups(groups, keys);
    DescribedKeys(groups, keys, records);
    r := Some(aggregates);
  }

  predicate Describable(group: seq<Invocation>) {
    group != [] && Classified(group[0]) && Elapsed(group) != []
  }

  predicate AllDescribable(groups: map<Key, seq<Invocation>>, keys: seq<Key>) {
    forall i | 0 <= i < |keys| :: keys[i] in groups && Describable(groups[keys[i]])
  }

  function DescribeAll(groups: map<Key, seq<Invocation>>, keys: seq<Key>): (r: seq<Aggregate>)
    requires AllDescribable(groups, keys)
    ensures |r| == |keys|
  {
    if keys == [] then []
    else DescribeAll(groups, keys[..|keys| - 1]) + [AggregateGroup(groups[keys[|keys| - 1]])]
  }

  lemma {:induction false} DescribedAt(groups: map<Key, seq<Invocation>>, keys: seq<Key>, i: nat)
    requires AllDescribable(groups, keys) && i < |keys|
    ensures DescribeAll(groups, keys)[i] == AggregateGroup(groups[keys[i]])
  {
    if i < |keys| - 1 { DescribedAt(groups, keys[..|keys| - 1], i); }
  }

  method DescribeGroups(groups: map<Key, seq<Invocation>>, keys: seq<Key>) returns (aggregates: seq<Aggregate>)
    requires AllDescribable(groups, keys)
    ensures aggregates == DescribeAll(groups, keys)
  {
    aggregates := [];
    for i := 0 to |keys|
      invariant aggregates == DescribeAll(groups, keys[..i])
    {
      assert keys[..i + 1][..i] == keys[..i];
      var aggregate := DescribeGroup(groups[keys[i]]);
      aggregates := aggregates + [aggregate];
    }
    assert keys[..|keys|] == keys;
  }

  lemma DescribedKeys(groups: map<Key, seq<Invocation>>, keys: seq<Key>, records: seq<Invocation>)
    requires AllClassified(records) && AllDescribable(groups, keys)
    requires forall i | 0 <= i < |keys| :: keys[i] in Keys(records) && groups[keys[i]] == Group(records, keys[i])
    ensures DescribeAll(groups, keys) == AggregateKeys(records, keys)
  {
    forall i | 0 <= i < |keys| ensures DescribeAll(groups, keys)[i] == AggregateKey(records, keys[i]) {
      DescribedAt(groups, keys, i);
    }
  }

  method DescribeGroup(group: seq<Invocation>) returns (aggregate: Aggregate)
    requires Describable(group)
    ensures aggregate == AggregateGroup(group)
  {
    var r := group[0];
    var phases := DescribePhases(group);
    aggregate := Aggregate(r.runId, r.level, r.family, r.composition, r.evidence.cohort.value,
                           Describe(Elapsed(group)), phases);
  }

  method DescribePhases(group: seq<Invocation>) returns (phases: seq<PhaseAggregate>)
    ensures phases == PhasesOf(group, PhaseNames)
  {
    phases := [];
    var names := PhaseNames;
    for i := 0 to |names|
      invariant phases == PhasesOf(group, names[..i])
    {
      PhasesNext(group, names, i);
      phases := phases + DescribePhase(group, names[i]);
    }
    assert names[..|names|] == names;
  }

  lemma {:induction false} PhasesNext(group: seq<Invocation>, names: seq<PhaseName>, i: nat)
    requires i < |names|
    ensures PhasesOf(group, names[..i + 1]) == PhasesOf(group, names[..i]) + DescribePhase(group, names[i])
  {
    assert names[..i + 1][..i] == names[..i];
  }

  // ----- conservation -----

  function CountOf(a: Aggregate): int { a.elapsed.count }

  lemma AggregateCounts(records: seq<Invocation>, key: Key)
    requires AllClassified(records) && key in Keys(records)
    ensures AggregateKey(records, key).elapsed.count == multiset(Keys(records))[key]
  {
    GroupShape(records, key);
    GroupSize(records, KeyOf, key);
  }

  lemma {:induction false} CountsAreSums(records: seq<Invocation>, keys: seq<Key>, aggregates: seq<Aggregate>)
    requires |aggregates| == |keys|
    requires forall i | 0 <= i < |keys| :: aggregates[i].elapsed.count == multiset(Keys(records))[keys[i]]
    ensures Sum(CountOf, aggregates) == SumCounts(keys, Keys(records))
  {
    if keys != [] {
      CountsAreSums(records, keys[..|keys| - 1], aggregates[..|keys| - 1]);
    }
  }

  /** The keys of the aggregates, sorted and without repetition. */
  function SortedCohorts(records: seq<Invocation>): (keys: seq<Key>)
    ensures NoDuplicates(keys)
    ensures forall i | 0 <= i < |keys| :: keys[i] in Keys(records)
    ensures forall i | 0 <= i < |records| :: KeyOf(records[i]) in keys
  {
    var keys := SortedKeys(Keys(records));
    AscendingDistinct(keys);
    assert forall i | 0 <= i < |keys| :: keys[i] in keys;
    assert forall i | 0 <= i < |records| :: Keys(records)[i] in Keys(records);
    keys
  }

  lemma AggregatesByCohort(records: seq<Invocation>)
    requires Acceptable(records)
    ensures AllClassified(records)
    ensures AggregateInvocations(records) == Some(AggregateKeys(records, SortedCohorts(records)))
  {
    AcceptableIsClassified(records);
  }

  /** The cohort counts add up to the number of records. */
  lemma AggregatesConserve(records: seq<Invocation>)
    requires Acceptable(records)
    ensures Sum(CountOf, AggregateInvocations(records).value) == |records|
  {
    AggregatesByCohort(records);
    CohortsConserve(records);
  }

  lemma CohortsConserve(records: seq<Invocation>)
    requires AllClassified(records)
    ensures Sum(CountOf, AggregateKeys(records, SortedCohorts(records))) == |records|
  {
    var keys := SortedCohorts(records);
    var aggregates := AggregateKeys(records, keys);
    forall i | 0 <= i < |keys| ensures aggregates[i].elapsed.count == multiset(Keys(records))[keys[i]] {
      AggregateCounts(records, keys[i]);
    }
    CountsAreSums(records, keys, aggregates);
    SumCountsTotal(keys, Keys(records));
  }

  predicate Describes(a: Aggregate, r: Invocation) {
    && Classified(r)
    && a.runId == r.runId && a.level == r.level && a.family == r.family && a.composition == r.composition
    && a.cohort == r.evidence.cohort.value
  }

  /** An aggregate describes exactly the records filed under its key. */
  lemma AggregateDescribes(records: seq<Invocation>, key: Key, r: Invocation)
    requires AllClassified(records) && key in Keys(records) && r in records
    ensures Describes(AggregateKey(records, key), r) <==> KeyOf(r) == key
  {
    GroupShape(records, key);
    var i :| 0 <= i < |records| && records[i] == r;
    CohortKeyExact(Group(records, key)[0], r);
  }

  /** Each record is described by exactly one aggregate: the cohorts partition the run. */
  lemma AggregatesPartition(records: seq<Invocation>, r: Invocation) returns (i: nat)
    requires Acceptable(records) && r in records
    ensures var all := AggregateInvocations(records).value;
            i < |all| && forall j | 0 <= j < |all| :: Describes(all[j], r) <==> j == i
  {
    AggregatesByCohort(records);
    i := CohortOf(records, r);
  }

  lemma CohortOf(records: seq<Invocation>, r: Invocation) returns (i: nat)
    requires AllClassified(records) && r in records
    ensures var all := AggregateKeys(records, SortedCohorts(records));
            i < |all| && forall j | 0 <= j < |all| :: Describes(all[j], r) <==> j == i
  {
    var keys := SortedCohorts(records);
    var n :| 0 <= n < |records| && records[n] == r;
    i :| 0 <= i < |keys| && keys[i] == KeyOf(r);
    forall j | 0 <= j < |keys| ensures Describes(AggregateKey(records, keys[j]), r) <==> j == i {
      AggregateDescribes(records, keys[j], r);
    }
  }

  // ----- phases -----

  /** A phase record is constructed with a duration exactly when it was measured. */
  predicate PhasesConstructed(r: Invocation) {
    r.evidence.Normal? && r.evidence.phases.Some? ==>
      forall i | 0 <= i < |r.evidence.phases.value| ::
        r.evidence.phases.value[i].state == Measured <==> r.evidence.phases.value[i].elapsed.Some?
  }

  lemma ValuesInPhases(phases: seq<PhaseRecord>, name: PhaseName, i: nat)
    requires i < |phases| && phases[i].name == name
    requires forall i, j | 0 <= i < j < |phases| :: phases[i].name != phases[j].name
    ensures PhaseValuesIn(phases, name) == MeasuredValue(phases[i], name)
  {
    var f := (p: PhaseRecord) => MeasuredValue(p, name);
    SplitAt(phases, i);
    FlatMapAround(f, phases[..i], phases[i], phases[i + 1..]);
    forall j | 0 <= j < i ensures f(phases[..i][j]) == [] { assert phases[j].name != phases[i].name; }
    FlatMapNone(f, phases[..i]);
    FlatMapNone(f, phases[i + 1..]);
  }

  lemma NamedPhase(phases: seq<PhaseRecord>, composition: Composition, cohort: Cohort, name: PhaseName) returns (i: nat)
    requires PhasesFollow(phases, composition, cohort)
    ensures i < |phases| && phases[i].name == name
  {
    NamesComplete(phases);
    PhaseNamesComplete(name);
    assert name in ToSet(Names(phases));
    i :| i < |phases| && Names(phases)[i] == name;
  }

  /** A sound record has one value of each phase its matrix marks as measured, and none of the others. */
  lemma SoundValues(r: Invocation, name: PhaseName)
    requires Sound(r) && PhasesConstructed(r)
    ensures |ValuesOf(r, name)| == if Matrix(r.composition, r.evidence.cohort.value, name) == Measured then 1 else 0
  {
    var phases := r.evidence.phases.value;
    var i := NamedPhase(phases, r.composition, r.evidence.cohort.value, name);
    ValuesInPhases(phases, name, i);
    assert phases[i].state == Matrix(r.composition, r.evidence.cohort.value, phases[i].name);
  }

  /** A group whose records all measured a phase, or all did not. */
  predicate Uniform(group: seq<Invocation>, name: PhaseName, measured: bool) {
    forall i | 0 <= i < |group| :: |ValuesOf(group[i], name)| == if measured then 1 else 0
  }

  lemma UniformValues(group: seq<Invocation>, name: PhaseName, measured: bool)
    requires Uniform(group, name, measured)
    ensures |PhaseValues(group, name)| == if measured then |group| else 0
  {
    var f := (r: Invocation) => ValuesOf(r, name);
    if measured {
      FlatMapSingles(f, group);
    } else {
      FlatMapNone(f, group);
    }
  }

  function MeasuredPhases(composition: Composition, cohort: Cohort, names: seq<PhaseName>): seq<PhaseName>
    requires HasMatrix(composition, cohort)
  {
    FlatMap((name: PhaseName) => if Matrix(composition, cohort, name) == Measured then [name] else [], names)
  }

  function PhaseAggregateNames(phases: seq<PhaseAggregate>): seq<PhaseName> {
    FlatMap((p: PhaseAggregate) => [p.name], phases)
  }

  lemma {:induction false} PhasesListed(group: seq<Invocation>, composition: Composition, cohort: Cohort, names: seq<PhaseName>)
    requires group != [] && HasMatrix(composition, cohort)
    requires forall name :: Uniform(group, name, Matrix(composition, cohort, name) == Measured)
    ensures PhaseAggregateNames(PhasesOf(group, names)) == MeasuredPhases(composition, cohort, names)
    ensures forall i | 0 <= i < |PhasesOf(group, names)| :: PhasesOf(group, names)[i].statistics.count == |group|
  {
    if names != [] {
      var n := |names| - 1;
      PhasesListed(group, composition, cohort, names[..n]);
      var measured := Matrix(composition, cohort, names[n]) == Measured;
      PhaseListed(group, names[n], measured);
      var last := DescribePhase(group, names[n]);
      assert PhasesOf(group, names) == PhasesOf(group, names[..n]) + last;
      FlatMapConcat((p: PhaseAggregate) => [p.name], PhasesOf(group, names[..n]), last);
    }
  }

  lemma PhaseListed(group: seq<Invocation>, name: PhaseName, measured: bool)
    requires group != [] && Uniform(group, name, measured)
    ensures PhaseAggregateNames(DescribePhase(group, name)) == if measured then [name] else []
    ensures forall i | 0 <= i < |DescribePhase(group, name)| :: DescribePhase(group, name)[i].statistics.count == |group|
  {
    UniformValues(group, name, measured);
    var last := DescribePhase(group, name);
    if last != [] { FlatMapOne((p: PhaseAggregate) => [p.name], last[0]); }
  }

  lemma GroupUniform(records: seq<Invocation>, key: Key, name: PhaseName)
    requires Acceptable(records) && forall i | 0 <= i < |records| :: PhasesConstructed(records[i])
    requires AllClassified(records) && key in Keys(records)
    ensures var group := Group(records, key);
            && group != [] && Classified(group[0])
            && HasMatrix(group[0].composition, group[0].evidence.cohort.value)
            && Uniform(group, name, Matrix(group[0].composition, group[0].evidence.cohort.value, name) == Measured)
  {
    GroupShape(records, key);
    var group := Group(records, key);
    forall i | 0 <= i < |group| ensures Sound(group[i]) && PhasesConstructed(group[i]) && SameCohort(group[0], group[i]) {
      EvidenceIssuesIff(group[i]);
      CohortKeyExact(group[0], group[i]);
    }
    SoundUniform(group, name);
  }

  lemma SoundUniform(group: seq<Invocation>, name: PhaseName)
    requires group != [] && Sound(group[0])
    requires forall i | 0 <= i < |group| :: Sound(group[i]) && PhasesConstructed(group[i]) && SameCohort(group[0], group[i])
    ensures Uniform(group, name, Matrix(group[0].composition, group[0].evidence.cohort.value, name) == Measured)
  {
    forall i | 0 <= i < |group|
      ensures |ValuesOf(group[i], name)|
           == if Matrix(group[0].composition, group[0].evidence.cohort.value, name) == Measured then 1 else 0
    {
      SoundValues(group[i], name);
    }
  }

  /** Each cohort lists exactly the phases its matrix marks as measured, each with the cohort's own count. */
  lemma AggregatePhases(records: seq<Invocation>, key: Key)
    requires Acceptable(records) && forall i | 0 <= i < |records| :: PhasesConstructed(records[i])
    requires AllClassified(records) && key in Keys(records)
    ensures var a := AggregateKey(records, key);
            && HasMatrix(a.composition, a.cohort)
            && PhaseAggregateNames(a.phases) == MeasuredPhases(a.composition, a.cohort, PhaseNames)
            && forall i | 0 <= i < |a.phases| :: a.phases[i].statistics.count == a.elapsed.count
  {
    var group := Group(records, key);
    forall name ensures group != [] && Classified(group[0])
                     && HasMatrix(group[0].composition, group[0].evidence.cohort.value)
                     && Uniform(group, name, Matrix(group[0].composition, group[0].evidence.cohort.value, name) == Measured) {
      GroupUniform(records, key, name);
    }
    GroupShape(records, key);
    GroupUniform(records, key, BusinessUow);
    PhasesListed(group, group[0].composition, group[0].evidence.cohort.value, PhaseNames);
  }

  // ----- record order is irrelevant -----

  lemma PhasePermutation(g: seq<Invocation>, h: seq<Invocation>, name: PhaseName)
    requires multiset(g) == multiset(h)
    ensures DescribePhase(g, name) == DescribePhase(h, name)
  {
    FlatMapPermutation((r: Invocation) => ValuesOf(r, name), g, h);
    PermutationLength(PhaseValues(g, name), PhaseValues(h, name));
    if PhaseValues(g, name) != [] {
      DescribePermutation(PhaseValues(g, name), PhaseValues(h, name));
    }
  }

  lemma {:induction false} PhasesPermutation(g: seq<Invocation>, h: seq<Invocation>, names: seq<PhaseName>)
    requires multiset(g) == multiset(h)
    ensures PhasesOf(g, names) == PhasesOf(h, names)
  {
    if names != [] {
      PhasesPermutation(g, h, names[..|names| - 1]);
      PhasePermutation(g, h, names[|names| - 1]);
    }
  }

  lemma GroupAggregatePermutation(g: seq<Invocation>, h: seq<Invocation>)
    requires multiset(g) == multiset(h) && Describable(g) && Describable(h)
    requires SameCohort(g[0], h[0])
    ensures AggregateGroup(g) == AggregateGroup(h)
  {
    FlatMapPermutation((r: Invocation) => [r.elapsedNs as real], g, h);
    DescribePermutation(Elapsed(g), Elapsed(h));
    PhasesPermutation(g, h, PhaseNames);
  }

  lemma KeyAggregatePermutation(s: seq<Invocation>, t: seq<Invocation>, key: Key)
    requires multiset(s) == multiset(t) && AllClassified(s) && AllClassified(t)
    requires key in Keys(s) && key in Keys(t)
    ensures AggregateKey(s, key) == AggregateKey(t, key)
  {
    GroupPermutation(s, t, KeyOf, key);
    GroupShape(s, key);
    GroupShape(t, key);
    CohortKeyExact(Group(s, key)[0], Group(t, key)[0]);
    GroupAggregatePermutation(Group(s, key), Group(t, key));
  }

  lemma AcceptablePermutation(s: seq<Invocation>, t: seq<Invocation>)
    requires multiset(s) == multiset(t) && Acceptable(s)
    ensures Acceptable(t)
  {
    forall i | 0 <= i < |t| ensures EvidenceIssues(t[i]) == [] {
      assert t[i] in multiset(t);
      assert t[i] in multiset(s);
    }
  }

  /** Listing the same records in another order, say by index, gives the identical aggregates. */
  lemma AggregatesPermutation(s: seq<Invocation>, t: seq<Invocation>)
    requires multiset(s) == multiset(t)
    ensures AggregateInvocations(s) == AggregateInvocations(t)
  {
    if Acceptable(s) {
      AcceptablePermutation(s, t);
      AggregatesByCohort(s);
      AggregatesByCohort(t);
      CohortsPermutation(s, t);
    } else if Acceptable(t) {
      AcceptablePermutation(t, s);
      assert false;
    }
  }

  lemma CohortsPermutation(s: seq<Invocation>, t: seq<Invocation>)
    requires multiset(s) == multiset(t) && AllClassified(s) && AllClassified(t)
    ensures AggregateKeys(s, SortedCohorts(s)) == AggregateKeys(t, SortedCohorts(t))
  {
    SameCohorts(s, t);
    var keys := SortedCohorts(s);
    forall i | 0 <= i < |keys| ensures AggregateKey(s, keys[i]) == AggregateKey(t, keys[i]) {
      KeyAggregatePermutation(s, t, keys[i]);
    }
  }

  lemma SameCohorts(s: seq<Invocation>, t: seq<Invocation>)
    requires multiset(s) == multiset(t)
    ensures SortedCohorts(s) == SortedCohorts(t)
  {
    forall k ensures k in Keys(s) <==> k in Keys(t) {
      if k in Keys(s) { KeysPermutation(s, t, KeyOf, k); }
      if k in Keys(t) { KeysPermutation(t, s, KeyOf, k); }
    }
    AscendingUnique(SortedKeys(Keys(s)), SortedKeys(Keys(t)));
  }
}
