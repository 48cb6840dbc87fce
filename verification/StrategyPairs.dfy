/**
Matched-pair aggregation of the sequential scenario: the samples of one surface and
batch under the two compositions form a pair, and each pair contributes its
IN-minus-PRE difference of elapsed times.
*/
module StrategyPairs {
  import opened Wrappers
  import opened Sequences
  import opened Ordering
  import opened DescriptiveStatistics
  import opened FixedSchedule
  import opened RunRecords
  import opened StrategySchedule
  import opened StrategyRun

  /** Samples are compared only within one run, surface and cohort. */
  datatype GroupKey = GroupKey(runId: string, surface: Surface, cohort: Cohort)

  datatype PairKey = PairKey(group: GroupKey, batch: nat)

  datatype PairError = InvalidSample | DuplicateComposition | IncompletePair

  /** The dictionary of pairs; order lists its keys as first inserted. */
  datatype Pairs = Pairs(of: map<PairKey, map<Composition, Sample>>, order: seq<PairKey>)

  predicate Usable(s: Sample) {
    s.evidence.Returned? && s.evidence.cohort.Some?
  }

  function KeyOf(s: Sample): PairKey
    requires Usable(s)
  {
    PairKey(GroupKey(s.runId, s.surface, s.evidence.cohort.value), s.batch)
  }

  function PairedUnder(p: Pairs, k: PairKey): map<Composition, Sample> {
    if k in p.of then p.of[k] else map[]
  }

  function AddSample(p: Pairs, s: Sample): Result<Pairs, PairError> {
    if s.scenario != Uncontended then Success(p)
    else if !Usable(s) then Failure(InvalidSample)
    else
      var k := KeyOf(s);
      if s.composition in PairedUnder(p, k) then Failure(DuplicateComposition)
      else Success(Pairs(p.of[k := PairedUnder(p, k)[s.composition := s]], if k in p.of then p.order else p.order + [k]))
  }

  function FormPairs(samples: seq<Sample>): Result<Pairs, PairError> {
    if samples == [] then Success(Pairs(map[], []))
    else
      var p :- FormPairs(samples[..|samples| - 1]);
      AddSample(p, samples[|samples| - 1])
  }

  predicate Complete(p: Pairs, k: PairKey) {
    k in p.of && PreOcc in p.of[k] && InPessimistic in p.of[k]
  }

  function Difference(p: Pairs, k: PairKey): int
    requires Complete(p, k)
  {
    p.of[k][InPessimistic].elapsedNs - p.of[k][PreOcc].elapsedNs
  }

  predicate AllComplete(p: Pairs, keys: seq<PairKey>) {
    forall i | 0 <= i < |keys| :: Complete(p, keys[i])
  }

  /** The differences of one group, in order of first appearance. */
  function Differences(p: Pairs, keys: seq<PairKey>, g: GroupKey): seq<int>
    requires AllComplete(p, keys)
  {
    if keys == [] then []
    else
      var n := |keys| - 1;
      Differences(p, keys[..n], g) + if keys[n].group == g then [Difference(p, keys[n])] else []
  }

  // ----- the aggregation loops -----

  method CollectPairs(samples: seq<Sample>) returns (r: Result<Pairs, PairError>)
    ensures r == FormPairs(samples)
  {
    var of: map<PairKey, map<Composition, Sample>>, order: seq<PairKey> := map[], [];
    for i := 0 to |samples|
      invariant FormPairs(samples[..i]) == Success(Pairs(of, order))
    {
      var s := samples[i];
      assert samples[..i + 1][..i] == samples[..i];
      if s.scenario == Uncontended {
        if !Usable(s) {
          FailurePersists(samples, i + 1);
          return Failure(InvalidSample);
        }
        var k := KeyOf(s);
        if k !in of {
          of := of[k := map[s.composition := s]];
          order := order + [k];
        } else if s.composition in of[k] {
          FailurePersists(samples, i + 1);
          return Failure(DuplicateComposition);
        } else {
          of := of[k := of[k][s.composition := s]];
        }
      }
    }
    assert samples[..|samples|] == samples;
    r := Success(Pairs(of, order));
  }

  lemma {:induction false} FailurePersists(samples: seq<Sample>, n: nat)
    requires n <= |samples| && FormPairs(samples[..n]).Failure?
    ensures FormPairs(samples) == FormPairs(samples[..n])
    decreases |samples|
  {
    if n < |samples| {
      var rest := samples[..|samples| - 1];
      assert rest[..n] == samples[..n];
      FailurePersists(rest, n);
    } else {
      assert samples[..n] == samples;
    }
  }

  function DifferencesIn(d: map<GroupKey, seq<int>>, g: GroupKey): seq<int> {
    if g in d then d[g] else []
  }

  ghost predicate AreDifferences(d: map<GroupKey, seq<int>>, p: Pairs, keys: seq<PairKey>)
    requires AllComplete(p, keys)
  {
    && (forall g :: DifferencesIn(d, g) == Differences(p, keys, g))
    && (forall g | g in d :: d[g] != [])
  }

  method CollectDifferences(p: Pairs) returns (r: Result<map<GroupKey, seq<int>>, PairError>, groups: seq<GroupKey>)
    ensures r.Success? <==> AllComplete(p, p.order)
    ensures r.Failure? ==> r.error == IncompletePair
    ensures r.Success? ==> AreDifferences(r.value, p, p.order) && forall g :: g in r.value <==> g in groups
  {
    var differences: map<GroupKey, seq<int>> := map[];
    groups := [];
    for i := 0 to |p.order|
      invariant AllComplete(p, p.order[..i])
      invariant AreDifferences(differences, p, p.order[..i])
      invariant forall g :: g in differences <==> g in groups
    {
      var k := p.order[i];
      if !Complete(p, k) {
        return Failure(IncompletePair), groups;
      }
      groups := if k.group in differences then groups else groups + [k.group];
      assert p.order[..i + 1] == p.order[..i] + [k];
      DifferencesNext(differences, p, p.order[..i], k);
      differences := differences[k.group := DifferencesIn(differences, k.group) + [Difference(p, k)]];
    }
    assert p.order[..|p.order|] == p.order;
    r := Success(differences);
  }

  lemma DifferencesNext(d: map<GroupKey, seq<int>>, p: Pairs, keys: seq<PairKey>, k: PairKey)
    requires AllComplete(p, keys) && AreDifferences(d, p, keys) && Complete(p, k)
    ensures AllComplete(p, keys + [k])
    ensures AreDifferences(d[k.group := DifferencesIn(d, k.group) + [Difference(p, k)]], p, keys + [k])
  {
    assert (keys + [k])[..|keys|] == keys;
    var next := d[k.group := DifferencesIn(d, k.group) + [Difference(p, k)]];
    forall g ensures DifferencesIn(next, g) == Differences(p, keys + [k], g) {
      assert DifferencesIn(d, g) == Differences(p, keys, g);
      assert DifferencesIn(next, g) == DifferencesIn(d, g) + if k.group == g then [Difference(p, k)] else [];
    }
  }

  // ----- the report -----

  /** One line of the report; the mean and the median are exact. */
  datatype PairedDifference = PairedDifference(group: GroupKey, count: nat, mean: real, median: real)

  function Reals(values: seq<int>): (r: seq<real>)
    ensures |r| == |values| && forall i | 0 <= i < |r| :: r[i] == values[i] as real
  {
    seq(|values|, i requires 0 <= i < |values| => values[i] as real)
  }

  function Described(g: GroupKey, values: seq<int>): PairedDifference
    requires values != []
  {
    var s := Describe(Reals(values));
    PairedDifference(g, |values|, s.mean, s.median)
  }

  function SurfaceLabel(surface: Surface): string {
    match surface
    case FrozenBaseline => "FROZEN_BASELINE"
    case CurrentUnmeasured => "CURRENT_UNMEASURED"
    case CurrentMeasured => "CURRENT_MEASURED"
  }

  /** Groups are reported by the text of their parts. */
  function SortKey(g: GroupKey): Key {
    [Text(g.runId), Text(SurfaceLabel(g.surface)), Text(CohortLabel(g.cohort))]
  }

  lemma SortKeyExact(g: GroupKey, h: GroupKey)
    requires SortKey(g) == SortKey(h)
    ensures g == h
  {
    assert SortKey(g)[0] == SortKey(h)[0] && SortKey(g)[1] == SortKey(h)[1] && SortKey(g)[2] == SortKey(h)[2];
    assert SurfaceLabel(g.surface)[0] == SurfaceLabel(h.surface)[0] && |SurfaceLabel(g.surface)| == |SurfaceLabel(h.surface)|;
    assert |CohortLabel(g.cohort)| == |CohortLabel(h.cohort)|;
  }

  function SortKeys(groups: seq<GroupKey>): (r: seq<Key>)
    ensures |r| == |groups| && forall i | 0 <= i < |r| :: r[i] == SortKey(groups[i])
  {
    seq(|groups|, i requires 0 <= i < |groups| => SortKey(groups[i]))
  }

  predicate ReportedInOrder(report: seq<PairedDifference>) {
    forall i, j | 0 <= i < j < |report| :: KeyLess(SortKey(report[i].group), SortKey(report[j].group))
  }

  /** One line for each group that has pairs, describing all their differences, in sorted order. */
  ghost predicate IsReport(report: seq<PairedDifference>, p: Pairs, keys: seq<PairKey>)
    requires AllComplete(p, keys)
  {
    && ReportedInOrder(report)
    && (forall i | 0 <= i < |report| ::
          var values := Differences(p, keys, report[i].group);
          values != [] && report[i] == Described(report[i].group, values))
    && (forall g | Differences(p, keys, g) != [] :: exists i | 0 <= i < |report| :: report[i].group == g)
  }

  /** The group with a given sort key. */
  method FindGroup(groups: seq<GroupKey>, key: Key, ghost d: map<GroupKey, seq<int>>) returns (g: GroupKey)
    requires key in SortKeys(groups) && forall i | 0 <= i < |groups| :: groups[i] in d && d[groups[i]] != []
    ensures SortKey(g) == key && g in d && d[g] != []
  {
    for i := 0 to |groups|
      invariant forall j | 0 <= j < i :: SortKey(groups[j]) != key
    {
      if SortKey(groups[i]) == key {
        return groups[i];
      }
    }
    assert false;
  }

  /** The lines of the first n keys. */
  ghost predicate Reports(report: seq<PairedDifference>, keys: seq<Key>, d: map<GroupKey, seq<int>>) {
    && |report| == |keys|
    && forall i | 0 <= i < |keys| ::
         && SortKey(report[i].group) == keys[i] && report[i].group in d && d[report[i].group] != []
         && report[i] == Described(report[i].group, d[report[i].group])
  }

  lemma ReportsNext(report: seq<PairedDifference>, keys: seq<Key>, key: Key, d: map<GroupKey, seq<int>>, g: GroupKey)
    requires Reports(report, keys, d) && g in d && d[g] != [] && SortKey(g) == key
    ensures Reports(report + [Described(g, d[g])], keys + [key], d)
  {
  }

  lemma ReportsAt(report: seq<PairedDifference>, keys: seq<Key>, i: nat, d: map<GroupKey, seq<int>>, g: GroupKey)
    requires i < |keys| && Reports(report, keys[..i], d) && g in d && d[g] != [] && SortKey(g) == keys[i]
    ensures Reports(report + [Described(g, d[g])], keys[..i + 1], d)
  {
    ReportsNext(report, keys[..i], keys[i], d, g);
    assert keys[..i + 1] == keys[..i] + [keys[i]];
  }

  method ReportGroups(d: map<GroupKey, seq<int>>, groups: seq<GroupKey>, keys: seq<Key>)
    returns (report: seq<PairedDifference>)
    requires forall i | 0 <= i < |groups| :: groups[i] in d && d[groups[i]] != []
    requires forall i | 0 <= i < |keys| :: keys[i] in SortKeys(groups)
    ensures Reports(report, keys, d)
  {
    report := [];
    for i := 0 to |keys|
      invariant Reports(report, keys[..i], d)
    {
      var g := FindGroup(groups, keys[i], d);
      ReportsAt(report, keys, i, d, g);
      report := report + [Described(g, d[g])];
    }
    assert keys[..|keys|] == keys;
  }

  lemma KeyListed(groups: seq<GroupKey>, g: GroupKey)
    requires g in groups
    ensures SortKey(g) in SortedKeys(SortKeys(groups))
  {
    var j :| 0 <= j < |groups| && groups[j] == g;
    assert SortKeys(groups)[j] == SortKey(g);
  }

  lemma LineWithKey(report: seq<PairedDifference>, keys: seq<Key>, d: map<GroupKey, seq<int>>, key: Key) returns (i: nat)
    requires Reports(report, keys, d) && key in keys
    ensures i < |report| && SortKey(report[i].group) == key
  {
    i :| 0 <= i < |keys| && keys[i] == key;
  }

  lemma ReportsAll(report: seq<PairedDifference>, groups: seq<GroupKey>, d: map<GroupKey, seq<int>>, g: GroupKey)
    requires Reports(report, SortedKeys(SortKeys(groups)), d) && g in groups
    ensures exists i | 0 <= i < |report| :: report[i].group == g
  {
    KeyListed(groups, g);
    var i := LineWithKey(report, SortedKeys(SortKeys(groups)), d, SortKey(g));
    SortKeyExact(report[i].group, g);
  }

  lemma ReportsDifferences(report: seq<PairedDifference>, groups: seq<GroupKey>, d: map<GroupKey, seq<int>>,
                           p: Pairs, keys: seq<PairKey>)
    requires AllComplete(p, keys) && AreDifferences(d, p, keys) && forall g :: g in d <==> g in groups
    requires Reports(report, SortedKeys(SortKeys(groups)), d)
    ensures IsReport(report, p, keys)
  {
    forall i | 0 <= i < |report|
      ensures var values := Differences(p, keys, report[i].group);
              values != [] && report[i] == Described(report[i].group, values)
    {
      assert DifferencesIn(d, report[i].group) == Differences(p, keys, report[i].group);
    }
    forall g | Differences(p, keys, g) != [] ensures exists i | 0 <= i < |report| :: report[i].group == g {
      assert DifferencesIn(d, g) == Differences(p, keys, g);
      ReportsAll(report, groups, d, g);
    }
  }

  /** The paired report, or the first reason why the samples do not pair up. */
  method AggregatePairedDifferences(samples: seq<Sample>) returns (r: Result<seq<PairedDifference>, PairError>)
    ensures r.Success? <==> FormPairs(samples).Success? && AllComplete(FormPairs(samples).value, FormPairs(samples).value.order)
    ensures r.Failure? ==> r.error == if FormPairs(samples).Failure? then FormPairs(samples).error else IncompletePair
    ensures r.Success? ==> var p := FormPairs(samples).value; IsReport(r.value, p, p.order)
  {
    var formed := CollectPairs(samples);
    if formed.Failure? {
      return Failure(formed.error);
    }
    var differences, groups := CollectDifferences(formed.value);
    if differences.Failure? {
      return Failure(differences.error);
    }
    var keys := SortedKeys(SortKeys(groups));
    assert forall i | 0 <= i < |keys| :: keys[i] in keys;
    var report := ReportGroups(differences.value, groups, keys);
    ReportsDifferences(report, groups, differences.value, formed.value, formed.value.order);
    r := Success(report);
  }

  lemma {:induction false} TotalOfReals(values: seq<int>)
    ensures Total(Reals(values)) == Sum((d: int) => d, values) as real
  {
    if values != [] {
      var n := |values| - 1;
      TotalOfReals(values[..n]);
      assert Reals(values)[..n] == Reals(values[..n]);
    }
  }

  /** The mean is the sum of the differences over their number. */
  lemma DescribedMean(g: GroupKey, values: seq<int>)
    requires values != []
    ensures var line := Described(g, values);
            line.count == |values| && line.mean == Sum((d: int) => d, values) as real / |values| as real
  {
    TotalOfReals(values);
  }

  /** The median lies half-way between the two middle differences. */
  lemma DescribedMedian(g: GroupKey, values: seq<int>)
    requires values != []
    ensures IsMiddle(Reals(values), Described(g, values).median)
  {
    DescribeIs(Reals(values));
  }

  predicate Between(x: real, values: seq<int>) {
    && (exists i | 0 <= i < |values| :: values[i] as real <= x)
    && (exists i | 0 <= i < |values| :: x <= values[i] as real)
  }

  lemma BetweenExtremes(x: real, values: seq<int>)
    requires values != [] && Describe(Reals(values)).minimum <= x <= Describe(Reals(values)).maximum
    ensures Between(x, values)
  {
    var reals, s := Reals(values), Describe(Reals(values));
    var i :| 0 <= i < |reals| && reals[i] == s.minimum;
    var j :| 0 <= j < |reals| && reals[j] == s.maximum;
    assert values[i] as real <= x <= values[j] as real;
  }

  /** Mean and median each lie between two of the differences. */
  lemma DescribedBetween(g: GroupKey, values: seq<int>)
    requires values != []
    ensures Between(Described(g, values).mean, values) && Between(Described(g, values).median, values)
  {
    DescribeOrdered(Reals(values));
    BetweenExtremes(Described(g, values).mean, values);
    BetweenExtremes(Described(g, values).median, values);
  }

  lemma {:induction false} GroupOccurs(p: Pairs, keys: seq<PairKey>, g: GroupKey) returns (i: nat)
    requires AllComplete(p, keys) && Differences(p, keys, g) != []
    ensures i < |keys| && keys[i].group == g
  {
    var n := |keys| - 1;
    if keys[n].group == g {
      i := n;
    } else {
      assert Differences(p, keys, g) == Differences(p, keys[..n], g);
      i := GroupOccurs(p, keys[..n], g);
    }
  }

  // ----- what the pairs hold -----

  predicate Holds(p: Pairs, k: PairKey, c: Composition) {
    k in p.of && c in p.of[k]
  }

  predicate Contributes(s: Sample, k: PairKey, c: Composition) {
    s.scenario == Uncontended && Usable(s) && KeyOf(s) == k && s.composition == c
  }

  lemma {:induction false} PairsHold(samples: seq<Sample>, k: PairKey, c: Composition)
    requires FormPairs(samples).Success?
    ensures Holds(FormPairs(samples).value, k, c) <==> exists i | 0 <= i < |samples| :: Contributes(samples[i], k, c)
  {
    if samples != [] {
      var n := |samples| - 1;
      PairsHold(samples[..n], k, c);
      if exists i | 0 <= i < |samples| :: Contributes(samples[i], k, c) {
        var i :| 0 <= i < |samples| && Contributes(samples[i], k, c);
        if i < n { assert Contributes(samples[..n][i], k, c); }
      }
      if exists i | 0 <= i < n :: Contributes(samples[..n][i], k, c) {
        var i :| 0 <= i < n && Contributes(samples[..n][i], k, c);
        assert Contributes(samples[i], k, c);
      }
    }
  }

  predicate OrderOk(p: Pairs) {
    && NoDuplicates(p.order)
    && (forall i | 0 <= i < |p.order| :: p.order[i] in p.of && (Holds(p, p.order[i], PreOcc) || Holds(p, p.order[i], InPessimistic)))
    && (forall k | k in p.of :: k in p.order)
  }

  lemma {:induction false} PairsOrdered(samples: seq<Sample>)
    requires FormPairs(samples).Success?
    ensures OrderOk(FormPairs(samples).value)
  {
    if samples != [] {
      var n := |samples| - 1;
      PairsOrdered(samples[..n]);
      AddOrdered(FormPairs(samples[..n]).value, samples[n]);
    }
  }

  lemma AddOrdered(p: Pairs, s: Sample)
    requires OrderOk(p) && AddSample(p, s).Success?
    ensures OrderOk(AddSample(p, s).value)
  {
    if s.scenario == Uncontended {
      var q, k := AddSample(p, s).value, KeyOf(s);
      assert Holds(q, k, s.composition);
      forall i | 0 <= i < |q.order|
        ensures q.order[i] in q.of && (Holds(q, q.order[i], PreOcc) || Holds(q, q.order[i], InPessimistic))
      {
        if q.order[i] == k {
          assert s.composition == PreOcc || s.composition == InPessimistic;
        } else {
          assert i < |p.order| && p.order[i] == q.order[i];
          assert Holds(p, p.order[i], PreOcc) ==> Holds(q, q.order[i], PreOcc);
        }
      }
      forall x | x in q.of ensures x in q.order {
        if x == k && k !in p.of { assert q.order[|p.order|] == k; }
      }
    }
  }

  /** No sample is refused when the sequential ones are usable and no two claim the same place. */
  predicate Pairable(samples: seq<Sample>) {
    && (forall i | 0 <= i < |samples| && samples[i].scenario == Uncontended :: Usable(samples[i]))
    && (forall i, j | 0 <= i < j < |samples| && samples[i].scenario == samples[j].scenario == Uncontended
                      && Usable(samples[i]) && Usable(samples[j]) ::
          KeyOf(samples[i]) != KeyOf(samples[j]) || samples[i].composition != samples[j].composition)
  }

  lemma {:induction false} PairableForms(samples: seq<Sample>)
    requires Pairable(samples)
    ensures FormPairs(samples).Success?
  {
    if samples != [] {
      var n := |samples| - 1;
      PairableForms(samples[..n]);
      var s := samples[n];
      if s.scenario == Uncontended {
        var k := KeyOf(s);
        PairsHold(samples[..n], k, s.composition);
        forall i | 0 <= i < n ensures !Contributes(samples[..n][i], k, s.composition) {
          assert samples[..n][i] == samples[i];
        }
      }
    }
  }

  // ----- conservation -----

  function WeightAt(f: Sample -> int, p: Pairs, g: GroupKey, c: Composition, k: PairKey): int {
    if k.group == g && Holds(p, k, c) then f(p.of[k][c]) else 0
  }

  function PairWeight(f: Sample -> int, p: Pairs, keys: seq<PairKey>, g: GroupKey, c: Composition): int {
    Sum((k: PairKey) => WeightAt(f, p, g, c, k), keys)
  }

  function WeightOf(f: Sample -> int, g: GroupKey, c: Composition, s: Sample): int {
    if s.scenario == Uncontended && Usable(s) && KeyOf(s).group == g && s.composition == c then f(s) else 0
  }

  function SampleWeight(f: Sample -> int, samples: seq<Sample>, g: GroupKey, c: Composition): int {
    Sum((s: Sample) => WeightOf(f, g, c, s), samples)
  }

  /** Changing what is counted at one key changes the sum over distinct keys by that much. */
  lemma {:induction false} SumChange<T>(before: T -> int, after: T -> int, keys: seq<T>, k: T)
    requires NoDuplicates(keys)
    requires forall x :: x != k ==> before(x) == after(x)
    ensures Sum(after, keys) == Sum(before, keys) + if k in keys then after(k) - before(k) else 0
  {
    if keys != [] {
      var n := |keys| - 1;
      SumChange(before, after, keys[..n], k);
      assert keys == keys[..n] + [keys[n]];
    }
  }

  lemma SumOne<T>(f: T -> int, keys: seq<T>, k: T)
    ensures Sum(f, keys + [k]) == Sum(f, keys) + f(k)
  {
    assert (keys + [k])[..|keys|] == keys;
  }

  lemma AddWeighs(f: Sample -> int, p: Pairs, s: Sample, g: GroupKey, c: Composition)
    requires s.scenario == Uncontended && AddSample(p, s).Success?
    ensures var q, k := AddSample(p, s).value, KeyOf(s);
            WeightAt(f, q, g, c, k) == WeightAt(f, p, g, c, k) + WeightOf(f, g, c, s)
  {
  }

  lemma AddConserves(f: Sample -> int, p: Pairs, s: Sample, g: GroupKey, c: Composition)
    requires OrderOk(p) && AddSample(p, s).Success?
    ensures var q := AddSample(p, s).value;
            PairWeight(f, q, q.order, g, c) == PairWeight(f, p, p.order, g, c) + WeightOf(f, g, c, s)
  {
    if s.scenario == Uncontended {
      var q, k := AddSample(p, s).value, KeyOf(s);
      var before, after := (x: PairKey) => WeightAt(f, p, g, c, x), (x: PairKey) => WeightAt(f, q, g, c, x);
      forall x | x != k ensures before(x) == after(x) { }
      AddWeighs(f, p, s, g, c);
      SumChange(before, after, p.order, k);
      if k !in p.of {
        SumOne(after, p.order, k);
        assert k !in p.order;
      }
    }
  }

  lemma {:induction false} PairsConserve(f: Sample -> int, samples: seq<Sample>, g: GroupKey, c: Composition)
    requires FormPairs(samples).Success?
    ensures var p := FormPairs(samples).value;
            PairWeight(f, p, p.order, g, c) == SampleWeight(f, samples, g, c)
  {
    if samples != [] {
      var n := |samples| - 1;
      PairsConserve(f, samples[..n], g, c);
      PairsOrdered(samples[..n]);
      AddConserves(f, FormPairs(samples[..n]).value, samples[n], g, c);
    }
  }

  function ElapsedOf(s: Sample): int { s.elapsedNs }

  function One(s: Sample): int { 1 }

  lemma {:induction false} DifferencesWeigh(p: Pairs, keys: seq<PairKey>, g: GroupKey)
    requires AllComplete(p, keys)
    ensures Sum((d: int) => d, Differences(p, keys, g))
         == PairWeight(ElapsedOf, p, keys, g, InPessimistic) - PairWeight(ElapsedOf, p, keys, g, PreOcc)
    ensures |Differences(p, keys, g)| == PairWeight(One, p, keys, g, PreOcc) == PairWeight(One, p, keys, g, InPessimistic)
  {
    if keys != [] {
      var n := |keys| - 1;
      DifferencesWeigh(p, keys[..n], g);
      var k := keys[n];
      assert Complete(p, k);
      assert WeightAt(One, p, g, PreOcc, k) == WeightAt(One, p, g, InPessimistic, k) == if k.group == g then 1 else 0;
      if k.group == g {
        assert WeightAt(ElapsedOf, p, g, InPessimistic, k) - WeightAt(ElapsedOf, p, g, PreOcc, k) == Difference(p, k);
        SumOne((d: int) => d, Differences(p, keys[..n], g), Difference(p, k));
      } else {
        assert Differences(p, keys, g) == Differences(p, keys[..n], g);
      }
    }
  }

  /**
   Whenever the aggregation succeeds, a group's differences add up to its IN total minus its
   PRE total, and there are as many of them as samples of either composition.
   */
  lemma DifferencesConserve(samples: seq<Sample>, g: GroupKey)
    requires FormPairs(samples).Success? && AllComplete(FormPairs(samples).value, FormPairs(samples).value.order)
    ensures var p := FormPairs(samples).value;
            && Sum((d: int) => d, Differences(p, p.order, g))
               == SampleWeight(ElapsedOf, samples, g, InPessimistic) - SampleWeight(ElapsedOf, samples, g, PreOcc)
            && |Differences(p, p.order, g)| == SampleWeight(One, samples, g, PreOcc) == SampleWeight(One, samples, g, InPessimistic)
  {
    var p := FormPairs(samples).value;
    DifferencesWeigh(p, p.order, g);
    PairsConserve(ElapsedOf, samples, g, PreOcc);
    PairsConserve(ElapsedOf, samples, g, InPessimistic);
    PairsConserve(One, samples, g, PreOcc);
    PairsConserve(One, samples, g, InPessimistic);
  }

  /**
   Each reported mean is the group's IN total minus its PRE total, over the reported number of
   pairs; and that number is the number of its samples of either composition.
   */
  lemma ReportConserves(samples: seq<Sample>, report: seq<PairedDifference>, i: nat)
    requires FormPairs(samples).Success? && AllComplete(FormPairs(samples).value, FormPairs(samples).value.order)
    requires IsReport(report, FormPairs(samples).value, FormPairs(samples).value.order) && i < |report|
    ensures var g := report[i].group;
            && report[i].count > 0
            && report[i].mean
               == (SampleWeight(ElapsedOf, samples, g, InPessimistic) - SampleWeight(ElapsedOf, samples, g, PreOcc)) as real
                  / report[i].count as real
            && report[i].count == SampleWeight(One, samples, g, PreOcc) == SampleWeight(One, samples, g, InPessimistic)
  {
    var p, g := FormPairs(samples).value, report[i].group;
    DifferencesConserve(samples, g);
    DescribedMean(g, Differences(p, p.order, g));
  }
}
