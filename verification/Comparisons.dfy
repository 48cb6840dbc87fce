/** Comparisons of the A, B and C summaries of one block/permutation unit. */
module Comparisons {
  import opened Wrappers
  import opened Ordering
  import opened Population
  import opened Batches

  /** The four estimates in the order they are emitted; only the last is secondary. */
  datatype ComparisonKind = EndToEndBA | CompositionLap | EndToEndCA | TotalCB

  datatype BatchComparison = BatchComparison(
    unit: Key, kind: ComparisonKind, estimateNs: int, referenceNs: int, relativePercent: real)

  type Row = map<Surface, BatchSummary>

  function AddSummary(units: map<Key, Row>, summary: BatchSummary): Result<map<Key, Row>, BatchError> {
    match ParseSurface(summary.surface)
    case None => Failure(UnknownSurfaceName)
    case Some(surface) =>
      var row: Row := if summary.unit in units then units[summary.unit] else map[];
      if surface in row then Failure(DuplicateSurface(summary.unit))
      else Success(units[summary.unit := row[surface := summary]])
  }

  function UnitRows(summaries: seq<BatchSummary>): Result<map<Key, Row>, BatchError> {
    if summaries == [] then Success(map[])
    else
      var units :- UnitRows(summaries[..|summaries| - 1]);
      AddSummary(units, summaries[|summaries| - 1])
  }

  function UnitKeys(summaries: seq<BatchSummary>): seq<Key> {
    seq(|summaries|, i requires 0 <= i < |summaries| => summaries[i].unit)
  }

  function Estimate(unit: Key, kind: ComparisonKind, estimateNs: int, referenceNs: int): BatchComparison
    requires referenceNs > 0
  {
    BatchComparison(unit, kind, estimateNs, referenceNs, estimateNs as real / referenceNs as real * 100.0)
  }

  function CompareUnit(unit: Key, row: Row): Result<seq<BatchComparison>, BatchError> {
    if row.Keys != {A, B, C} then Failure(IncompleteUnit(unit))
    else
      var (a, b, c) := (row[A], row[B], row[C]);
      if c.compositionMedian.None? then Failure(MissingCompositionMedian)
      else if a.totalMedian <= 0 then Failure(ReferenceNotPositive)
      else
        Success([
                  Estimate(unit, EndToEndBA, b.totalMedian - a.totalMedian, a.totalMedian),
                  Estimate(unit, CompositionLap, c.compositionMedian.value, a.totalMedian),
                  Estimate(unit, EndToEndCA, c.totalMedian - a.totalMedian, a.totalMedian),
                  Estimate(unit, TotalCB, c.totalMedian - b.totalMedian, a.totalMedian)])
  }

  function CompareAll(keys: seq<Key>, units: map<Key, Row>): Result<seq<BatchComparison>, BatchError>
    requires forall i | 0 <= i < |keys| :: keys[i] in units
  {
    if keys == [] then Success([])
    else
      var n := |keys| - 1;
      var earlier :- CompareAll(keys[..n], units);
      var last :- CompareUnit(keys[n], units[keys[n]]);
      Success(earlier + last)
  }

  lemma {:induction false} UnitRowsKeys(summaries: seq<BatchSummary>)
    requires UnitRows(summaries).Success?
    ensures forall k :: k in UnitRows(summaries).value <==> k in UnitKeys(summaries)
  {
    if summaries != [] {
      var n := |summaries| - 1;
      UnitRowsKeys(summaries[..n]);
      assert UnitKeys(summaries) == UnitKeys(summaries[..n]) + [summaries[n].unit];
    }
  }

  function SortedUnits(summaries: seq<BatchSummary>): seq<Key> {
    SortedKeys(UnitKeys(summaries))
  }

  function BatchComparisons(summaries: seq<BatchSummary>): Result<seq<BatchComparison>, BatchError> {
    var units :- UnitRows(summaries);
    UnitRowsKeys(summaries);
    CompareAll(SortedUnits(summaries), units)
  }

  lemma {:induction false} RowsFailurePersists(summaries: seq<BatchSummary>, n: nat)
    requires n <= |summaries| && UnitRows(summaries[..n]).Failure?
    ensures UnitRows(summaries) == UnitRows(summaries[..n])
    decreases |summaries|
  {
    if n == |summaries| {
      assert summaries[..n] == summaries;
    } else {
      assert summaries[..|summaries| - 1][..n] == summaries[..n];
      RowsFailurePersists(summaries[..|summaries| - 1], n);
    }
  }

  lemma {:induction false} CompareFailurePersists(keys: seq<Key>, units: map<Key, Row>, n: nat)
    requires forall i | 0 <= i < |keys| :: keys[i] in units
    requires n <= |keys| && CompareAll(keys[..n], units).Failure?
    ensures CompareAll(keys, units) == CompareAll(keys[..n], units)
    decreases |keys|
  {
    if n == |keys| {
      assert keys[..n] == keys;
    } else {
      assert keys[..|keys| - 1][..n] == keys[..n];
      CompareFailurePersists(keys[..|keys| - 1], units, n);
    }
  }

  method GroupSummaries(summaries: seq<BatchSummary>) returns (r: Result<map<Key, Row>, BatchError>, order: seq<Key>)
    ensures r == UnitRows(summaries)
    ensures r.Success? ==> forall k :: k in order <==> k in r.value
  {
    var units: map<Key, Row> := map[];
    order := [];
    for i := 0 to |summaries|
      invariant UnitRows(summaries[..i]) == Success(units)
      invariant forall k :: k in order <==> k in units
    {
      assert summaries[..i + 1][..i] == summaries[..i];
      var added := AddSummary(units, summaries[i]);
      if added.Failure? {
        RowsFailurePersists(summaries, i + 1);
        return added, order;
      }
      if summaries[i].unit !in units {
        order := order + [summaries[i].unit];
      }
      units := added.value;
    }
    assert summaries[..|summaries|] == summaries;
    r := Success(units);
  }

  method ComputeBatchComparisons(summaries: seq<BatchSummary>) returns (r: Result<seq<BatchComparison>, BatchError>)
    ensures r == BatchComparisons(summaries)
  {
    var units, order := GroupSummaries(summaries);
    if units.Failure? {
      return Failure(units.error);
    }
    UnitRowsKeys(summaries);
    var keys := SortedKeys(order);
    AscendingUnique(keys, SortedUnits(summaries));
    assert forall i | 0 <= i < |keys| :: keys[i] in keys;
    r := CompareUnits(keys, units.value);
  }

  method CompareUnits(keys: seq<Key>, units: map<Key, Row>) returns (r: Result<seq<BatchComparison>, BatchError>)
    requires forall i | 0 <= i < |keys| :: keys[i] in units
    ensures r == CompareAll(keys, units)
  {
    var comparisons := [];
    for i := 0 to |keys|
      invariant CompareAll(keys[..i], units) == Success(comparisons)
    {
      assert keys[..i + 1][..i] == keys[..i];
      var compared := CompareUnit(keys[i], units[keys[i]]);
      if compared.Failure? {
        CompareFailurePersists(keys, units, i + 1);
        return Failure(compared.error);
      }
      comparisons := comparisons + compared.value;
    }
    assert keys[..|keys|] == keys;
    r := Success(comparisons);
  }
}
