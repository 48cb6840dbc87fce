/**
The fixed bounded-concurrency schedule: for every worker level in shuffled order,
four cells (two workloads, two compositions each), and for every cell its warmup
and then its recorded batches. The level order, the retained levels and the batch
counts are parameters; the shuffle is an arbitrary permutation.
*/
module FixedSchedule {
  import opened Sequences

  datatype Family = SameOrder | DifferentOrder

  datatype Composition = PreOcc | InPessimistic

  datatype Cell = Cell(
    index: nat, levelPosition: nat, workloadPosition: nat, compositionPosition: nat,
    level: nat, family: Family, composition: Composition)

  datatype BatchPlan = BatchPlan(planIndex: nat, cell: Cell, batchIndex: nat, recorded: bool, rotation: nat)

  datatype Schedule = Schedule(cells: seq<Cell>, batches: seq<BatchPlan>)

  /** order is the shuffled form of the retained levels. */
  datatype Design = Design(retained: seq<nat>, order: seq<nat>, warmups: nat, recorded: nat)

  predicate Legal(d: Design) {
    && multiset(d.order) == multiset(d.retained)
    && NoDuplicates(d.order)
    && forall i | 0 <= i < |d.order| :: d.order[i] > 0
  }

  // ----- the schedule in closed form -----

  function FamilyAt(levelPosition: nat, workloadPosition: nat): Family {
    if (levelPosition + workloadPosition) % 2 == 0 then SameOrder else DifferentOrder
  }

  function CompositionAt(workloadPosition: nat, compositionPosition: nat): Composition {
    if (workloadPosition + compositionPosition) % 2 == 0 then PreOcc else InPessimistic
  }

  function CellAt(d: Design, k: nat): Cell
    requires k < 4 * |d.order|
  {
    var level, workload, composition := k / 4, k / 2 % 2, k % 2;
    Cell(k, level, workload, composition, d.order[level],
         FamilyAt(level, workload), CompositionAt(workload, composition))
  }

  function CellsUpTo(d: Design, n: nat): seq<Cell>
    requires n <= 4 * |d.order|
  {
    seq(n, k requires 0 <= k < n => CellAt(d, k))
  }

  function Rotation(batchIndex: nat, cell: Cell): nat {
    if cell.level == 0 then 0 else (batchIndex + cell.index) % cell.level
  }

  function PerCell(d: Design): nat {
    d.warmups + d.recorded
  }

  function PlanOf(d: Design, cell: Cell, position: nat): BatchPlan {
    var batchIndex := if position < d.warmups then position else position - d.warmups;
    BatchPlan(cell.index * PerCell(d) + position, cell, batchIndex, position >= d.warmups,
              Rotation(batchIndex, cell))
  }

  function CellPlans(d: Design, cell: Cell): seq<BatchPlan> {
    seq(PerCell(d), position requires 0 <= position => PlanOf(d, cell, position))
  }

  function PlansOf(d: Design, cells: seq<Cell>): seq<BatchPlan> {
    FlatMap((cell: Cell) => CellPlans(d, cell), cells)
  }

  function ScheduleOf(d: Design): Schedule {
    var cells := CellsUpTo(d, 4 * |d.order|);
    Schedule(cells, PlansOf(d, cells))
  }

  // ----- the generator's nested loops build it -----

  predicate Built(d: Design, n: nat, cells: seq<Cell>, batches: seq<BatchPlan>, planIndex: nat) {
    && n <= 4 * |d.order|
    && cells == CellsUpTo(d, n)
    && batches == PlansOf(d, cells)
    && planIndex == n * PerCell(d)
  }

  lemma BuiltStep(d: Design, n: nat, cells: seq<Cell>, batches: seq<BatchPlan>, planIndex: nat)
    requires Built(d, n, cells, batches, planIndex) && n < 4 * |d.order|
    ensures Built(d, n + 1, cells + [CellAt(d, n)], batches + CellPlans(d, CellAt(d, n)), planIndex + PerCell(d))
  {
    assert (cells + [CellAt(d, n)])[..n] == cells;
    NextPlanIndex(n, PerCell(d));
  }

  method GenerateFixedSchedule(d: Design) returns (s: Schedule)
    requires Legal(d)
    ensures s == ScheduleOf(d)
  {
    var cells, batches, planIndex := [], [], 0;
    for levelPosition := 0 to |d.order|
      invariant Built(d, 4 * levelPosition, cells, batches, planIndex)
    {
      cells, batches, planIndex := GenerateLevel(d, levelPosition, cells, batches, planIndex);
    }
    s := Schedule(cells, batches);
  }

  /** One level's cells: the workload loop around the composition loop. */
  method GenerateLevel(d: Design, levelPosition: nat, cells0: seq<Cell>, batches0: seq<BatchPlan>, planIndex0: nat)
    returns (cells: seq<Cell>, batches: seq<BatchPlan>, planIndex: nat)
    requires Legal(d) && levelPosition < |d.order|
    requires Built(d, 4 * levelPosition, cells0, batches0, planIndex0)
    ensures Built(d, 4 * levelPosition + 4, cells, batches, planIndex)
  {
    cells, batches, planIndex := cells0, batches0, planIndex0;
    for workloadPosition := 0 to 2
      invariant Built(d, 4 * levelPosition + 2 * workloadPosition, cells, batches, planIndex)
    {
      for compositionPosition := 0 to 2
        invariant Built(d, 4 * levelPosition + 2 * workloadPosition + compositionPosition,
                        cells, batches, planIndex)
      {
        var k := 4 * levelPosition + 2 * workloadPosition + compositionPosition;
        var cell := NextCell(d, levelPosition, workloadPosition, compositionPosition, k);
        cells, batches, planIndex := AppendCell(d, k, cell, cells, batches, planIndex);
      }
    }
  }

  /** The body of the innermost cell loop: the cell, then all its batches. */
  method AppendCell(d: Design, ghost k: nat, cell: Cell, cells0: seq<Cell>, batches0: seq<BatchPlan>, planIndex0: nat)
    returns (cells: seq<Cell>, batches: seq<BatchPlan>, planIndex: nat)
    requires Built(d, k, cells0, batches0, planIndex0) && k < 4 * |d.order| && cell == CellAt(d, k) && cell.level > 0
    ensures Built(d, k + 1, cells, batches, planIndex)
  {
    BuiltStep(d, k, cells0, batches0, planIndex0);
    var plans := GenerateCellPlans(d, cell, planIndex0);
    cells, batches, planIndex := cells0 + [cell], batches0 + plans, planIndex0 + |plans|;
  }

  /** Workload order alternates by level, composition order by matched pair. */
  method NextCell(d: Design, level: nat, workload: nat, composition: nat, k: nat) returns (cell: Cell)
    requires level < |d.order| && workload < 2 && composition < 2
    requires k == 4 * level + 2 * workload + composition
    ensures cell == CellAt(d, k)
  {
    var families := if level % 2 == 0 then [SameOrder, DifferentOrder] else [DifferentOrder, SameOrder];
    var pairIndex := level * 2 + workload;
    var compositions := if pairIndex % 2 == 0 then [PreOcc, InPessimistic] else [InPessimistic, PreOcc];
    CellInLoop(d, level, workload, composition, k);
    cell := Cell(k, level, workload, composition, d.order[level], families[workload], compositions[composition]);
  }

  lemma NextPlanIndex(cells: nat, perCell: nat)
    ensures (cells + 1) * perCell == cells * perCell + perCell
  {
  }

  lemma CellInLoop(d: Design, level: nat, workload: nat, composition: nat, k: nat)
    requires level < |d.order| && workload < 2 && composition < 2
    requires k == 4 * level + 2 * workload + composition
    ensures CellAt(d, k) == Cell(k, level, workload, composition, d.order[level],
                                 FamilyAt(level, workload), CompositionAt(workload, composition))
  {
    assert k / 4 == level;
    assert k / 2 == 2 * level + workload;
  }

  /** The two innermost loops: the cell's warmups, then its recorded batches. */
  method GenerateCellPlans(d: Design, cell: Cell, start: nat) returns (plans: seq<BatchPlan>)
    requires cell.level > 0 && start == cell.index * PerCell(d)
    ensures plans == CellPlans(d, cell)
  {
    plans := [];
    for phase := 0 to 2
      invariant |plans| == (if phase == 0 then 0 else if phase == 1 then d.warmups else PerCell(d))
      invariant plans == CellPlans(d, cell)[..|plans|]
    {
      var recorded := phase == 1;
      var count := if recorded then d.recorded else d.warmups;
      ghost var before := |plans|;
      for batchIndex := 0 to count
        invariant |plans| == before + batchIndex
        invariant plans == CellPlans(d, cell)[..|plans|]
      {
        var plan := BatchPlan(start + |plans|, cell, batchIndex, recorded, (batchIndex + cell.index) % cell.level);
        assert plan == CellPlans(d, cell)[|plans|];
        plans := plans + [plan];
      }
    }
  }

  // ----- shape of the schedule -----

  function RecordedOnly(plans: seq<BatchPlan>): seq<BatchPlan> {
    FlatMap((p: BatchPlan) => if p.recorded then [p] else [], plans)
  }

  function WarmupsOnly(plans: seq<BatchPlan>): seq<BatchPlan> {
    FlatMap((p: BatchPlan) => if p.recorded then [] else [p], plans)
  }

  function RecordedPlanOf(d: Design, cell: Cell, batchIndex: nat): BatchPlan {
    PlanOf(d, cell, d.warmups + batchIndex)
  }

  function RecordedCellPlans(d: Design, cell: Cell): seq<BatchPlan> {
    seq(d.recorded, b requires 0 <= b => RecordedPlanOf(d, cell, b))
  }

  function WarmupCellPlans(d: Design, cell: Cell): seq<BatchPlan> {
    seq(d.warmups, b requires 0 <= b => PlanOf(d, cell, b))
  }

  lemma CellPlansSplit(d: Design, cell: Cell)
    ensures CellPlans(d, cell) == WarmupCellPlans(d, cell) + RecordedCellPlans(d, cell)
    ensures RecordedOnly(CellPlans(d, cell)) == RecordedCellPlans(d, cell)
    ensures WarmupsOnly(CellPlans(d, cell)) == WarmupCellPlans(d, cell)
  {
    var warm, rec := WarmupCellPlans(d, cell), RecordedCellPlans(d, cell);
    assert CellPlans(d, cell) == warm + rec;
    SplitRecorded(warm, rec);
  }

  lemma SplitRecorded(warm: seq<BatchPlan>, rec: seq<BatchPlan>)
    requires forall i | 0 <= i < |warm| :: !warm[i].recorded
    requires forall i | 0 <= i < |rec| :: rec[i].recorded
    ensures RecordedOnly(warm + rec) == rec
    ensures WarmupsOnly(warm + rec) == warm
  {
    FlatMapConcat((p: BatchPlan) => if p.recorded then [p] else [], warm, rec);
    FlatMapNone((p: BatchPlan) => if p.recorded then [p] else [], warm);
    FlatMapSingles((p: BatchPlan) => if p.recorded then [p] else [], rec);
    SplitWarmups(warm, rec);
  }

  lemma SplitWarmups(warm: seq<BatchPlan>, rec: seq<BatchPlan>)
    requires forall i | 0 <= i < |warm| :: !warm[i].recorded
    requires forall i | 0 <= i < |rec| :: rec[i].recorded
    ensures WarmupsOnly(warm + rec) == warm
  {
    FlatMapConcat((p: BatchPlan) => if p.recorded then [] else [p], warm, rec);
    FlatMapNone((p: BatchPlan) => if p.recorded then [] else [p], rec);
    FlatMapSingles((p: BatchPlan) => if p.recorded then [] else [p], warm);
  }

  /** Dropping the warmups from the whole schedule leaves the cells' recorded batches, cell by cell. */
  lemma {:induction false} RecordedOfPlans(d: Design, cells: seq<Cell>)
    ensures RecordedOnly(PlansOf(d, cells)) == FlatMap((cell: Cell) => RecordedCellPlans(d, cell), cells)
  {
    if cells != [] {
      var n := |cells| - 1;
      RecordedOfPlans(d, cells[..n]);
      CellPlansSplit(d, cells[n]);
      FlatMapConcat((p: BatchPlan) => if p.recorded then [p] else [],
                    PlansOf(d, cells[..n]), CellPlans(d, cells[n]));
    }
  }

  /** The counter carried through the five nested loops is the position in the schedule. */
  lemma {:induction false} PlanIndexIsPosition(d: Design, n: nat, p: nat)
    requires n <= 4 * |d.order|
    requires p < n * PerCell(d)
    ensures |PlansOf(d, CellsUpTo(d, n))| == n * PerCell(d)
    ensures PlansOf(d, CellsUpTo(d, n))[p].planIndex == p
    decreases n
  {
    var cells := CellsUpTo(d, n);
    assert n > 0;
    assert cells[..n - 1] == CellsUpTo(d, n - 1);
    NextPlanIndex(n - 1, PerCell(d));
    PlanCount(d, n - 1);
    if p < (n - 1) * PerCell(d) {
      PlanIndexIsPosition(d, n - 1, p);
    }
  }

  lemma {:induction false} PlanCount(d: Design, n: nat)
    requires n <= 4 * |d.order|
    ensures |PlansOf(d, CellsUpTo(d, n))| == n * PerCell(d)
  {
    if n > 0 {
      assert CellsUpTo(d, n)[..n - 1] == CellsUpTo(d, n - 1);
      NextPlanIndex(n - 1, PerCell(d));
      PlanCount(d, n - 1);
    }
  }

  // ----- counterbalancing -----

  predicate StartsPair(cell: Cell, family: Family, composition: Composition) {
    cell.compositionPosition == 0 && cell.family == family && cell.composition == composition
  }

  /** Matched pairs of the given family that run the given composition first. */
  function PairsFirst(cells: seq<Cell>, family: Family, composition: Composition): nat {
    if cells == [] then 0
    else
      var n := |cells| - 1;
      PairsFirst(cells[..n], family, composition) + if StartsPair(cells[n], family, composition) then 1 else 0
  }

  lemma {:induction false} PairsFirstConcat(s: seq<Cell>, t: seq<Cell>, family: Family, composition: Composition)
    ensures PairsFirst(s + t, family, composition)
         == PairsFirst(s, family, composition) + PairsFirst(t, family, composition)
  {
    if t == [] {
      assert s + t == s;
    } else {
      assert (s + t)[..|s + t| - 1] == s + t[..|t| - 1];
      PairsFirstConcat(s, t[..|t| - 1], family, composition);
    }
  }

  /**
   Over n levels each family starts with each composition in half of its n pairs,
   exactly so when n is even, as it is for the four retained levels.
   */
  lemma {:induction false} Counterbalanced(d: Design, n: nat, family: Family, composition: Composition)
    requires n <= |d.order|
    ensures PairsFirst(CellsUpTo(d, 4 * n), family, composition)
         == if (family == SameOrder) == (composition == PreOcc) then (n + 1) / 2 else n / 2
  {
    if n == 0 {
      assert CellsUpTo(d, 0) == [];
    } else {
      Counterbalanced(d, n - 1, family, composition);
      CounterbalancedNext(d, n - 1, n, family, composition);
      Halves(n - 1);
    }
  }

  lemma Halves(m: nat)
    ensures (m + 2) / 2 == (m + 1) / 2 + if m % 2 == 0 then 1 else 0
    ensures (m + 1) / 2 == m / 2 + if m % 2 == 0 then 0 else 1
  {
  }

  lemma CounterbalancedNext(d: Design, m: nat, n: nat, family: Family, composition: Composition)
    requires n == m + 1 && n <= |d.order|
    ensures PairsFirst(CellsUpTo(d, 4 * n), family, composition)
         == PairsFirst(CellsUpTo(d, 4 * m), family, composition)
            + if (m % 2 == 0) == ((family == SameOrder) == (composition == PreOcc)) then 1 else 0
  {
    assert CellsUpTo(d, 4 * n) == CellsUpTo(d, 4 * m) + LevelCells(d, m);
    PairsFirstConcat(CellsUpTo(d, 4 * m), LevelCells(d, m), family, composition);
    LevelPairs(d, m, family, composition);
  }

  function LevelCells(d: Design, level: nat): seq<Cell>
    requires level < |d.order|
  {
    [CellAt(d, 4 * level), CellAt(d, 4 * level + 1), CellAt(d, 4 * level + 2), CellAt(d, 4 * level + 3)]
  }

  lemma LevelPairs(d: Design, n: nat, family: Family, composition: Composition)
    requires n < |d.order|
    ensures PairsFirst(LevelCells(d, n), family, composition)
         == if (n % 2 == 0) == ((family == SameOrder) == (composition == PreOcc)) then 1 else 0
  {
    var four := LevelCells(d, n);
    CellInLoop(d, n, 0, 0, 4 * n);
    CellInLoop(d, n, 0, 1, 4 * n + 1);
    CellInLoop(d, n, 1, 0, 4 * n + 2);
    CellInLoop(d, n, 1, 1, 4 * n + 3);
    FourPairs(four, family, composition);
  }

  lemma FourPairs(four: seq<Cell>, family: Family, composition: Composition)
    requires |four| == 4 && four[0].compositionPosition == four[2].compositionPosition == 0
    requires four[1].compositionPosition == four[3].compositionPosition == 1
    ensures PairsFirst(four, family, composition)
         == (if StartsPair(four[0], family, composition) then 1 else 0)
            + (if StartsPair(four[2], family, composition) then 1 else 0)
  {
    assert four == four[..2] + four[2..];
    PairsFirstConcat(four[..2], four[2..], family, composition);
    TwoPairs(four[..2], family, composition);
    TwoPairs(four[2..], family, composition);
  }

  lemma TwoPairs(two: seq<Cell>, family: Family, composition: Composition)
    requires |two| == 2 && two[0].compositionPosition == 0 && two[1].compositionPosition == 1
    ensures PairsFirst(two, family, composition) == if StartsPair(two[0], family, composition) then 1 else 0
  {
    assert two[..1][..0] == [];
    assert PairsFirst(two[..1], family, composition) == if StartsPair(two[0], family, composition) then 1 else 0;
  }

  /** In every recorded batch each lane gets its own identity position. */
  lemma LaneIdentitiesPermute(plan: BatchPlan, position: nat)
    requires plan.rotation < plan.cell.level && position < plan.cell.level
    ensures exists lane: nat :: lane < plan.cell.level && IdentityPosition(plan, lane) == position
  {
    var level := plan.cell.level;
    var lane := if position >= plan.rotation then position - plan.rotation else position + level - plan.rotation;
    if position < plan.rotation {
      assert lane + plan.rotation == position + level;
    }
    ModuloWraps(lane + plan.rotation, level);
    assert IdentityPosition(plan, lane) == position;
  }

  function IdentityPosition(plan: BatchPlan, lane: nat): nat
    requires plan.cell.level > 0
  {
    (lane + plan.rotation) % plan.cell.level
  }

  lemma ModuloWraps(x: nat, m: nat)
    requires 0 <= x < 2 * m
    ensures x % m == if x < m then x else x - m
  {
  }
}
