/**
The recorded-schedule executor. For every level in order of first appearance it opens
the level's lanes, and for every cell of that level it runs the cell's warmups and then
its recorded batches, numbering the recorded ones as it goes. What the lanes deliver,
and where the harness fails, is arbitrary.
*/
module RecordedExecutor {
  import opened Wrappers
  import opened Sequences
  import opened FixedSchedule
  import opened RunRecords

  /** A synchronized burst that came back: the release reading and one observation per lane. */
  datatype BatchRun = BatchRun(referenceNs: nat, observations: seq<Observation>)

  /** The environment; behave gives None where preparing, running or verifying the batch raised. */
  datatype World = World(threads: nat -> seq<nat>, behave: BatchPlan -> Option<BatchRun>)

  datatype Ownership = Ownership(level: nat, lane: nat, slot: nat, thread: nat)

  datatype Execution = Execution(invocations: seq<Invocation>, batches: seq<Batch>, ownership: seq<Ownership>)

  /** The level's runtime starts one thread per lane. */
  ghost predicate ThreadPerLane(w: World) {
    forall level :: |w.threads(level)| == level
  }

  // ----- what a run of the plans leaves, in schedule order -----

  /** The batch comes back with one observation per lane, none started before the release. */
  predicate Runs(w: World, plan: BatchPlan) {
    var run := w.behave(plan);
    && run.Some?
    && |run.value.observations| == plan.cell.level
    && forall i | 0 <= i < |run.value.observations| :: run.value.observations[i].startNs >= run.value.referenceNs
  }

  function RecordsFor(runId: string, w: World, plan: BatchPlan, start: nat): (r: seq<Invocation>)
    requires Runs(w, plan)
    ensures |r| == plan.cell.level
  {
    var run := w.behave(plan).value;
    seq(plan.cell.level, lane requires 0 <= lane < plan.cell.level =>
      RecordOf(runId, start + lane, plan, lane, run.observations[lane], run.referenceNs))
  }

  /** The lists and running indexes of a run in progress. */
  datatype Progress = Progress(invocations: seq<Invocation>, batches: seq<Batch>, nextInvocation: nat, nextBatch: nat)

  const Start := Progress([], [], 0, 0)

  /** A recorded batch is kept and numbered. */
  function RunRecorded(runId: string, w: World, p: Progress, plan: BatchPlan): Progress
    requires Runs(w, plan) && plan.cell.level > 0
  {
    var records := RecordsFor(runId, w, plan, p.nextInvocation);
    var batch := BuildBatch(runId, p.nextBatch, plan, w.behave(plan).value.referenceNs, records);
    Progress(p.invocations + records, p.batches + [batch], p.nextInvocation + plan.cell.level, p.nextBatch + 1)
  }

  /** A warmup is only checked. None stops the run. */
  function RunPlan(runId: string, w: World, p: Progress, plan: BatchPlan): Option<Progress> {
    if !Runs(w, plan) || plan.cell.level == 0 then None
    else if plan.recorded then Some(RunRecorded(runId, w, p, plan))
    else if Acceptable(RecordsFor(runId, w, plan, 0)) then Some(p)
    else None
  }

  lemma RunPlanRecorded(runId: string, w: World, p: Progress, plan: BatchPlan)
    requires plan.recorded && plan.cell.level > 0
    ensures RunPlan(runId, w, p, plan) == if Runs(w, plan) then Some(RunRecorded(runId, w, p, plan)) else None
  {
  }

  function Runner(runId: string, w: World): (Progress, BatchPlan) -> Option<Progress> {
    (p, plan) => RunPlan(runId, w, p, plan)
  }

  /** The plans one after another: a flat walk, with no levels and no cells. */
  function RunPlans(runId: string, w: World, plans: seq<BatchPlan>): Option<Progress> {
    Fold(Runner(runId, w), Start, plans)
  }

  function LaneOwners(w: World, level: nat): seq<Ownership>
    requires |w.threads(level)| == level
  {
    seq(level, lane requires 0 <= lane < level => Ownership(level, lane, lane, w.threads(level)[lane]))
  }

  function OwnersOf(w: World, levels: seq<nat>): seq<Ownership>
    requires forall i | 0 <= i < |levels| :: |w.threads(levels[i])| == levels[i]
  {
    if levels == [] then []
    else OwnersOf(w, levels[..|levels| - 1]) + LaneOwners(w, levels[|levels| - 1])
  }

  // ----- one batch -----

  method ExecuteBatch(runId: string, w: World, plan: BatchPlan, invocationIndex: nat, batchIndex: nat)
    returns (r: Option<(seq<Invocation>, Batch)>)
    requires plan.cell.level > 0
    ensures r.Some? <==> Runs(w, plan)
    ensures r.Some? ==>
              var records := RecordsFor(runId, w, plan, invocationIndex);
              r.value == (records, BuildBatch(runId, batchIndex, plan, w.behave(plan).value.referenceNs, records))
  {
    var run := w.behave(plan);
    if run == None || |run.value.observations| != plan.cell.level {
      return None;
    }
    var records := [];
    for lane := 0 to plan.cell.level
      invariant |records| == lane
      invariant forall i | 0 <= i < lane ::
                  run.value.observations[i].startNs >= run.value.referenceNs
      invariant forall i | 0 <= i < lane ::
                  records[i] == RecordOf(runId, invocationIndex + i, plan, i,
                                         run.value.observations[i], run.value.referenceNs)
    {
      var o := run.value.observations[lane];
      if o.startNs < run.value.referenceNs {
        return None;
      }
      records := records + [RecordOf(runId, invocationIndex + lane, plan, lane, o, run.value.referenceNs)];
    }
    assert records == RecordsFor(runId, w, plan, invocationIndex);
    r := Some((records, BuildBatch(runId, batchIndex, plan, run.value.referenceNs, records)));
  }

  /** One pass of the warmup loop's body. */
  method ExecuteWarmup(runId: string, w: World, p: Progress, plan: BatchPlan) returns (r: Option<Progress>)
    requires plan.cell.level > 0 && !plan.recorded
    ensures r == RunPlan(runId, w, p, plan)
  {
    var result := ExecuteBatch(runId, w, plan, 0, 0);
    if result == None {
      return None;
    }
    var ok := CheckRecords(result.value.0);
    r := if ok then Some(p) else None;
  }

  /** One pass of the recording loop's body. */
  method ExecuteRecorded(runId: string, w: World, p: Progress, plan: BatchPlan) returns (r: Option<Progress>)
    requires plan.cell.level > 0 && plan.recorded
    ensures r == RunPlan(runId, w, p, plan)
  {
    RunPlanRecorded(runId, w, p, plan);
    var result := ExecuteBatch(runId, w, plan, p.nextInvocation, p.nextBatch);
    if result == None {
      return None;
    }
    r := Some(Progress(p.invocations + result.value.0, p.batches + [result.value.1],
                       p.nextInvocation + plan.cell.level, p.nextBatch + 1));
  }

  /** The warmup loop and the recording loop of one cell, each over plans of its own kind. */
  method ExecuteLoop(runId: string, w: World, start: Progress, plans: seq<BatchPlan>, recorded: bool)
    returns (r: Option<Progress>)
    requires forall i | 0 <= i < |plans| :: plans[i].recorded == recorded && plans[i].cell.level > 0
    ensures r == Fold(Runner(runId, w), start, plans)
  {
    var p := start;
    for i := 0 to |plans|
      invariant Fold(Runner(runId, w), start, plans[..i]) == Some(p)
    {
      assert plans[..i + 1][..i] == plans[..i];
      var next;
      if recorded {
        next := ExecuteRecorded(runId, w, p, plans[i]);
      } else {
        next := ExecuteWarmup(runId, w, p, plans[i]);
      }
      if next == None {
        FoldStopped(Runner(runId, w), start, plans, i + 1);
        return None;
      }
      p := next.value;
    }
    assert plans[..|plans|] == plans;
    r := Some(p);
  }

  // ----- the dictionary of cells by level -----

  function CellsOfLevel(cells: seq<Cell>, level: nat): seq<Cell> {
    FlatMap((c: Cell) => if c.level == level then [c] else [], cells)
  }

  /** Levels in order of first appearance. */
  function Levels(cells: seq<Cell>): seq<nat> {
    if cells == [] then []
    else
      var earlier, level := Levels(cells[..|cells| - 1]), cells[|cells| - 1].level;
      if level in earlier then earlier else earlier + [level]
  }

  method GroupByLevel(cells: seq<Cell>) returns (groups: map<nat, seq<Cell>>, levels: seq<nat>)
    ensures levels == Levels(cells)
    ensures forall level :: level in groups <==> level in levels
    ensures forall level | level in groups :: groups[level] == CellsOfLevel(cells, level)
  {
    groups, levels := map[], [];
    for i := 0 to |cells|
      invariant levels == Levels(cells[..i])
      invariant forall level :: level in groups <==> level in levels
      invariant forall level | level in groups :: groups[level] == CellsOfLevel(cells[..i], level)
      invariant forall level | level !in groups :: CellsOfLevel(cells[..i], level) == []
    {
      var cell := cells[i];
      assert cells[..i + 1][..i] == cells[..i];
      if cell.level in groups {
        groups := groups[cell.level := groups[cell.level] + [cell]];
      } else {
        groups := groups[cell.level := [cell]];
        levels := levels + [cell.level];
      }
    }
    assert cells[..|cells|] == cells;
  }

  // ----- the nested walk visits the cells in schedule order -----

  lemma {:induction false} LevelsAppend(cells: seq<Cell>, more: seq<Cell>, level: nat)
    requires level !in Levels(cells) && more != []
    requires forall i | 0 <= i < |more| :: more[i].level == level
    ensures Levels(cells + more) == Levels(cells) + [level]
  {
    var n := |more| - 1;
    assert (cells + more)[..|cells| + n] == cells + more[..n];
    if n == 0 {
      assert cells + more[..n] == cells;
    } else {
      LevelsAppend(cells, more[..n], level);
    }
  }

  lemma {:induction false} LevelsUpTo(d: Design, n: nat)
    requires NoDuplicates(d.order) && n <= |d.order|
    ensures Levels(CellsUpTo(d, 4 * n)) == d.order[..n]
  {
    if n == 0 {
      assert CellsUpTo(d, 0) == [];
    } else {
      var m := n - 1;
      LevelsUpTo(d, m);
      LevelsOfNext(d, m, CellsUpTo(d, 4 * m));
      NextFour(d, m, n);
    }
  }

  lemma NextFour(d: Design, m: nat, n: nat)
    requires n == m + 1 && n <= |d.order|
    ensures CellsUpTo(d, 4 * n) == CellsUpTo(d, 4 * m + 4)
  {
  }

  lemma LevelsOfNext(d: Design, m: nat, cells: seq<Cell>)
    requires NoDuplicates(d.order) && m < |d.order|
    requires cells == CellsUpTo(d, 4 * m) && Levels(cells) == d.order[..m]
    ensures Levels(CellsUpTo(d, 4 * m + 4)) == d.order[..m + 1]
  {
    var more, level := LevelCells(d, m), d.order[m];
    assert level !in d.order[..m];
    LevelOfFour(d, m);
    LevelsAppend(cells, more, level);
    ScheduleSplit(d, m);
    assert d.order[..m + 1] == d.order[..m] + [level];
  }

  lemma ScheduleSplit(d: Design, i: nat)
    requires i < |d.order|
    ensures CellsUpTo(d, 4 * i + 4) == CellsUpTo(d, 4 * i) + LevelCells(d, i)
  {
  }

  lemma LevelOfFour(d: Design, i: nat)
    requires i < |d.order|
    ensures forall k | 0 <= k < 4 :: LevelCells(d, i)[k].level == d.order[i]
  {
  }

  /** The cells filed under the i-th level are the i-th four of the schedule. */
  lemma CellsOfOrderedLevel(d: Design, i: nat)
    requires Legal(d) && i < |d.order|
    ensures CellsOfLevel(ScheduleOf(d).cells, d.order[i]) == LevelCells(d, i)
  {
    var cells := ScheduleOf(d).cells;
    OtherLevels(d, i);
    LevelOfFour(d, i);
    FourOfCells(d, i);
    LevelInMiddle(cells[..4 * i], LevelCells(d, i), cells[4 * i + 4..], d.order[i]);
  }

  lemma LevelInMiddle(before: seq<Cell>, four: seq<Cell>, after: seq<Cell>, level: nat)
    requires forall k | 0 <= k < |before| :: before[k].level != level
    requires forall k | 0 <= k < |after| :: after[k].level != level
    requires forall k | 0 <= k < |four| :: four[k].level == level
    ensures CellsOfLevel(before + (four + after), level) == four
  {
    var keep := (c: Cell) => if c.level == level then [c] else [];
    FlatMapNone(keep, before);
    FlatMapNone(keep, after);
    FlatMapMiddle(keep, before, four, after);
  }

  lemma FourOfCells(d: Design, i: nat)
    requires i < |d.order|
    ensures var cells := ScheduleOf(d).cells;
            cells == cells[..4 * i] + (LevelCells(d, i) + cells[4 * i + 4..])
  {
  }

  lemma OtherLevels(d: Design, i: nat)
    requires Legal(d) && i < |d.order|
    ensures var before, after := ScheduleOf(d).cells[..4 * i], ScheduleOf(d).cells[4 * i + 4..];
            && (forall k | 0 <= k < |before| :: before[k].level != d.order[i])
            && (forall k | 0 <= k < |after| :: after[k].level != d.order[i])
  {
    var cells := ScheduleOf(d).cells;
    var before, after := cells[..4 * i], cells[4 * i + 4..];
    forall k | 0 <= k < |before| ensures before[k].level != d.order[i] {
      assert k / 4 < i;
      assert d.order[k / 4] != d.order[i];
    }
    forall k | 0 <= k < |after| ensures after[k].level != d.order[i] {
      var m := 4 * i + 4 + k;
      assert i < m / 4;
      assert cells[m].level == d.order[m / 4] != d.order[i];
    }
  }

  function PlansOfCell(batches: seq<BatchPlan>, cell: Cell): seq<BatchPlan> {
    FlatMap((p: BatchPlan) => if p.cell == cell then [p] else [], batches)
  }

  lemma {:induction false} PlansOfOtherCells(d: Design, cells: seq<Cell>, cell: Cell)
    requires forall i | 0 <= i < |cells| :: cells[i] != cell
    ensures PlansOfCell(PlansOf(d, cells), cell) == []
  {
    if cells != [] {
      var n := |cells| - 1;
      PlansOfOtherCells(d, cells[..n], cell);
      var keep := (p: BatchPlan) => if p.cell == cell then [p] else [];
      FlatMapConcat(keep, PlansOf(d, cells[..n]), CellPlans(d, cells[n]));
      FlatMapNone(keep, CellPlans(d, cells[n]));
    }
  }

  /** Selecting a cell's batches out of the whole schedule gives the batches generated for it. */
  lemma PlansOfScheduledCell(d: Design, k: nat)
    requires k < 4 * |d.order|
    ensures PlansOfCell(ScheduleOf(d).batches, CellAt(d, k)) == CellPlans(d, CellAt(d, k))
  {
    var cells := ScheduleOf(d).cells;
    assert cells[k] == CellAt(d, k);
    forall i | 0 <= i < |cells| && i != k ensures cells[i] != cells[k] {
      assert cells[i].index == i;
    }
    PlansOfOneCell(d, cells, k);
  }

  lemma PlansOfOneCell(d: Design, cells: seq<Cell>, k: nat)
    requires k < |cells| && forall i | 0 <= i < |cells| && i != k :: cells[i] != cells[k]
    ensures PlansOfCell(PlansOf(d, cells), cells[k]) == CellPlans(d, cells[k])
  {
    var cell, before, after := cells[k], cells[..k], cells[k + 1..];
    PlansOfOtherCells(d, before, cell);
    PlansOfOtherCells(d, after, cell);
    FlatMapMiddle((p: BatchPlan) => if p.cell == cell then [p] else [],
                  PlansOf(d, before), CellPlans(d, cell), PlansOf(d, after));
    PlansAround(d, cells, k);
  }

  lemma PlansAround(d: Design, cells: seq<Cell>, k: nat)
    requires k < |cells|
    ensures PlansOf(d, cells)
         == PlansOf(d, cells[..k]) + (CellPlans(d, cells[k]) + PlansOf(d, cells[k + 1..]))
  {
    SplitAt(cells, k);
    FlatMapAround((c: Cell) => CellPlans(d, c), cells[..k], cells[k], cells[k + 1..]);
  }

  // ----- the executor -----

  /** Selecting a cell's plans from the batches gives the plans generated for it. */
  predicate Selectable(d: Design, batches: seq<BatchPlan>, cell: Cell) {
    cell.level > 0 && PlansOfCell(batches, cell) == CellPlans(d, cell)
  }

  /** One cell of the walk: select its batches from the schedule, warm up, then record. */
  method ExecuteCell(runId: string, w: World, d: Design, p: Progress, cell: Cell, batches: seq<BatchPlan>)
    returns (r: Option<Progress>)
    requires Selectable(d, batches, cell)
    ensures r == Fold(Runner(runId, w), p, CellPlans(d, cell))
  {
    var plans := PlansOfCell(batches, cell);
    var warmups, recorded := WarmupsOnly(plans), RecordedOnly(plans);
    CellPlansSplit(d, cell);
    OfOneKind(d, cell);
    FoldConcat(Runner(runId, w), p, warmups, recorded);
    var warm := ExecuteLoop(runId, w, p, warmups, false);
    if warm == None {
      return None;
    }
    r := ExecuteLoop(runId, w, warm.value, recorded, true);
  }

  lemma OfOneKind(d: Design, cell: Cell)
    ensures forall i | 0 <= i < d.warmups ::
              !WarmupCellPlans(d, cell)[i].recorded && WarmupCellPlans(d, cell)[i].cell == cell
    ensures forall i | 0 <= i < d.recorded ::
              RecordedCellPlans(d, cell)[i].recorded && RecordedCellPlans(d, cell)[i].cell == cell
  {
  }

  lemma PlansOfNext(d: Design, cells: seq<Cell>, cell: Cell)
    ensures PlansOf(d, cells + [cell]) == PlansOf(d, cells) + CellPlans(d, cell)
  {
    assert (cells + [cell])[..|cells|] == cells;
  }

  /** The cells of one opened level, in order. */
  method ExecuteLevel(runId: string, w: World, d: Design, start: Progress, cells: seq<Cell>, batches: seq<BatchPlan>)
    returns (r: Option<Progress>)
    requires forall j | 0 <= j < |cells| :: Selectable(d, batches, cells[j])
    ensures r == Fold(Runner(runId, w), start, PlansOf(d, cells))
  {
    var p := start;
    for j := 0 to |cells|
      invariant Fold(Runner(runId, w), start, PlansOf(d, cells[..j])) == Some(p)
    {
      var next := ExecuteCell(runId, w, d, p, cells[j], batches);
      PlansOfNext(d, cells[..j], cells[j]);
      FoldConcat(Runner(runId, w), start, PlansOf(d, cells[..j]), CellPlans(d, cells[j]));
      assert cells[..j] + [cells[j]] == cells[..j + 1];
      if next == None {
        StoppedAtCell(Runner(runId, w), d, start, cells, j + 1);
        return None;
      }
      p := next.value;
    }
    assert cells[..|cells|] == cells;
    r := Some(p);
  }

  lemma StoppedAtCell(f: (Progress, BatchPlan) -> Option<Progress>, d: Design, p: Progress, cells: seq<Cell>, n: nat)
    requires n <= |cells| && Fold(f, p, PlansOf(d, cells[..n])) == None
    ensures Fold(f, p, PlansOf(d, cells)) == None
  {
    var left, right := cells[..n], cells[n..];
    assert left + right == cells;
    PlansConcat(d, left, right);
    FoldConcat(f, p, PlansOf(d, left), PlansOf(d, right));
  }

  lemma PlansConcat(d: Design, s: seq<Cell>, t: seq<Cell>)
    ensures PlansOf(d, s + t) == PlansOf(d, s) + PlansOf(d, t)
  {
    FlatMapConcat((c: Cell) => CellPlans(d, c), s, t);
  }

  lemma LevelWalked(runId: string, w: World, d: Design, i: nat, p: Progress)
    requires i < |d.order|
    requires RunPlans(runId, w, PlansOf(d, CellsUpTo(d, 4 * i))) == Some(p)
    ensures RunPlans(runId, w, PlansOf(d, CellsUpTo(d, 4 * i + 4)))
         == Fold(Runner(runId, w), p, PlansOf(d, LevelCells(d, i)))
  {
    var before, four := CellsUpTo(d, 4 * i), LevelCells(d, i);
    ScheduleSplit(d, i);
    PlansConcat(d, before, four);
    FoldConcat(Runner(runId, w), Start, PlansOf(d, before), PlansOf(d, four));
  }

  lemma StoppedAtLevel(runId: string, w: World, d: Design, n: nat)
    requires n <= |d.order|
    requires RunPlans(runId, w, PlansOf(d, CellsUpTo(d, 4 * n))) == None
    ensures RunPlans(runId, w, ScheduleOf(d).batches) == None
  {
    var cells := ScheduleOf(d).cells;
    assert cells[..4 * n] == CellsUpTo(d, 4 * n);
    StoppedAtCell(Runner(runId, w), d, Start, cells, 4 * n);
  }

  lemma LevelSelectable(d: Design, i: nat)
    requires Legal(d) && i < |d.order|
    ensures forall j | 0 <= j < 4 :: Selectable(d, ScheduleOf(d).batches, LevelCells(d, i)[j])
  {
    LevelOfFour(d, i);
    PlansOfScheduledCell(d, 4 * i);
    PlansOfScheduledCell(d, 4 * i + 1);
    PlansOfScheduledCell(d, 4 * i + 2);
    PlansOfScheduledCell(d, 4 * i + 3);
  }

  /** The dictionary of cells, as the walk over the levels finds it. */
  predicate Filed(d: Design, groups: map<nat, seq<Cell>>, i: nat)
    requires i < |d.order|
  {
    d.order[i] in groups && groups[d.order[i]] == LevelCells(d, i)
  }

  /** The flat walk over the first n levels. */
  function Walked(runId: string, w: World, d: Design, n: nat): Option<Progress>
    requires n <= |d.order|
  {
    RunPlans(runId, w, PlansOf(d, CellsUpTo(d, 4 * n)))
  }

  method WalkLevel(runId: string, w: World, d: Design, i: nat, level: nat, p: Progress,
                   batches: seq<BatchPlan>, groups: map<nat, seq<Cell>>)
    returns (r: Option<Progress>)
    requires Legal(d) && batches == ScheduleOf(d).batches
    requires i < |d.order| && level == d.order[i] && Filed(d, groups, i) && Walked(runId, w, d, i) == Some(p)
    ensures r == Walked(runId, w, d, i + 1)
  {
    LevelSelectable(d, i);
    r := ExecuteLevel(runId, w, d, p, groups[level], batches);
    LevelWalked(runId, w, d, i, p);
    assert 4 * i + 4 == 4 * (i + 1);
  }

  method WalkLevels(runId: string, w: World, d: Design, batches: seq<BatchPlan>,
                    groups: map<nat, seq<Cell>>, levels: seq<nat>)
    returns (r: Option<Progress>)
    requires Legal(d) && batches == ScheduleOf(d).batches && levels == d.order
    requires forall i | 0 <= i < |d.order| :: Filed(d, groups, i)
    ensures r == RunPlans(runId, w, batches)
  {
    var p := Start;
    assert CellsUpTo(d, 0) == [];
    for i := 0 to |levels|
      invariant Walked(runId, w, d, i) == Some(p)
    {
      r := WalkLevel(runId, w, d, i, levels[i], p, batches, groups);
      if r == None {
        StoppedAtLevel(runId, w, d, i + 1);
        return;
      }
      p := r.value;
    }
    r := Some(p);
  }

  method OwnLanes(w: World, levels: seq<nat>) returns (ownership: seq<Ownership>)
    requires ThreadPerLane(w)
    ensures ownership == OwnersOf(w, levels)
  {
    ownership := [];
    for i := 0 to |levels|
      invariant ownership == OwnersOf(w, levels[..i])
    {
      assert levels[..i + 1][..i] == levels[..i];
      ownership := ownership + LaneOwners(w, levels[i]);
    }
    assert levels[..|levels|] == levels;
  }

  /** The run of the flat schedule in order, with every level's lanes. */
  ghost function ExecutionOf(runId: string, w: World, d: Design): Option<Execution>
    requires ThreadPerLane(w)
  {
    match RunPlans(runId, w, ScheduleOf(d).batches)
    case None => None
    case Some(p) => Some(Execution(p.invocations, p.batches, OwnersOf(w, d.order)))
  }

  /** Walking level by level, cell by cell and plan by plan is running the flat schedule in order. */
  method Execute(runId: string, w: World, d: Design, schedule: Schedule) returns (r: Option<Execution>)
    requires Legal(d) && schedule == ScheduleOf(d) && ThreadPerLane(w)
    ensures r == ExecutionOf(runId, w, d)
  {
    var groups, levels := GroupByLevel(schedule.cells);
    LevelsUpTo(d, |d.order|);
    assert d.order[..|d.order|] == d.order;
    forall i | 0 <= i < |d.order| ensures Filed(d, groups, i) {
      assert levels[i] in levels;
      CellsOfOrderedLevel(d, i);
    }
    var p := WalkLevels(runId, w, d, schedule.batches, groups, levels);
    if p == None {
      return None;
    }
    var ownership := OwnLanes(w, levels);
    r := Some(Execution(p.value.invocations, p.value.batches, ownership));
  }
}
