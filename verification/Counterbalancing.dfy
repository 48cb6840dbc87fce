/**
The rotation-counterbalanced schedule: cycles of all rotations of shuffled base orders,
followed by a few distinct rotations of one more. Shuffles are arbitrary permutations
of the cells and the last rotations an arbitrary choice of distinct ones.
*/
module Counterbalancing {
  import opened Sequences

  /** A shuffle of distinct cells. */
  predicate IsShuffle<T(==)>(base: seq<T>, cells: seq<T>) {
    NoDuplicates(cells) && multiset(base) == multiset(cells)
  }

  function Rotated<T>(base: seq<T>, rotation: nat): (r: seq<T>)
    requires rotation <= |base|
    ensures |r| == |base|
  {
    base[rotation..] + base[..rotation]
  }

  /** Rotations of one base, one after another, as a flat list. */
  function RotationRounds<T>(base: seq<T>, rotations: seq<nat>): seq<T>
    requires forall i | 0 <= i < |rotations| :: rotations[i] < |base|
  {
    if rotations == [] then []
    else
      var n := |rotations| - 1;
      RotationRounds(base, rotations[..n]) + Rotated(base, rotations[n])
  }

  function UpTo(n: nat): (r: seq<nat>)
    ensures |r| == n && forall i | 0 <= i < n :: r[i] == i
  {
    seq(n, i => i)
  }

  function Cycles<T>(bases: seq<seq<T>>): seq<T> {
    if bases == [] then []
    else
      var n := |bases| - 1;
      Cycles(bases[..n]) + RotationRounds(bases[n], UpTo(|bases[n]|))
  }

  method ExpectedScheduleCells<T>(bases: seq<seq<T>>, last: seq<T>, rotations: seq<nat>) returns (rounds: seq<T>)
    requires forall i | 0 <= i < |rotations| :: rotations[i] < |last|
    ensures rounds == Cycles(bases) + RotationRounds(last, rotations)
  {
    rounds := [];
    for i := 0 to |bases|
      invariant rounds == Cycles(bases[..i])
    {
      var base := bases[i];
      assert bases[..i + 1][..i] == bases[..i];
      assert UpTo(|base|)[..0] == [];
      for rotation := 0 to |base|
        invariant rounds == Cycles(bases[..i]) + RotationRounds(base, UpTo(|base|)[..rotation])
      {
        assert UpTo(|base|)[..rotation + 1][..rotation] == UpTo(|base|)[..rotation];
        rounds := rounds + (base[rotation..] + base[..rotation]);
      }
      assert UpTo(|base|)[..|base|] == UpTo(|base|);
    }
    assert bases[..|bases|] == bases;
    for i := 0 to |rotations|
      invariant rounds == Cycles(bases) + RotationRounds(last, rotations[..i])
    {
      assert rotations[..i + 1][..i] == rotations[..i];
      rounds := rounds + (last[rotations[i]..] + last[..rotations[i]]);
    }
    assert rotations[..|rotations|] == rotations;
  }

  // ----- counting positions in the flat list -----

  /** In how many rounds of n the cell stands at the given position. */
  function AtPosition<T(==)>(rounds: seq<T>, n: nat, cell: T, position: nat): nat
    requires position < n
  {
    if |rounds| < n then 0
    else
      var start := |rounds| - n;
      AtPosition(rounds[..start], n, cell, position) + if rounds[start + position] == cell then 1 else 0
  }

  lemma AtPositionNext<T>(rounds: seq<T>, round: seq<T>, cell: T, position: nat)
    requires position < |round|
    ensures AtPosition(rounds + round, |round|, cell, position)
         == AtPosition(rounds, |round|, cell, position) + if round[position] == cell then 1 else 0
  {
    assert (rounds + round)[..|rounds|] == rounds;
  }

  /** The one rotation that brings a cell to a position. */
  function BringsTo(n: nat, from: nat, position: nat): nat
    requires from < n && position < n
  {
    if from >= position then from - position else from + n - position
  }

  lemma RotatedAt<T>(base: seq<T>, rotation: nat, from: nat, position: nat)
    requires NoDuplicates(base) && rotation < |base| && from < |base| && position < |base|
    ensures Rotated(base, rotation)[position] == base[from] <==> rotation == BringsTo(|base|, from, position)
  {
    var n := |base|;
    var at := if rotation + position < n then rotation + position else rotation + position - n;
    assert Rotated(base, rotation)[position] == base[at];
    assert base[at] == base[from] <==> at == from;
  }

  function Times(rotations: seq<nat>, rotation: nat): nat {
    multiset(rotations)[rotation]
  }

  lemma {:induction false} RotationsAt<T>(before: seq<T>, base: seq<T>, rotations: seq<nat>, from: nat, position: nat)
    requires NoDuplicates(base) && from < |base| && position < |base|
    requires forall i | 0 <= i < |rotations| :: rotations[i] < |base|
    ensures AtPosition(before + RotationRounds(base, rotations), |base|, base[from], position)
         == AtPosition(before, |base|, base[from], position) + Times(rotations, BringsTo(|base|, from, position))
  {
    if rotations == [] {
      assert before + RotationRounds(base, rotations) == before;
    } else {
      var n := |rotations| - 1;
      RotationsAt(before, base, rotations[..n], from, position);
      var earlier, round := RotationRounds(base, rotations[..n]), Rotated(base, rotations[n]);
      assert before + (earlier + round) == (before + earlier) + round;
      AtPositionNext(before + earlier, round, base[from], position);
      RotatedAt(base, rotations[n], from, position);
      TimesNext(rotations, BringsTo(|base|, from, position));
    }
  }

  lemma TimesNext(rotations: seq<nat>, rotation: nat)
    requires rotations != []
    ensures var n := |rotations| - 1;
            Times(rotations, rotation) == Times(rotations[..n], rotation) + if rotations[n] == rotation then 1 else 0
  {
    assert rotations == rotations[..|rotations| - 1] + [rotations[|rotations| - 1]];
  }

  lemma DistinctTimes(rotations: seq<nat>, rotation: nat)
    requires NoDuplicates(rotations)
    ensures Times(rotations, rotation) == if rotation in rotations then 1 else 0
  {
    if rotation in rotations {
      var i :| 0 <= i < |rotations| && rotations[i] == rotation;
      WithoutMultiset(rotations, i);
      assert rotation !in Without(rotations, i);
      assert multiset(Without(rotations, i))[rotation] == 0;
    }
  }

  lemma PositionIn<T>(base: seq<T>, cells: seq<T>, cell: T) returns (from: nat)
    requires IsShuffle(base, cells) && cell in cells
    ensures NoDuplicates(base) && |base| == |cells| && from < |base| && base[from] == cell
  {
    PermutationLength(base, cells);
    ShuffleDistinct(base, cells);
    assert cell in multiset(cells);
    assert cell in base;
    from :| from < |base| && base[from] == cell;
  }

  lemma ShuffleDistinct<T>(base: seq<T>, cells: seq<T>)
    requires IsShuffle(base, cells)
    ensures NoDuplicates(base)
  {
    PermutationLength(base, cells);
    ToSetSize(base);
    ToSetSize(cells);
    assert forall x :: x in base <==> x in multiset(base);
    assert forall x :: x in cells <==> x in multiset(cells);
    assert ToSet(base) == ToSet(cells);
  }

  /** One full cycle of rotations is a Latin square: every cell takes every position once. */
  lemma CycleIsLatin<T>(before: seq<T>, base: seq<T>, cells: seq<T>, cell: T, position: nat)
    requires IsShuffle(base, cells) && cell in cells && position < |cells| == |base|
    ensures AtPosition(before + RotationRounds(base, UpTo(|base|)), |base|, cell, position)
         == AtPosition(before, |base|, cell, position) + 1
  {
    var from := PositionIn(base, cells, cell);
    RotationsAt(before, base, UpTo(|base|), from, position);
    var rotation := BringsTo(|base|, from, position);
    DistinctTimes(UpTo(|base|), rotation);
    assert UpTo(|base|)[rotation] == rotation;
  }

  predicate AllShuffles<T(==)>(bases: seq<seq<T>>, cells: seq<T>) {
    forall i | 0 <= i < |bases| :: IsShuffle(bases[i], cells) && |bases[i]| == |cells|
  }

  /** After any number of cycles, independently shuffled, every cell has taken every position that often. */
  lemma {:induction false} CyclesBalance<T>(bases: seq<seq<T>>, cells: seq<T>, cell: T, position: nat)
    requires AllShuffles(bases, cells) && cell in cells && position < |cells|
    ensures AtPosition(Cycles(bases), |cells|, cell, position) == |bases|
  {
    if bases != [] {
      var n := |bases| - 1;
      CyclesBalance(bases[..n], cells, cell, position);
      CycleIsLatin(Cycles(bases[..n]), bases[n], cells, cell, position);
    }
  }

  /**
   The distinct rotations that follow add one more appearance at exactly the positions they bring
   the cell to, so no position leads another by more than one.
   */
  lemma ScheduleBalance<T>(bases: seq<seq<T>>, last: seq<T>, rotations: seq<nat>, cells: seq<T>, cell: T, position: nat)
    returns (from: nat)
    requires AllShuffles(bases, cells) && IsShuffle(last, cells) && |last| == |cells|
    requires NoDuplicates(rotations) && forall i | 0 <= i < |rotations| :: rotations[i] < |last|
    requires cell in cells && position < |cells|
    ensures from < |last| && last[from] == cell
    ensures AtPosition(Cycles(bases) + RotationRounds(last, rotations), |cells|, cell, position)
         == |bases| + if BringsTo(|last|, from, position) in rotations then 1 else 0
  {
    from := PositionIn(last, cells, cell);
    CyclesBalance(bases, cells, cell, position);
    RotationsAt(Cycles(bases), last, rotations, from, position);
    DistinctTimes(rotations, BringsTo(|last|, from, position));
  }

  // ----- how often a cell appears at all -----

  lemma ShuffleOnce<T>(base: seq<T>, cells: seq<T>, cell: T)
    requires IsShuffle(base, cells) && cell in cells
    ensures multiset(base)[cell] == 1
  {
    var i :| 0 <= i < |cells| && cells[i] == cell;
    WithoutMultiset(cells, i);
    assert cell !in Without(cells, i);
    assert multiset(Without(cells, i))[cell] == 0;
  }

  lemma {:induction false} RotationAppearances<T>(base: seq<T>, rotations: seq<nat>, cells: seq<T>, cell: T)
    requires IsShuffle(base, cells) && cell in cells
    requires forall i | 0 <= i < |rotations| :: rotations[i] < |base|
    ensures multiset(RotationRounds(base, rotations))[cell] == |rotations|
  {
    if rotations != [] {
      var n := |rotations| - 1;
      RotationAppearances(base, rotations[..n], cells, cell);
      ShuffleOnce(base, cells, cell);
      var k := rotations[n];
      assert base == base[..k] + base[k..];
      assert multiset(Rotated(base, k)) == multiset(base);
    }
  }

  lemma {:induction false} CycleAppearances<T>(bases: seq<seq<T>>, cells: seq<T>, cell: T)
    requires AllShuffles(bases, cells) && cell in cells
    ensures multiset(Cycles(bases))[cell] == |bases| * |cells|
  {
    if bases != [] {
      var n := |bases| - 1;
      CycleAppearances(bases[..n], cells, cell);
      RotationAppearances(bases[n], UpTo(|bases[n]|), cells, cell);
      Rows(n, |cells|);
    }
  }

  lemma ScheduleAppearances<T>(bases: seq<seq<T>>, last: seq<T>, rotations: seq<nat>, cells: seq<T>, cell: T)
    requires AllShuffles(bases, cells) && IsShuffle(last, cells) && |last| == |cells|
    requires forall i | 0 <= i < |rotations| :: rotations[i] < |last|
    requires cell in cells
    ensures multiset(Cycles(bases) + RotationRounds(last, rotations))[cell] == |bases| * |cells| + |rotations|
  {
    CycleAppearances(bases, cells, cell);
    RotationAppearances(last, rotations, cells, cell);
  }

  /** The recorded schedule: nine cells, three cycles, three more rotations. */
  lemma RecordedScheduleBalance<T>(bases: seq<seq<T>>, last: seq<T>, rotations: seq<nat>, cells: seq<T>, cell: T)
    requires |cells| == 9 && |bases| == 3 && |rotations| == 3
    requires AllShuffles(bases, cells) && IsShuffle(last, cells) && |last| == 9
    requires NoDuplicates(rotations) && forall i | 0 <= i < 3 :: rotations[i] < 9
    requires cell in cells
    ensures multiset(Cycles(bases) + RotationRounds(last, rotations))[cell] == 30
    ensures forall position: nat | position < 9 ::
              && AtPosition(Cycles(bases), 9, cell, position) == 3
              && 3 <= AtPosition(Cycles(bases) + RotationRounds(last, rotations), 9, cell, position) <= 4
  {
    ScheduleAppearances(bases, last, rotations, cells, cell);
    forall position: nat | position < 9
      ensures && AtPosition(Cycles(bases), 9, cell, position) == 3
              && 3 <= AtPosition(Cycles(bases) + RotationRounds(last, rotations), 9, cell, position) <= 4
    {
      CyclesBalance(bases, cells, cell, position);
      var from := ScheduleBalance(bases, last, rotations, cells, cell, position);
    }
  }
}
