/**
The strategy-comparison schedule: sequential observer rounds (scenario A), matched
two-lane batches (scenarios B and C) and lock non-acquisition samples (scenario E).
Counts come from any legal protocol configuration; each repetition's shuffle of the
six observer orders is arbitrary.
*/
module StrategySchedule {
  import opened Sequences
  import opened FixedSchedule

  datatype Surface = FrozenBaseline | CurrentUnmeasured | CurrentMeasured

  datatype Scenario = Uncontended | SameOrderPair | DifferentOrderPair | LockNonAcquisition

  datatype SamplePlan = SamplePlan(
    index: nat, block: nat, batch: nat, lane: nat, slot: nat,
    scenario: Scenario, composition: Composition, surface: Surface)

  datatype Config = Config(
    sequentialWarmups: nat, concurrentWarmups: nat, repetitions: nat, samplesA: nat,
    batchesB: nat, batchesC: nat, samplesE: nat, minimumB: nat)

  predicate LegalConfig(c: Config) {
    && c.sequentialWarmups > 0 && c.concurrentWarmups > 0 && c.repetitions > 0
    && c.batchesB > 0 && c.batchesC > 0 && c.samplesE > 0 && c.minimumB > 0
    && c.samplesA == 6 * c.repetitions
    && c.minimumB <= c.batchesB
  }

  // ----- shuffled observer orders -----

  const SixOrders: seq<seq<Surface>> := [
    [FrozenBaseline, CurrentUnmeasured, CurrentMeasured], [FrozenBaseline, CurrentMeasured, CurrentUnmeasured],
    [CurrentUnmeasured, FrozenBaseline, CurrentMeasured], [CurrentUnmeasured, CurrentMeasured, FrozenBaseline],
    [CurrentMeasured, FrozenBaseline, CurrentUnmeasured], [CurrentMeasured, CurrentUnmeasured, FrozenBaseline]]

  predicate IsObserverOrder(o: seq<Surface>) {
    |o| == 3 && o[0] != o[1] && o[0] != o[2] && o[1] != o[2]
  }

  /** One shuffle of the six orders per repetition. */
  predicate AreShuffles(shuffles: seq<seq<seq<Surface>>>) {
    forall r | 0 <= r < |shuffles| :: multiset(shuffles[r]) == multiset(SixOrders)
  }

  /** The observer orders round by round. */
  function Rounds(shuffles: seq<seq<seq<Surface>>>): seq<seq<Surface>> {
    FlatMap((s: seq<seq<Surface>>) => s, shuffles)
  }

  predicate ObserverRounds(rounds: seq<seq<Surface>>) {
    forall r | 0 <= r < |rounds| :: IsObserverOrder(rounds[r])
  }

  lemma ShuffledOrders(shuffle: seq<seq<Surface>>)
    requires multiset(shuffle) == multiset(SixOrders)
    ensures |shuffle| == 6 && ObserverRounds(shuffle)
  {
    PermutationLength(shuffle, SixOrders);
    forall i | 0 <= i < |shuffle| ensures IsObserverOrder(shuffle[i]) {
      assert shuffle[i] in multiset(shuffle);
      assert shuffle[i] in SixOrders;
    }
  }

  lemma {:induction false} RoundsAreObserverOrders(shuffles: seq<seq<seq<Surface>>>)
    requires AreShuffles(shuffles)
    ensures |Rounds(shuffles)| == 6 * |shuffles| && ObserverRounds(Rounds(shuffles))
  {
    if shuffles != [] {
      RoundsAreObserverOrders(shuffles[..|shuffles| - 1]);
      ShuffledOrders(shuffles[|shuffles| - 1]);
    }
  }

  // ----- closed forms -----

  function Alternate(parity: nat): Composition {
    if parity % 2 == 0 then PreOcc else InPessimistic
  }

  /** Composition order alternates from round to round. */
  function CompositionOrder(round: nat): (r: seq<Composition>)
    ensures |r| == 2 && r[0] == Alternate(round) && r[1] == Alternate(round + 1)
  {
    if round % 2 == 0 then [PreOcc, InPessimistic] else [InPessimistic, PreOcc]
  }

  function PlanA(rounds: seq<seq<Surface>>, start: nat, i: nat): SamplePlan
    requires ObserverRounds(rounds) && i < 6 * |rounds|
  {
    var round, within := i / 6, i % 6;
    SamplePlan(start + i, round / 6, round, 0, 0, Uncontended, Alternate(round + within), rounds[round][within / 2])
  }

  function PlansA(rounds: seq<seq<Surface>>, start: nat): (r: seq<SamplePlan>)
    requires ObserverRounds(rounds)
    ensures |r| == 6 * |rounds|
  {
    seq(6 * |rounds|, i requires 0 <= i < 6 * |rounds| => PlanA(rounds, start, i))
  }

  function PlanPair(scenario: Scenario, start: nat, i: nat): SamplePlan {
    var round, batch, lane := i / 4, i / 2, i % 2;
    SamplePlan(start + i, round, batch, lane, if batch % 2 == 0 then lane else 1 - lane,
               scenario, Alternate(round + batch), CurrentMeasured)
  }

  function PlansPair(scenario: Scenario, batches: nat, start: nat): (r: seq<SamplePlan>)
    ensures |r| == 4 * batches
  {
    seq(4 * batches, i requires 0 <= i => PlanPair(scenario, start, i))
  }

  function PlansE(count: nat, start: nat): (r: seq<SamplePlan>)
    ensures |r| == count
  {
    seq(count, i requires 0 <= i => SamplePlan(start + i, i / 5, i, 0, 0, LockNonAcquisition, InPessimistic, CurrentMeasured))
  }

  function RecordedSchedule(c: Config, rounds: seq<seq<Surface>>): seq<SamplePlan>
    requires ObserverRounds(rounds)
  {
    PlansA(rounds, 0) + PartB(c, |rounds|) + PartC(c, |rounds|) + PartE(c, |rounds|)
  }

  function PartB(c: Config, rounds: nat): (r: seq<SamplePlan>)
    ensures |r| == 4 * c.batchesB
  {
    PlansPair(SameOrderPair, c.batchesB, 6 * rounds)
  }

  function PartC(c: Config, rounds: nat): (r: seq<SamplePlan>)
    ensures |r| == 4 * c.batchesC
  {
    PlansPair(DifferentOrderPair, c.batchesC, 6 * rounds + 4 * c.batchesB)
  }

  function PartE(c: Config, rounds: nat): (r: seq<SamplePlan>)
    ensures |r| == c.samplesE
  {
    PlansE(c.samplesE, 6 * rounds + 4 * c.batchesB + 4 * c.batchesC)
  }

  // ----- the generators' loops -----

  method GenerateSequential(shuffles: seq<seq<seq<Surface>>>, start: nat) returns (plans: seq<SamplePlan>)
    requires AreShuffles(shuffles)
    ensures ObserverRounds(Rounds(shuffles)) && plans == PlansA(Rounds(shuffles), start)
  {
    RoundsAreObserverOrders(shuffles);
    ghost var rounds := Rounds(shuffles);
    plans := [];
    for repetition := 0 to |shuffles|
      invariant |plans| == 36 * repetition
      invariant plans == PlansA(rounds, start)[..|plans|]
    {
      ShuffledOrders(shuffles[repetition]);
      for position := 0 to |shuffles[repetition]|
        invariant |plans| == 36 * repetition + 6 * position
        invariant plans == PlansA(rounds, start)[..|plans|]
      {
        RoundAt(shuffles, repetition, position);
        plans := GenerateRound(rounds, shuffles[repetition][position], repetition, position, start, plans);
      }
    }
  }

  lemma {:induction false} RoundAt(shuffles: seq<seq<seq<Surface>>>, repetition: nat, position: nat)
    requires AreShuffles(shuffles) && repetition < |shuffles| && position < 6
    ensures |Rounds(shuffles)| == 6 * |shuffles| && |shuffles[repetition]| == 6
    ensures Rounds(shuffles)[6 * repetition + position] == shuffles[repetition][position]
  {
    RoundsAreObserverOrders(shuffles);
    ShuffledOrders(shuffles[repetition]);
    var n := |shuffles| - 1;
    RoundsAreObserverOrders(shuffles[..n]);
    if repetition < n { RoundAt(shuffles[..n], repetition, position); }
  }

  /** One observer round: its three surfaces, both compositions each, alternating by round. */
  method GenerateRound(ghost rounds: seq<seq<Surface>>, order: seq<Surface>, repetition: nat, position: nat,
                       start: nat, plans0: seq<SamplePlan>)
    returns (plans: seq<SamplePlan>)
    requires ObserverRounds(rounds) && position < 6 && 6 * repetition + position < |rounds|
    requires order == rounds[6 * repetition + position]
    requires |plans0| == 36 * repetition + 6 * position && plans0 == PlansA(rounds, start)[..|plans0|]
    ensures |plans| == |plans0| + 6 && plans == PlansA(rounds, start)[..|plans|]
  {
    plans := plans0;
    var round := repetition * 6 + position;
    for s := 0 to |order|
      invariant |plans| == |plans0| + 2 * s
      invariant plans == PlansA(rounds, start)[..|plans|]
    {
      for k := 0 to 2
        invariant |plans| == |plans0| + 2 * s + k
        invariant plans == PlansA(rounds, start)[..|plans|]
      {
        var plan := NextSequential(rounds, start, |plans|, repetition, round, order, s, k);
        PrefixGrows(PlansA(rounds, start), plans, plan);
        plans := plans + [plan];
      }
    }
  }

  method NextSequential(ghost rounds: seq<seq<Surface>>, start: nat, i: nat, repetition: nat, round: nat,
                        order: seq<Surface>, s: nat, k: nat)
    returns (plan: SamplePlan)
    requires ObserverRounds(rounds) && round < |rounds| && order == rounds[round] && s < 3 && k < 2
    requires repetition == round / 6 && i == 6 * round + 2 * s + k
    ensures plan == PlanA(rounds, start, i)
  {
    var compositions := CompositionOrder(round);
    PlanAInLoop(rounds, start, round, s, k);
    plan := SamplePlan(start + i, repetition, round, 0, 0, Uncontended, compositions[k], order[s]);
  }

  lemma PlanAInLoop(rounds: seq<seq<Surface>>, start: nat, round: nat, s: nat, k: nat)
    requires ObserverRounds(rounds) && round < |rounds| && s < 3 && k < 2
    ensures PlanA(rounds, start, 6 * round + 2 * s + k)
         == SamplePlan(start + 6 * round + 2 * s + k, round / 6, round, 0, 0, Uncontended, Alternate(round + k), rounds[round][s])
  {
    var i := 6 * round + 2 * s + k;
    assert i / 6 == round && i % 6 == 2 * s + k;
    assert (2 * s + k) / 2 == s;
    assert (round + 2 * s + k) % 2 == (round + k) % 2;
  }

  method GenerateConcurrent(scenario: Scenario, batches: nat, start: nat) returns (plans: seq<SamplePlan>)
    ensures plans == PlansPair(scenario, batches, start)
  {
    plans := [];
    for round := 0 to batches
      invariant |plans| == 4 * round
      invariant plans == PlansPair(scenario, batches, start)[..|plans|]
    {
      for k := 0 to 2
        invariant |plans| == 4 * round + 2 * k
        invariant plans == PlansPair(scenario, batches, start)[..|plans|]
      {
        for lane := 0 to 2
          invariant |plans| == 4 * round + 2 * k + lane
          invariant plans == PlansPair(scenario, batches, start)[..|plans|]
        {
          var plan := NextConcurrent(scenario, start, |plans|, round, k, lane);
          PrefixGrows(PlansPair(scenario, batches, start), plans, plan);
          plans := plans + [plan];
        }
      }
    }
  }

  method NextConcurrent(scenario: Scenario, start: nat, i: nat, round: nat, k: nat, lane: nat) returns (plan: SamplePlan)
    requires k < 2 && lane < 2 && i == 4 * round + 2 * k + lane
    ensures plan == PlanPair(scenario, start, i)
  {
    var compositions := CompositionOrder(round);
    var batch := round * 2 + k;
    var slots := if batch % 2 == 0 then [0, 1] else [1, 0];
    PlanPairInLoop(scenario, start, round, k, lane);
    plan := SamplePlan(start + i, round, batch, lane, slots[lane], scenario, compositions[k], CurrentMeasured);
  }

  lemma PlanPairInLoop(scenario: Scenario, start: nat, round: nat, k: nat, lane: nat)
    requires k < 2 && lane < 2
    ensures PlanPair(scenario, start, 4 * round + 2 * k + lane)
         == SamplePlan(start + 4 * round + 2 * k + lane, round, 2 * round + k, lane,
                       if (2 * round + k) % 2 == 0 then lane else 1 - lane, scenario, Alternate(round + k), CurrentMeasured)
  {
    var i := 4 * round + 2 * k + lane;
    assert i / 4 == round && i / 2 == 2 * round + k && i % 2 == lane;
    assert (round + (2 * round + k)) % 2 == (round + k) % 2;
  }

  method GenerateRecordedSchedule(c: Config, shuffles: seq<seq<seq<Surface>>>) returns (plans: seq<SamplePlan>)
    requires LegalConfig(c) && AreShuffles(shuffles) && |shuffles| == c.repetitions
    ensures ObserverRounds(Rounds(shuffles)) && plans == RecordedSchedule(c, Rounds(shuffles))
  {
    RoundsAreObserverOrders(shuffles);
    var sequential := GenerateSequential(shuffles, 0);
    var same := GenerateConcurrent(SameOrderPair, c.batchesB, |sequential|);
    var different := GenerateConcurrent(DifferentOrderPair, c.batchesC, |sequential| + |same|);
    plans := sequential + same + different + PlansE(c.samplesE, |sequential| + |same| + |different|);
  }

  /** Sample indexes run 0, 1, 2, … through all four parts. */
  lemma IndexIsPosition(c: Config, rounds: seq<seq<Surface>>, i: nat)
    requires ObserverRounds(rounds) && i < |RecordedSchedule(c, rounds)|
    ensures RecordedSchedule(c, rounds)[i].index == i
  {
  }

  // ----- balance -----

  predicate Is(p: SamplePlan, scenario: Scenario, surface: Surface, composition: Composition) {
    p.scenario == scenario && p.surface == surface && p.composition == composition
  }

  function Count(plans: seq<SamplePlan>, scenario: Scenario, surface: Surface, composition: Composition): nat {
    if plans == [] then 0
    else
      var n := |plans| - 1;
      Count(plans[..n], scenario, surface, composition) + if Is(plans[n], scenario, surface, composition) then 1 else 0
  }

  lemma {:induction false} CountIs(plans: seq<SamplePlan>, scenario: Scenario, surface: Surface, composition: Composition)
    ensures Count(plans, scenario, surface, composition)
         == |Having(plans, (p: SamplePlan) => (p.scenario, p.surface, p.composition) == (scenario, surface, composition))|
  {
    CountHaving(plans, scenario, surface, composition,
                (p: SamplePlan) => (p.scenario, p.surface, p.composition) == (scenario, surface, composition));
  }

  lemma {:induction false} CountHaving(plans: seq<SamplePlan>, scenario: Scenario, surface: Surface, composition: Composition,
                                       chosen: SamplePlan -> bool)
    requires forall p :: chosen(p) <==> Is(p, scenario, surface, composition)
    ensures Count(plans, scenario, surface, composition) == |Having(plans, chosen)|
  {
    if plans == [] {
      assert Having(plans, chosen) == {};
    } else {
      CountHaving(plans[..|plans| - 1], scenario, surface, composition, chosen);
      HavingNext(plans, chosen);
    }
  }

  lemma {:induction false} CountConcat(s: seq<SamplePlan>, t: seq<SamplePlan>, scenario: Scenario, surface: Surface, composition: Composition)
    ensures Count(s + t, scenario, surface, composition)
         == Count(s, scenario, surface, composition) + Count(t, scenario, surface, composition)
  {
    if t == [] {
      assert s + t == s;
    } else {
      assert (s + t)[..|s + t| - 1] == s + t[..|t| - 1];
      CountConcat(s, t[..|t| - 1], scenario, surface, composition);
    }
  }

  lemma {:induction false} CountNone(plans: seq<SamplePlan>, scenario: Scenario, surface: Surface, composition: Composition)
    requires forall i | 0 <= i < |plans| :: !Is(plans[i], scenario, surface, composition)
    ensures Count(plans, scenario, surface, composition) == 0
  {
    if plans != [] { CountNone(plans[..|plans| - 1], scenario, surface, composition); }
  }

  lemma {:induction false} CountEach(plans: seq<SamplePlan>, scenario: Scenario, surface: Surface, composition: Composition)
    requires forall i | 0 <= i < |plans| :: Is(plans[i], scenario, surface, composition)
    ensures Count(plans, scenario, surface, composition) == |plans|
  {
    if plans != [] { CountEach(plans[..|plans| - 1], scenario, surface, composition); }
  }

  lemma CountTwo(p: SamplePlan, q: SamplePlan, scenario: Scenario, surface: Surface, composition: Composition)
    ensures Count([p, q], scenario, surface, composition)
         == (if Is(p, scenario, surface, composition) then 1 else 0) + (if Is(q, scenario, surface, composition) then 1 else 0)
  {
    assert [p, q][..1] == [p] && [p][..0] == [];
    assert Count([p], scenario, surface, composition) == if Is(p, scenario, surface, composition) then 1 else 0;
  }

  /** The two plans of one surface in one round: one of each composition. */
  lemma CountSurface(rounds: seq<seq<Surface>>, start: nat, round: nat, s: nat, surface: Surface, composition: Composition)
    requires ObserverRounds(rounds) && round < |rounds| && s < 3
    ensures var i := 6 * round + 2 * s;
            Count([PlanA(rounds, start, i), PlanA(rounds, start, i + 1)], Uncontended, surface, composition)
            == if rounds[round][s] == surface then 1 else 0
  {
    var i := 6 * round + 2 * s;
    PlanAInLoop(rounds, start, round, s, 0);
    PlanAInLoop(rounds, start, round, s, 1);
    CountTwo(PlanA(rounds, start, i), PlanA(rounds, start, i + 1), Uncontended, surface, composition);
  }

  lemma CountGrows(plans: seq<SamplePlan>, i: nat, scenario: Scenario, surface: Surface, composition: Composition)
    requires i + 2 <= |plans|
    ensures Count(plans[..i + 2], scenario, surface, composition)
         == Count(plans[..i], scenario, surface, composition) + Count([plans[i], plans[i + 1]], scenario, surface, composition)
  {
    assert plans[..i + 2] == plans[..i] + [plans[i], plans[i + 1]];
    CountConcat(plans[..i], [plans[i], plans[i + 1]], scenario, surface, composition);
  }

  lemma CountRound(rounds: seq<seq<Surface>>, start: nat, round: nat, surface: Surface, composition: Composition)
    requires ObserverRounds(rounds) && round < |rounds|
    ensures Count(PlansA(rounds, start)[..6 * round + 6], Uncontended, surface, composition)
         == Count(PlansA(rounds, start)[..6 * round], Uncontended, surface, composition) + 1
  {
    var plans, i := PlansA(rounds, start), 6 * round;
    CountGrows(plans, i, Uncontended, surface, composition);
    CountGrows(plans, i + 2, Uncontended, surface, composition);
    CountGrows(plans, i + 4, Uncontended, surface, composition);
    CountSurface(rounds, start, round, 0, surface, composition);
    CountSurface(rounds, start, round, 1, surface, composition);
    CountSurface(rounds, start, round, 2, surface, composition);
    OnePosition(rounds[round], surface);
  }

  lemma OnePosition(order: seq<Surface>, surface: Surface)
    requires IsObserverOrder(order)
    ensures (if order[0] == surface then 1 else 0) + (if order[1] == surface then 1 else 0)
            + (if order[2] == surface then 1 else 0) == 1
  {
  }

  lemma {:induction false} CountA(rounds: seq<seq<Surface>>, start: nat, n: nat, surface: Surface, composition: Composition)
    requires ObserverRounds(rounds) && n <= |rounds|
    ensures Count(PlansA(rounds, start)[..6 * n], Uncontended, surface, composition) == n
  {
    if n > 0 {
      CountA(rounds, start, n - 1, surface, composition);
      CountRound(rounds, start, n - 1, surface, composition);
      assert 6 * n == 6 * (n - 1) + 6;
    }
  }

  lemma CountFour(plans: seq<SamplePlan>, i: nat, scenario: Scenario, surface: Surface, composition: Composition)
    requires i + 4 <= |plans|
    requires Is(plans[i], scenario, surface, composition) <==> Is(plans[i + 1], scenario, surface, composition)
    requires Is(plans[i + 2], scenario, surface, composition) <==> Is(plans[i + 3], scenario, surface, composition)
    requires Is(plans[i], scenario, surface, composition) <==> !Is(plans[i + 2], scenario, surface, composition)
    ensures Count(plans[..i + 4], scenario, surface, composition) == Count(plans[..i], scenario, surface, composition) + 2
  {
    CountGrows(plans, i, scenario, surface, composition);
    CountGrows(plans, i + 2, scenario, surface, composition);
    CountTwo(plans[i], plans[i + 1], scenario, surface, composition);
    CountTwo(plans[i + 2], plans[i + 3], scenario, surface, composition);
  }

  lemma CountPairRound(scenario: Scenario, batches: nat, start: nat, round: nat, composition: Composition)
    requires round < batches
    ensures Count(PlansPair(scenario, batches, start)[..4 * round + 4], scenario, CurrentMeasured, composition)
         == Count(PlansPair(scenario, batches, start)[..4 * round], scenario, CurrentMeasured, composition) + 2
  {
    var plans, i := PlansPair(scenario, batches, start), 4 * round;
    PairRoundKinds(scenario, start, round, composition);
    assert plans[i] == PlanPair(scenario, start, i) && plans[i + 1] == PlanPair(scenario, start, i + 1);
    assert plans[i + 2] == PlanPair(scenario, start, i + 2) && plans[i + 3] == PlanPair(scenario, start, i + 3);
    CountFour(plans, i, scenario, CurrentMeasured, composition);
  }

  /** The first two plans of a matched round run one composition, the other two the other. */
  lemma PairRoundKinds(scenario: Scenario, start: nat, round: nat, composition: Composition)
    ensures var i := 4 * round;
            && Is(PlanPair(scenario, start, i), scenario, CurrentMeasured, composition)
               == Is(PlanPair(scenario, start, i + 1), scenario, CurrentMeasured, composition)
            && Is(PlanPair(scenario, start, i + 2), scenario, CurrentMeasured, composition)
               == Is(PlanPair(scenario, start, i + 3), scenario, CurrentMeasured, composition)
            && Is(PlanPair(scenario, start, i), scenario, CurrentMeasured, composition)
               != Is(PlanPair(scenario, start, i + 2), scenario, CurrentMeasured, composition)
  {
    PairPlanKind(scenario, start, round, 0, 0, composition);
    PairPlanKind(scenario, start, round, 0, 1, composition);
    PairPlanKind(scenario, start, round, 1, 0, composition);
    PairPlanKind(scenario, start, round, 1, 1, composition);
  }

  lemma PairPlanKind(scenario: Scenario, start: nat, round: nat, k: nat, lane: nat, composition: Composition)
    requires k < 2 && lane < 2
    ensures Is(PlanPair(scenario, start, 4 * round + 2 * k + lane), scenario, CurrentMeasured, composition)
            <==> ((round % 2 == 0) == (k == 0)) == (composition == PreOcc)
  {
    PlanPairInLoop(scenario, start, round, k, lane);
  }

  lemma {:induction false} CountPair(scenario: Scenario, batches: nat, start: nat, n: nat, composition: Composition)
    requires n <= batches
    ensures Count(PlansPair(scenario, batches, start)[..4 * n], scenario, CurrentMeasured, composition) == 2 * n
  {
    if n > 0 {
      CountPair(scenario, batches, start, n - 1, composition);
      CountPairRound(scenario, batches, start, n - 1, composition);
      assert 4 * n == 4 * (n - 1) + 4;
    }
  }

  /** The balance the validator asks for. */
  ghost predicate Balanced(c: Config, plans: seq<SamplePlan>) {
    && (forall surface, composition :: Count(plans, Uncontended, surface, composition) == c.samplesA)
    && (forall composition :: Count(plans, SameOrderPair, CurrentMeasured, composition) == 2 * c.batchesB)
    && (forall composition :: Count(plans, DifferentOrderPair, CurrentMeasured, composition) == 2 * c.batchesC)
    && Count(plans, LockNonAcquisition, CurrentMeasured, InPessimistic) == c.samplesE
  }

  lemma CountParts(c: Config, rounds: seq<seq<Surface>>, scenario: Scenario, surface: Surface, composition: Composition)
    requires ObserverRounds(rounds)
    ensures Count(RecordedSchedule(c, rounds), scenario, surface, composition)
         == Count(PlansA(rounds, 0), scenario, surface, composition)
            + Count(PartB(c, |rounds|), scenario, surface, composition)
            + Count(PartC(c, |rounds|), scenario, surface, composition)
            + Count(PartE(c, |rounds|), scenario, surface, composition)
  {
    CountConcatFour(PlansA(rounds, 0), PartB(c, |rounds|), PartC(c, |rounds|), PartE(c, |rounds|),
                    scenario, surface, composition);
  }

  lemma CountConcatFour(p: seq<SamplePlan>, q: seq<SamplePlan>, r: seq<SamplePlan>, t: seq<SamplePlan>,
                        scenario: Scenario, surface: Surface, composition: Composition)
    ensures Count(p + q + r + t, scenario, surface, composition)
         == Count(p, scenario, surface, composition) + Count(q, scenario, surface, composition)
            + Count(r, scenario, surface, composition) + Count(t, scenario, surface, composition)
  {
    CountConcat(p, q, scenario, surface, composition);
    CountConcat(p + q, r, scenario, surface, composition);
    CountConcat(p + q + r, t, scenario, surface, composition);
  }

  lemma CountInA(rounds: seq<seq<Surface>>, scenario: Scenario, surface: Surface, composition: Composition)
    requires ObserverRounds(rounds)
    ensures Count(PlansA(rounds, 0), scenario, surface, composition) == if scenario == Uncontended then |rounds| else 0
  {
    if scenario == Uncontended {
      CountA(rounds, 0, |rounds|, surface, composition);
      assert PlansA(rounds, 0)[..6 * |rounds|] == PlansA(rounds, 0);
    } else {
      CountNone(PlansA(rounds, 0), scenario, surface, composition);
    }
  }

  lemma CountOtherPair(other: Scenario, batches: nat, start: nat, scenario: Scenario, surface: Surface, composition: Composition)
    requires other != scenario
    ensures Count(PlansPair(other, batches, start), scenario, surface, composition) == 0
  {
    CountNone(PlansPair(other, batches, start), scenario, surface, composition);
  }

  lemma CountWholePair(scenario: Scenario, batches: nat, start: nat, composition: Composition)
    ensures Count(PlansPair(scenario, batches, start), scenario, CurrentMeasured, composition) == 2 * batches
  {
    CountPair(scenario, batches, start, batches, composition);
    assert PlansPair(scenario, batches, start)[..4 * batches] == PlansPair(scenario, batches, start);
  }

  lemma CountInB(c: Config, rounds: nat, scenario: Scenario, surface: Surface, composition: Composition)
    ensures scenario != SameOrderPair ==> Count(PartB(c, rounds), scenario, surface, composition) == 0
    ensures Count(PartB(c, rounds), SameOrderPair, CurrentMeasured, composition) == 2 * c.batchesB
  {
    if scenario != SameOrderPair {
      CountOtherPair(SameOrderPair, c.batchesB, 6 * rounds, scenario, surface, composition);
    }
    CountWholePair(SameOrderPair, c.batchesB, 6 * rounds, composition);
  }

  lemma CountInC(c: Config, rounds: nat, scenario: Scenario, surface: Surface, composition: Composition)
    ensures scenario != DifferentOrderPair ==> Count(PartC(c, rounds), scenario, surface, composition) == 0
    ensures Count(PartC(c, rounds), DifferentOrderPair, CurrentMeasured, composition) == 2 * c.batchesC
  {
    var start := 6 * rounds + 4 * c.batchesB;
    if scenario != DifferentOrderPair {
      CountOtherPair(DifferentOrderPair, c.batchesC, start, scenario, surface, composition);
    }
    CountWholePair(DifferentOrderPair, c.batchesC, start, composition);
  }

  lemma CountInE(c: Config, rounds: nat, scenario: Scenario, surface: Surface, composition: Composition)
    ensures scenario != LockNonAcquisition ==> Count(PartE(c, rounds), scenario, surface, composition) == 0
    ensures Count(PartE(c, rounds), LockNonAcquisition, CurrentMeasured, InPessimistic) == c.samplesE
  {
    if scenario != LockNonAcquisition { CountNone(PartE(c, rounds), scenario, surface, composition); }
    CountEach(PartE(c, rounds), LockNonAcquisition, CurrentMeasured, InPessimistic);
  }

  lemma CountsA(c: Config, rounds: seq<seq<Surface>>, surface: Surface, composition: Composition)
    requires ObserverRounds(rounds)
    ensures Count(RecordedSchedule(c, rounds), Uncontended, surface, composition) == |rounds|
  {
    CountParts(c, rounds, Uncontended, surface, composition);
    CountInA(rounds, Uncontended, surface, composition);
    CountInB(c, |rounds|, Uncontended, surface, composition);
    CountInC(c, |rounds|, Uncontended, surface, composition);
    CountInE(c, |rounds|, Uncontended, surface, composition);
  }

  lemma CountsPairs(c: Config, rounds: seq<seq<Surface>>, composition: Composition)
    requires ObserverRounds(rounds)
    ensures Count(RecordedSchedule(c, rounds), SameOrderPair, CurrentMeasured, composition) == 2 * c.batchesB
    ensures Count(RecordedSchedule(c, rounds), DifferentOrderPair, CurrentMeasured, composition) == 2 * c.batchesC
  {
    CountsPair(c, rounds, SameOrderPair, composition);
    CountsPair(c, rounds, DifferentOrderPair, composition);
  }

  lemma CountsPair(c: Config, rounds: seq<seq<Surface>>, scenario: Scenario, composition: Composition)
    requires ObserverRounds(rounds) && (scenario == SameOrderPair || scenario == DifferentOrderPair)
    ensures Count(RecordedSchedule(c, rounds), scenario, CurrentMeasured, composition)
         == 2 * if scenario == SameOrderPair then c.batchesB else c.batchesC
  {
    CountParts(c, rounds, scenario, CurrentMeasured, composition);
    CountInA(rounds, scenario, CurrentMeasured, composition);
    CountInB(c, |rounds|, scenario, CurrentMeasured, composition);
    CountInC(c, |rounds|, scenario, CurrentMeasured, composition);
    CountInE(c, |rounds|, scenario, CurrentMeasured, composition);
  }

  lemma CountsE(c: Config, rounds: seq<seq<Surface>>)
    requires ObserverRounds(rounds)
    ensures Count(RecordedSchedule(c, rounds), LockNonAcquisition, CurrentMeasured, InPessimistic) == c.samplesE
  {
    CountParts(c, rounds, LockNonAcquisition, CurrentMeasured, InPessimistic);
    CountInA(rounds, LockNonAcquisition, CurrentMeasured, InPessimistic);
    CountInB(c, |rounds|, LockNonAcquisition, CurrentMeasured, InPessimistic);
    CountInC(c, |rounds|, LockNonAcquisition, CurrentMeasured, InPessimistic);
    CountInE(c, |rounds|, LockNonAcquisition, CurrentMeasured, InPessimistic);
  }

  /** Every legal configuration under every shuffle gives a balanced schedule. */
  lemma ScheduleIsBalanced(c: Config, shuffles: seq<seq<seq<Surface>>>)
    requires LegalConfig(c) && AreShuffles(shuffles) && |shuffles| == c.repetitions
    ensures ObserverRounds(Rounds(shuffles)) && Balanced(c, RecordedSchedule(c, Rounds(shuffles)))
  {
    RoundsAreObserverOrders(shuffles);
    var rounds := Rounds(shuffles);
    forall surface, composition
      ensures Count(RecordedSchedule(c, rounds), Uncontended, surface, composition) == c.samplesA
    {
      CountsA(c, rounds, surface, composition);
    }
    forall composition
      ensures Count(RecordedSchedule(c, rounds), SameOrderPair, CurrentMeasured, composition) == 2 * c.batchesB
      ensures Count(RecordedSchedule(c, rounds), DifferentOrderPair, CurrentMeasured, composition) == 2 * c.batchesC
    {
      CountsPairs(c, rounds, composition);
    }
    CountsE(c, rounds);
  }
}
