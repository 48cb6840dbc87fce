/** What a legal configuration guarantees of a whole strategy-comparison run. */
module StrategyTheorems {
  import opened Wrappers
  import opened Sequences
  import opened Ordering
  import opened FixedSchedule
  import opened RunRecords
  import opened Reconciliation
  import opened StrategySchedule
  import opened StrategyRun
  import opened StrategyValidation
  import opened StrategyPairs

  // ----- partners in the schedule -----

  /** The other sample of a matched block stands next to it. */
  function Partner(i: nat): nat {
    if i % 2 == 0 then i + 1 else i - 1
  }

  lemma PartnerA(c: Config, rounds: seq<seq<Surface>>, i: nat)
    requires ObserverRounds(rounds) && i < 6 * |rounds|
    ensures var plans, j := RecordedSchedule(c, rounds), Partner(i);
            && j < 6 * |rounds| <= |plans|
            && plans[i].scenario == plans[j].scenario == Uncontended
            && plans[i].batch == plans[j].batch && plans[i].surface == plans[j].surface
            && plans[i].composition != plans[j].composition
  {
    PlanAt(c, rounds, i);
    PlanAt(c, rounds, Partner(i));
    PartnerPlans(rounds, i);
  }

  lemma SplitIndex(i: nat)
    ensures i % 6 / 2 < 3
    ensures i == 6 * (i / 6) + 2 * (i % 6 / 2) + i % 2
    ensures Partner(i) == 6 * (i / 6) + 2 * (i % 6 / 2) + (1 - i % 2)
  {
  }

  lemma PartnerPlans(rounds: seq<seq<Surface>>, i: nat)
    requires ObserverRounds(rounds) && i < 6 * |rounds|
    ensures Partner(i) < 6 * |rounds|
    ensures var p, q := PlanA(rounds, 0, i), PlanA(rounds, 0, Partner(i));
            && p.scenario == q.scenario == Uncontended && p.batch == q.batch && p.surface == q.surface
            && p.composition != q.composition
  {
    SplitIndex(i);
    PlanAInLoop(rounds, 0, i / 6, i % 6 / 2, i % 2);
    PlanAInLoop(rounds, 0, i / 6, i % 6 / 2, 1 - i % 2);
  }

  lemma PartnerPair(c: Config, rounds: seq<seq<Surface>>, i: nat)
    requires ObserverRounds(rounds) && i < |RecordedSchedule(c, rounds)|
    requires IsPair(RecordedSchedule(c, rounds)[i].scenario)
    ensures var plans, j := RecordedSchedule(c, rounds), Partner(i);
            && j < |plans| && PairOk(plans[i], plans[j])
  {
    PairsInside(c, rounds, i);
    if i % 2 == 0 {
      BoundaryPair(c, rounds, i);
    } else {
      PreviousPair(c, rounds, i);
    }
  }

  lemma OddAbove(r: nat, i: nat)
    requires 6 * r <= i && i % 2 == 1
    ensures 6 * r <= i - 1 && (i - 1) % 2 == 0
  {
    assert 6 * r == 2 * (3 * r) && i == 2 * (i / 2) + 1;
  }

  lemma PreviousPair(c: Config, rounds: seq<seq<Surface>>, i: nat)
    requires ObserverRounds(rounds) && i % 2 == 1 && i < |RecordedSchedule(c, rounds)|
    requires 6 * |rounds| <= i < 6 * |rounds| + 4 * c.batchesB + 4 * c.batchesC
    ensures PairOk(RecordedSchedule(c, rounds)[i], RecordedSchedule(c, rounds)[i - 1])
  {
    var j := i - 1;
    OddAbove(|rounds|, i);
    if j < 6 * |rounds| + 4 * c.batchesB {
      PairInB(c, rounds, j);
    } else {
      PairInC(c, rounds, j);
    }
    PairSymmetric(RecordedSchedule(c, rounds)[j], RecordedSchedule(c, rounds)[i]);
  }

  lemma PairSymmetric(p: SamplePlan, q: SamplePlan)
    requires PairOk(p, q)
    ensures PairOk(q, p)
  {
    assert {q.lane, p.lane} == {p.lane, q.lane} && {q.slot, p.slot} == {p.slot, q.slot};
  }

  /** No two sequential plans share batch, surface and composition. */
  lemma SequentialDistinct(c: Config, rounds: seq<seq<Surface>>, i: nat, j: nat)
    requires ObserverRounds(rounds) && i < j < 6 * |rounds|
    ensures var plans := RecordedSchedule(c, rounds);
            && |plans| >= 6 * |rounds|
            && (plans[i].batch != plans[j].batch || plans[i].surface != plans[j].surface
                || plans[i].composition != plans[j].composition)
  {
    PlanAt(c, rounds, i);
    PlanAt(c, rounds, j);
    if i / 6 == j / 6 { DistinctInRound(rounds, i, j); }
  }

  lemma DistinctInRound(rounds: seq<seq<Surface>>, i: nat, j: nat)
    requires ObserverRounds(rounds) && i < j < 6 * |rounds| && i / 6 == j / 6
    ensures var p, q := PlanA(rounds, 0, i), PlanA(rounds, 0, j);
            p.surface != q.surface || p.composition != q.composition
  {
    var round := i / 6;
    SplitIndex(i);
    SplitIndex(j);
    PlanAInLoop(rounds, 0, round, i % 6 / 2, i % 2);
    PlanAInLoop(rounds, 0, round, j % 6 / 2, j % 2);
    DistinctInOrder(rounds[round], i % 6 / 2, j % 6 / 2);
    if i % 2 != j % 2 { AlternateDiffers(round, i % 2, j % 2); }
  }

  lemma AlternateDiffers(round: nat, k: nat, l: nat)
    requires k < 2 && l < 2 && k != l
    ensures Alternate(round + k) != Alternate(round + l)
  {
  }

  lemma DistinctInOrder(order: seq<Surface>, s: nat, t: nat)
    requires IsObserverOrder(order) && s < 3 && t < 3
    ensures order[s] == order[t] <==> s == t
  {
  }

  lemma SequentialIffEarly(c: Config, rounds: seq<seq<Surface>>, i: nat)
    requires ObserverRounds(rounds) && i < |RecordedSchedule(c, rounds)|
    ensures RecordedSchedule(c, rounds)[i].scenario == Uncontended <==> i < 6 * |rounds|
  {
    PlanAt(c, rounds, i);
  }

  // ----- the validator on a generated schedule -----

  lemma PlansPin(c: Config, rounds: seq<seq<Surface>>)
    requires ObserverRounds(rounds)
    ensures var plans := RecordedSchedule(c, rounds);
            && DistinctBy(plans, PlanKey)
            && Pins(plans, PlanKey, SampleKey, SampleIndex, SampleAgrees)
  {
    var plans := RecordedSchedule(c, rounds);
    forall i | 0 <= i < |plans| ensures plans[i].index == i { IndexIsPosition(c, rounds, i); }
    forall i, j | 0 <= i < j < |plans| ensures PlanKey(plans[i]) != PlanKey(plans[j]) {
      assert PlanKey(plans[i])[0].number != PlanKey(plans[j])[0].number;
    }
  }

  lemma KeysAreIndexes(samples: seq<Sample>)
    ensures DistinctBy(samples, SampleKey) <==> DistinctBy(samples, SampleIndex)
  {
    forall i, j | 0 <= i < j < |samples|
      ensures SampleKey(samples[i]) != SampleKey(samples[j]) <==> SampleIndex(samples[i]) != SampleIndex(samples[j])
    {
      if SampleKey(samples[i]) == SampleKey(samples[j]) {
        assert SampleKey(samples[i])[0].number == SampleKey(samples[j])[0].number;
      }
    }
  }

  lemma SoundByKey(plans: seq<SamplePlan>, samples: seq<Sample>)
    requires DistinctBy(plans, PlanKey) && Pins(plans, PlanKey, SampleKey, SampleIndex, SampleAgrees)
    requires SamplesMatch(plans, samples)
    ensures (forall k | k in Dictionary(samples, SampleKey) && k in Dictionary(plans, PlanKey) ::
               SampleIssues(Dictionary(plans, PlanKey)[k], Dictionary(samples, SampleKey)[k]) == [])
            <==> AllSound(plans, samples)
  {
    InspectedByIndex(plans, samples, PlanKey, SampleKey, SampleIndex, SampleAgrees, SampleIssues);
    forall i | 0 <= i < |samples| ensures SampleIndex(samples[i]) == samples[i].index < |plans| { }
  }

  lemma SoundAtKey(plans: seq<SamplePlan>, samples: seq<Sample>, k: Key)
    requires DistinctBy(plans, PlanKey) && Pins(plans, PlanKey, SampleKey, SampleIndex, SampleAgrees)
    requires SamplesMatch(plans, samples) && AllSound(plans, samples)
    requires k in Dictionary(samples, SampleKey) && k in Dictionary(plans, PlanKey)
    ensures SampleIssues(Dictionary(plans, PlanKey)[k], Dictionary(samples, SampleKey)[k]) == []
  {
    SoundByKey(plans, samples);
  }

  lemma ReconcilesEnumerates(plans: seq<SamplePlan>, samples: seq<Sample>)
    requires DistinctBy(plans, PlanKey) && Pins(plans, PlanKey, SampleKey, SampleIndex, SampleAgrees)
    requires Reconciles(plans, samples)
    ensures SamplesMatch(plans, samples)
  {
    KeysAreIndexes(samples);
    ReconciledEnumerates(plans, samples, PlanKey, SampleKey, SampleIndex, SampleAgrees);
  }

  lemma MatchIsReconciled(plans: seq<SamplePlan>, samples: seq<Sample>)
    requires DistinctBy(plans, PlanKey) && Pins(plans, PlanKey, SampleKey, SampleIndex, SampleAgrees)
    requires SamplesMatch(plans, samples)
    ensures Reconciled(plans, samples, PlanKey, SampleKey, SampleIndex, SampleAgrees)
  {
    EnumeratesReconciled(plans, samples, PlanKey, SampleKey, SampleIndex, SampleAgrees);
  }

  lemma ReconcilesIff(c: Config, rounds: seq<seq<Surface>>, samples: seq<Sample>)
    requires ObserverRounds(rounds)
    ensures var plans := RecordedSchedule(c, rounds);
            Reconciles(plans, samples) <==> SamplesMatch(plans, samples) && AllSound(plans, samples)
  {
    var plans := RecordedSchedule(c, rounds);
    PlansPin(c, rounds);
    PlansReconcileIff(plans, samples);
  }

  lemma PlansReconcileIff(plans: seq<SamplePlan>, samples: seq<Sample>)
    requires DistinctBy(plans, PlanKey) && Pins(plans, PlanKey, SampleKey, SampleIndex, SampleAgrees)
    ensures Reconciles(plans, samples) <==> SamplesMatch(plans, samples) && AllSound(plans, samples)
  {
    if Reconciles(plans, samples) {
      ReconcilesEnumerates(plans, samples);
      SoundByKey(plans, samples);
    }
    if SamplesMatch(plans, samples) && AllSound(plans, samples) {
      MatchIsReconciled(plans, samples);
      SoundByKey(plans, samples);
      var found, planned := Dictionary(samples, SampleKey), Dictionary(plans, PlanKey);
      assert DistinctBy(samples, SampleKey);
      assert forall k :: k in planned <==> k in found;
      forall k | k in found && k in planned
        ensures SampleAgrees(planned[k], found[k]) && SampleIssues(planned[k], found[k]) == []
      {
        SoundAtKey(plans, samples, k);
      }
    }
  }

  /** The sample recorded for a plan. */
  lemma SampleFor(c: Config, rounds: seq<seq<Surface>>, samples: seq<Sample>, i: nat) returns (j: nat)
    requires ObserverRounds(rounds) && SamplesMatch(RecordedSchedule(c, rounds), samples)
    requires i < |RecordedSchedule(c, rounds)|
    ensures j < |samples| && samples[j].index == i && SampleAgrees(RecordedSchedule(c, rounds)[i], samples[j])
  {
    var plans := RecordedSchedule(c, rounds);
    PlansPin(c, rounds);
    IndexIsPosition(c, rounds, i);
    EnumeratesKeys(plans, samples, PlanKey, SampleKey, SampleIndex, SampleAgrees);
    assert Image(PlanKey, plans)[i] in ToSet(Image(PlanKey, plans));
    assert PlanKey(plans[i]) in ToSet(Image(SampleKey, samples));
    j :| j < |samples| && Image(SampleKey, samples)[j] == PlanKey(plans[i]);
    assert SampleKey(samples[j])[0].number == PlanKey(plans[i])[0].number;
    assert SampleIndex(samples[j]) == i;
    assert SampleAgrees(plans[SampleIndex(samples[j])], samples[j]);
  }

  /** Where the i-th sample of a run stands: its part of the schedule, and its place there by arithmetic. */
  predicate Stands(s: Sample, c: Config, rounds: seq<seq<Surface>>, i: nat)
    requires ObserverRounds(rounds)
  {
    var a, b, d := 6 * |rounds|, 4 * c.batchesB, 4 * c.batchesC;
    && s.index == i
    && if i < a then
         && (s.scenario, s.block, s.batch, s.lane) == (Uncontended, i / 6 / 6, i / 6, 0)
         && s.surface == rounds[i / 6][i % 6 / 2]
         && s.composition == (if (i / 6 + i % 6) % 2 == 0 then PreOcc else InPessimistic)
       else if i < a + b then StandsInPair(s, SameOrderPair, i - a)
       else if i < a + b + d then StandsInPair(s, DifferentOrderPair, i - a - b)
       else
         var k := i - a - b - d;
         && (s.scenario, s.block, s.batch, s.lane) == (LockNonAcquisition, k / 5, k, 0)
         && (s.surface, s.composition) == (CurrentMeasured, InPessimistic)
  }

  predicate StandsInPair(s: Sample, scenario: Scenario, k: nat) {
    && (s.scenario, s.block, s.batch, s.lane) == (scenario, k / 4, k / 2, k % 2)
    && s.surface == CurrentMeasured
    && s.composition == (if (k / 4 + k / 2) % 2 == 0 then PreOcc else InPessimistic)
  }

  /** Every place of the schedule has its sample in a run that matches it, and only one. */
  lemma SampleStands(c: Config, rounds: seq<seq<Surface>>, samples: seq<Sample>, i: nat) returns (j: nat)
    requires ObserverRounds(rounds) && SamplesMatch(RecordedSchedule(c, rounds), samples)
    requires i < |RecordedSchedule(c, rounds)|
    ensures j < |samples| && Stands(samples[j], c, rounds, i)
    ensures |samples| == |RecordedSchedule(c, rounds)|
    ensures forall k | 0 <= k < |samples| && samples[k].index == i :: k == j
  {
    j := SampleFor(c, rounds, samples, i);
    PlanAt(c, rounds, i);
    forall k | 0 <= k < |samples| && samples[k].index == i ensures k == j {
      assert SampleIndex(samples[k]) == SampleIndex(samples[j]);
    }
  }

  lemma FoundEntry(c: Config, rounds: seq<seq<Surface>>, samples: seq<Sample>, i: nat)
    requires ObserverRounds(rounds) && SamplesMatch(RecordedSchedule(c, rounds), samples)
    requires i < |RecordedSchedule(c, rounds)|
    ensures var plans := RecordedSchedule(c, rounds);
            var found, planned := Dictionary(samples, SampleKey), Dictionary(plans, PlanKey);
            && PlanKey(plans[i]) in found && PlanKey(plans[i]) in planned
            && SampleAgrees(plans[i], found[PlanKey(plans[i])])
  {
    var plans := RecordedSchedule(c, rounds);
    PlansPin(c, rounds);
    KeysAreIndexes(samples);
    var j := SampleFor(c, rounds, samples, i);
    DictionaryEntry(samples, SampleKey, j);
    DictionaryEntry(plans, PlanKey, i);
    IndexIsPosition(c, rounds, i);
  }

  /** A run that matches a generated schedule has no incomplete matched block. */
  lemma BlocksFollow(c: Config, rounds: seq<seq<Surface>>, samples: seq<Sample>)
    requires ObserverRounds(rounds) && SamplesMatch(RecordedSchedule(c, rounds), samples)
    ensures BlocksComplete(RecordedSchedule(c, rounds), samples)
  {
    var plans := RecordedSchedule(c, rounds);
    var found, planned := Dictionary(samples, SampleKey), Dictionary(plans, PlanKey);
    forall i | 0 <= i < |plans| ensures BlockComplete(found, planned, plans[i]) {
      FoundEntry(c, rounds, samples, i);
      if plans[i].scenario == Uncontended {
        SequentialIffEarly(c, rounds, i);
        PartnerA(c, rounds, i);
        FoundEntry(c, rounds, samples, Partner(i));
        BothCompositions(found, planned, plans[i], plans[Partner(i)]);
      } else if IsPair(plans[i].scenario) {
        PartnerPair(c, rounds, i);
        FoundEntry(c, rounds, samples, Partner(i));
        BothLanes(c, rounds, samples, i);
      }
    }
  }

  lemma BothCompositions(found: map<Key, Sample>, planned: map<Key, SamplePlan>, p: SamplePlan, q: SamplePlan)
    requires PlanKey(p) in found && PlanKey(p) in planned && SampleAgrees(p, found[PlanKey(p)])
    requires PlanKey(q) in found && PlanKey(q) in planned && SampleAgrees(q, found[PlanKey(q)])
    requires p.scenario == q.scenario == Uncontended && p.batch == q.batch && p.surface == q.surface
    requires p.composition != q.composition
    ensures CompositionsSeen(found, planned, p.batch, p.surface) == {PreOcc, InPessimistic}
  {
    var seen := CompositionsSeen(found, planned, p.batch, p.surface);
    assert found[PlanKey(p)].composition in seen && found[PlanKey(q)].composition in seen;
    forall x: Composition ensures x in seen && x in {PreOcc, InPessimistic} {
      assert x == p.composition || x == q.composition;
      assert x == PreOcc || x == InPessimistic;
    }
  }

  lemma BothLanes(c: Config, rounds: seq<seq<Surface>>, samples: seq<Sample>, i: nat)
    requires ObserverRounds(rounds) && SamplesMatch(RecordedSchedule(c, rounds), samples)
    requires i < |RecordedSchedule(c, rounds)| && IsPair(RecordedSchedule(c, rounds)[i].scenario)
    ensures var plans := RecordedSchedule(c, rounds);
            LanesSeen(Dictionary(samples, SampleKey), Dictionary(plans, PlanKey), plans[i]) == {0, 1}
  {
    var plans := RecordedSchedule(c, rounds);
    var found, planned := Dictionary(samples, SampleKey), Dictionary(plans, PlanKey);
    PartnerPair(c, rounds, i);
    var p, q := plans[i], plans[Partner(i)];
    FoundEntry(c, rounds, samples, i);
    FoundEntry(c, rounds, samples, Partner(i));
    var seen := LanesSeen(found, planned, p);
    assert found[PlanKey(p)].lane in seen && found[PlanKey(q)].lane in seen;
    assert 0 in {p.lane, q.lane} && 1 in {p.lane, q.lane};
    assert 0 in seen && 1 in seen;
    forall lane | lane in seen ensures lane in {0, 1} {
      var k :| k in found && k in planned && found[k].scenario == p.scenario && found[k].lane == lane;
      LaneOfFound(c, rounds, samples, k);
    }
  }

  lemma LaneOfFound(c: Config, rounds: seq<seq<Surface>>, samples: seq<Sample>, k: Key)
    requires ObserverRounds(rounds) && SamplesMatch(RecordedSchedule(c, rounds), samples)
    requires k in Dictionary(samples, SampleKey) && IsPair(Dictionary(samples, SampleKey)[k].scenario)
    ensures Dictionary(samples, SampleKey)[k].lane < 2
  {
    DictionaryKeys(samples, SampleKey, k);
    var s := Dictionary(samples, SampleKey)[k];
    var j :| 0 <= j < |samples| && samples[j] == s;
    assert SampleAgrees(RecordedSchedule(c, rounds)[SampleIndex(samples[j])], samples[j]);
    PlanAt(c, rounds, s.index);
  }

  /**
   Under every legal configuration and shuffle, a run is structurally valid exactly when its
   samples, by index, are the schedule's plans and each one's evidence is sound.
   */
  lemma StructuralIff(c: Config, shuffles: seq<seq<seq<Surface>>>, samples: seq<Sample>)
    requires LegalConfig(c) && AreShuffles(shuffles) && |shuffles| == c.repetitions
    ensures ObserverRounds(Rounds(shuffles))
    ensures var plans := RecordedSchedule(c, Rounds(shuffles));
            Structural(c, 2, plans, samples) <==> SamplesMatch(plans, samples) && AllSound(plans, samples)
  {
    ScheduleIsBalanced(c, shuffles);
    var rounds := Rounds(shuffles);
    PlansPin(c, rounds);
    ReconcilesIff(c, rounds, samples);
    if SamplesMatch(RecordedSchedule(c, rounds), samples) {
      BlocksFollow(c, rounds, samples);
    }
  }

  // ----- pairing a valid run -----

  /** The samples were all made for this run. */
  predicate OfRun(runId: string, samples: seq<Sample>) {
    forall i | 0 <= i < |samples| :: samples[i].runId == runId
  }

  lemma SoundSequential(c: Config, rounds: seq<seq<Surface>>, runId: string, samples: seq<Sample>, j: nat)
    requires ObserverRounds(rounds) && OfRun(runId, samples)
    requires SamplesMatch(RecordedSchedule(c, rounds), samples) && AllSound(RecordedSchedule(c, rounds), samples)
    requires j < |samples| && samples[j].scenario == Uncontended
    ensures samples[j].index < 6 * |rounds|
    ensures SampleAgrees(RecordedSchedule(c, rounds)[samples[j].index], samples[j])
    ensures Usable(samples[j])
    ensures KeyOf(samples[j]) == PairKey(GroupKey(runId, samples[j].surface, Accepted), samples[j].batch)
  {
    var plans, s := RecordedSchedule(c, rounds), samples[j];
    assert SampleAgrees(plans[SampleIndex(s)], s);
    SequentialIffEarly(c, rounds, s.index);
    UsableWhenSound(plans[s.index], s);
  }

  lemma UsableWhenSound(plan: SamplePlan, s: Sample)
    requires SampleIssues(plan, s) == [] && s.scenario == Uncontended
    ensures Usable(s) && s.evidence.cohort == Some(Accepted)
  {
  }

  lemma ValidRunPairable(c: Config, rounds: seq<seq<Surface>>, runId: string, samples: seq<Sample>)
    requires ObserverRounds(rounds) && OfRun(runId, samples)
    requires SamplesMatch(RecordedSchedule(c, rounds), samples) && AllSound(RecordedSchedule(c, rounds), samples)
    ensures Pairable(samples)
  {
    var plans := RecordedSchedule(c, rounds);
    forall i | 0 <= i < |samples| && samples[i].scenario == Uncontended ensures Usable(samples[i]) {
      SoundSequential(c, rounds, runId, samples, i);
    }
    forall i, j | 0 <= i < j < |samples| && samples[i].scenario == samples[j].scenario == Uncontended
                  && Usable(samples[i]) && Usable(samples[j])
      ensures KeyOf(samples[i]) != KeyOf(samples[j]) || samples[i].composition != samples[j].composition
    {
      PlacesDiffer(c, rounds, runId, samples, i, j);
    }
  }

  lemma PlacesDiffer(c: Config, rounds: seq<seq<Surface>>, runId: string, samples: seq<Sample>, i: nat, j: nat)
    requires ObserverRounds(rounds) && OfRun(runId, samples)
    requires SamplesMatch(RecordedSchedule(c, rounds), samples) && AllSound(RecordedSchedule(c, rounds), samples)
    requires i < j < |samples| && samples[i].scenario == samples[j].scenario == Uncontended
    ensures Usable(samples[i]) && Usable(samples[j])
    ensures KeyOf(samples[i]) != KeyOf(samples[j]) || samples[i].composition != samples[j].composition
  {
    SoundSequential(c, rounds, runId, samples, i);
    SoundSequential(c, rounds, runId, samples, j);
    assert SampleIndex(samples[i]) != SampleIndex(samples[j]);
    var x, y := samples[i].index, samples[j].index;
    SequentialDistinct(c, rounds, if x < y then x else y, if x < y then y else x);
  }

  /** Both halves of every pair are there. */
  lemma ValidRunComplete(c: Config, rounds: seq<seq<Surface>>, runId: string, samples: seq<Sample>)
    requires ObserverRounds(rounds) && OfRun(runId, samples)
    requires SamplesMatch(RecordedSchedule(c, rounds), samples) && AllSound(RecordedSchedule(c, rounds), samples)
    ensures FormPairs(samples).Success?
    ensures AllComplete(FormPairs(samples).value, FormPairs(samples).value.order)
  {
    ValidRunPairable(c, rounds, runId, samples);
    PairableForms(samples);
    PairsOrdered(samples);
    var p := FormPairs(samples).value;
    forall n | 0 <= n < |p.order| ensures Complete(p, p.order[n]) {
      var k := p.order[n];
      var half := if Holds(p, k, PreOcc) then PreOcc else InPessimistic;
      PairsHold(samples, k, half);
      var j :| 0 <= j < |samples| && Contributes(samples[j], k, half);
      var other := OtherHalf(c, rounds, runId, samples, j);
      var rest := if half == PreOcc then InPessimistic else PreOcc;
      assert Contributes(samples[other], k, rest);
      PairsHold(samples, k, rest);
    }
  }

  lemma OtherHalf(c: Config, rounds: seq<seq<Surface>>, runId: string, samples: seq<Sample>, j: nat) returns (other: nat)
    requires ObserverRounds(rounds) && OfRun(runId, samples)
    requires SamplesMatch(RecordedSchedule(c, rounds), samples) && AllSound(RecordedSchedule(c, rounds), samples)
    requires j < |samples| && samples[j].scenario == Uncontended
    ensures other < |samples| && samples[other].scenario == Uncontended && Usable(samples[other]) && Usable(samples[j])
    ensures KeyOf(samples[other]) == KeyOf(samples[j]) && samples[other].composition != samples[j].composition
  {
    SoundSequential(c, rounds, runId, samples, j);
    var i := samples[j].index;
    PartnerA(c, rounds, i);
    other := SampleFor(c, rounds, samples, Partner(i));
    SoundSequential(c, rounds, runId, samples, other);
  }

  // ----- how many pairs -----

  lemma {:induction false} WeightsAreCounts(plans: seq<SamplePlan>, samples: seq<Sample>, runId: string, surface: Surface, composition: Composition)
    requires |samples| == |plans|
    requires forall i | 0 <= i < |samples| ::
               && SampleAgrees(plans[i], samples[i]) && samples[i].runId == runId
               && (samples[i].scenario == Uncontended ==> Usable(samples[i]) && samples[i].evidence.cohort == Some(Accepted))
    ensures SampleWeight(One, samples, GroupKey(runId, surface, Accepted), composition)
         == Count(plans, Uncontended, surface, composition)
  {
    if samples != [] {
      var n := |samples| - 1;
      WeightsAreCounts(plans[..n], samples[..n], runId, surface, composition);
    }
  }

  lemma ValidRunWeights(c: Config, rounds: seq<seq<Surface>>, runId: string, samples: seq<Sample>, surface: Surface, composition: Composition)
    requires ObserverRounds(rounds) && OfRun(runId, samples)
    requires SamplesMatch(RecordedSchedule(c, rounds), samples) && AllSound(RecordedSchedule(c, rounds), samples)
    ensures SampleWeight(One, samples, GroupKey(runId, surface, Accepted), composition) == |rounds|
  {
    var plans := RecordedSchedule(c, rounds);
    var sorted := SortByIndex(samples, SampleIndex);
    forall i | 0 <= i < |sorted|
      ensures SampleAgrees(plans[i], sorted[i]) && sorted[i].runId == runId
      ensures sorted[i].scenario == Uncontended ==> Usable(sorted[i]) && sorted[i].evidence.cohort == Some(Accepted)
    {
      assert sorted[i] in multiset(sorted);
      assert sorted[i] in multiset(samples);
      var j :| 0 <= j < |samples| && samples[j] == sorted[i];
      assert SampleAgrees(plans[SampleIndex(samples[j])], samples[j]);
      if sorted[i].scenario == Uncontended { SoundSequential(c, rounds, runId, samples, j); }
    }
    WeightsAreCounts(plans, sorted, runId, surface, composition);
    var g := GroupKey(runId, surface, Accepted);
    SumPermutation((s: Sample) => WeightOf(One, g, composition, s), sorted, samples);
    CountsA(c, rounds, surface, composition);
  }

  lemma ReportedGroup(c: Config, rounds: seq<seq<Surface>>, runId: string, samples: seq<Sample>, g: GroupKey)
    requires ObserverRounds(rounds) && OfRun(runId, samples)
    requires SamplesMatch(RecordedSchedule(c, rounds), samples) && AllSound(RecordedSchedule(c, rounds), samples)
    requires FormPairs(samples).Success? && AllComplete(FormPairs(samples).value, FormPairs(samples).value.order)
    requires Differences(FormPairs(samples).value, FormPairs(samples).value.order, g) != []
    ensures g == GroupKey(runId, g.surface, Accepted)
  {
    var p := FormPairs(samples).value;
    var i := GroupOccurs(p, p.order, g);
    PairsHold(samples, p.order[i], PreOcc);
    var j :| 0 <= j < |samples| && Contributes(samples[j], p.order[i], PreOcc);
    SoundSequential(c, rounds, runId, samples, j);
  }

  /** The mean IN-minus-PRE difference of a line, from the raw samples. */
  ghost predicate MeansDifference(line: PairedDifference, samples: seq<Sample>) {
    && line.count > 0
    && line.mean == (SampleWeight(ElapsedOf, samples, line.group, InPessimistic)
                     - SampleWeight(ElapsedOf, samples, line.group, PreOcc)) as real / line.count as real
  }

  /** One line per surface of the run, each with as many pairs as there are rounds. */
  ghost predicate FullReport(report: seq<PairedDifference>, runId: string, pairs: nat, samples: seq<Sample>) {
    && ReportedInOrder(report)
    && (forall i | 0 <= i < |report| ::
          && report[i].group == GroupKey(runId, report[i].group.surface, Accepted)
          && report[i].count == pairs && MeansDifference(report[i], samples))
    && (forall surface: Surface :: exists i | 0 <= i < |report| :: report[i].group == GroupKey(runId, surface, Accepted))
  }

  lemma ReportIsFull(c: Config, rounds: seq<seq<Surface>>, runId: string, samples: seq<Sample>, report: seq<PairedDifference>)
    requires ObserverRounds(rounds) && OfRun(runId, samples) && rounds != []
    requires SamplesMatch(RecordedSchedule(c, rounds), samples) && AllSound(RecordedSchedule(c, rounds), samples)
    requires FormPairs(samples).Success? && AllComplete(FormPairs(samples).value, FormPairs(samples).value.order)
    requires IsReport(report, FormPairs(samples).value, FormPairs(samples).value.order)
    ensures FullReport(report, runId, |rounds|, samples)
  {
    forall i | 0 <= i < |report|
      ensures && report[i].group == GroupKey(runId, report[i].group.surface, Accepted)
              && report[i].count == |rounds| && MeansDifference(report[i], samples)
    {
      ReportedLine(c, rounds, runId, samples, report, i);
    }
    forall surface: Surface ensures exists i | 0 <= i < |report| :: report[i].group == GroupKey(runId, surface, Accepted) {
      SurfaceIsPaired(c, rounds, runId, samples, surface);
    }
  }

  lemma ReportedLine(c: Config, rounds: seq<seq<Surface>>, runId: string, samples: seq<Sample>, report: seq<PairedDifference>, i: nat)
    requires ObserverRounds(rounds) && OfRun(runId, samples)
    requires SamplesMatch(RecordedSchedule(c, rounds), samples) && AllSound(RecordedSchedule(c, rounds), samples)
    requires FormPairs(samples).Success? && AllComplete(FormPairs(samples).value, FormPairs(samples).value.order)
    requires IsReport(report, FormPairs(samples).value, FormPairs(samples).value.order) && i < |report|
    ensures report[i].group == GroupKey(runId, report[i].group.surface, Accepted)
    ensures report[i].count == |rounds| && MeansDifference(report[i], samples)
  {
    ReportedGroup(c, rounds, runId, samples, report[i].group);
    ReportConserves(samples, report, i);
    ValidRunWeights(c, rounds, runId, samples, report[i].group.surface, PreOcc);
  }

  lemma SurfaceIsPaired(c: Config, rounds: seq<seq<Surface>>, runId: string, samples: seq<Sample>, surface: Surface)
    requires ObserverRounds(rounds) && OfRun(runId, samples) && rounds != []
    requires SamplesMatch(RecordedSchedule(c, rounds), samples) && AllSound(RecordedSchedule(c, rounds), samples)
    requires FormPairs(samples).Success? && AllComplete(FormPairs(samples).value, FormPairs(samples).value.order)
    ensures Differences(FormPairs(samples).value, FormPairs(samples).value.order, GroupKey(runId, surface, Accepted)) != []
  {
    DifferencesConserve(samples, GroupKey(runId, surface, Accepted));
    ValidRunWeights(c, rounds, runId, samples, surface, PreOcc);
  }

  /**
   On every valid run of one run id the pairing never raises; each surface has one line with exactly the
   configured number of pairs, and its mean is the IN total minus the PRE total over that number.
   */
  method PairValidRun(c: Config, shuffles: seq<seq<seq<Surface>>>, runId: string, samples: seq<Sample>)
    returns (r: Result<seq<PairedDifference>, PairError>)
    requires LegalConfig(c) && AreShuffles(shuffles) && |shuffles| == c.repetitions
    requires ObserverRounds(Rounds(shuffles)) && OfRun(runId, samples)
    requires Structural(c, 2, RecordedSchedule(c, Rounds(shuffles)), samples)
    ensures r.Success? && FullReport(r.value, runId, c.samplesA, samples)
  {
    ValidRunForms(c, shuffles, runId, samples);
    r := AggregatePairedDifferences(samples);
    ReportIsFull(c, Rounds(shuffles), runId, samples, r.value);
  }

  lemma ValidRunForms(c: Config, shuffles: seq<seq<seq<Surface>>>, runId: string, samples: seq<Sample>)
    requires LegalConfig(c) && AreShuffles(shuffles) && |shuffles| == c.repetitions
    requires ObserverRounds(Rounds(shuffles)) && OfRun(runId, samples)
    requires Structural(c, 2, RecordedSchedule(c, Rounds(shuffles)), samples)
    ensures var plans := RecordedSchedule(c, Rounds(shuffles)); SamplesMatch(plans, samples) && AllSound(plans, samples)
    ensures |Rounds(shuffles)| == c.samplesA > 0
    ensures FormPairs(samples).Success? && AllComplete(FormPairs(samples).value, FormPairs(samples).value.order)
  {
    StructuralIff(c, shuffles, samples);
    RoundsAreObserverOrders(shuffles);
    ValidRunComplete(c, Rounds(shuffles), runId, samples);
  }

  // ----- the run end to end -----

  lemma ExecutedKeeps(runId: string, behave: SamplePlan -> Option<Ran>, plan: SamplePlan)
    requires Executed(runId, behave, plan).Some?
    ensures SampleAgrees(plan, Executed(runId, behave, plan).value)
    ensures Executed(runId, behave, plan).value.runId == runId
  {
  }

  /**
   The walk completes exactly when every plan can be executed; a completed walk always matches its
   schedule, so only evidence can make the run invalid.
   */
  method ExecuteAndValidate(runId: string, behave: SamplePlan -> Option<Ran>, c: Config, shuffles: seq<seq<seq<Surface>>>)
    returns (r: Result<(seq<Sample>, Status), WalkError>)
    requires LegalConfig(c) && AreShuffles(shuffles) && |shuffles| == c.repetitions
    ensures r != Failure(InvalidPair)
    ensures ObserverRounds(Rounds(shuffles))
    ensures var plans := RecordedSchedule(c, Rounds(shuffles));
            && (r.Success? <==> forall i | 0 <= i < |plans| :: Executed(runId, behave, plans[i]).Some?)
            && (r.Success? ==>
                  && |r.value.0| == |plans|
                  && forall i | 0 <= i < |plans| :: Executed(runId, behave, plans[i]) == Some(r.value.0[i]))
    ensures r.Success? ==>
              var plans := RecordedSchedule(c, Rounds(shuffles));
              && SamplesMatch(plans, r.value.0) && OfRun(runId, r.value.0)
              && (r.value.1 == InvalidRun <==> !AllSound(plans, r.value.0))
              && (r.value.1 == Valid <==> AllSound(plans, r.value.0) && Sufficient(c, r.value.0))
  {
    var plans := GenerateRecordedSchedule(c, shuffles);
    ghost var rounds := Rounds(shuffles);
    var samples :- ExecutePlans(runId, behave, c, Rounds(shuffles), plans);
    forall i | 0 <= i < |plans|
      ensures SampleAgrees(plans[i], samples[i]) && samples[i].runId == runId && SampleIndex(samples[i]) == i
    {
      ExecutedKeeps(runId, behave, plans[i]);
      IndexIsPosition(c, rounds, i);
    }
    StructuralIff(c, shuffles, samples);
    var status, _ := ValidateRecordedRun(c, 2, plans, samples);
    r := Success((samples, status));
  }
}
