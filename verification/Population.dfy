/**
The fixed unpooled population of runtime-governance samples and its fail-closed
validator: scenarios x blocks x surface permutations x repetitions x surfaces.
*/
module Population {
  import opened Wrappers
  import opened Sequences

  const SCHEMA_VERSION: int := 2
  const SEQUENCE_RULE_ID := "order.transition.sequence-matches-accepted-next-version"

  datatype Surface = A | B | C {
    function Name(): string {
      match this
      case A => "A"
      case B => "B"
      case C => "C"
    }
  }

  const SURFACES: set<string> := {"A", "B", "C"}

  function ParseSurface(name: string): Option<Surface> {
    if name == "A" then Some(A) else if name == "B" then Some(B) else if name == "C" then Some(C) else None
  }

  datatype Terminal = Accepted | ValidationBlocked {
    function Name(): string {
      if Accepted? then "ACCEPTED" else "VALIDATION_BLOCKED"
    }
  }

  datatype Scenario = Scenario(name: string, terminal: Terminal)

  datatype ScheduleConfig = ScheduleConfig(layer: string, recordedBlocks: int, repetitions: int)

  datatype Coordinate = Coordinate(scenario: string, block: int, permutation: int, repetition: int, surface: string)

  datatype Sample = Sample(
    schemaVersion: int, runId: string, layer: string, scenario: string, surface: string,
    block: int, permutation: int, repetition: int,
    producerNs: int, compositionNs: Option<int>, totalNs: int,
    outcome: string, ruleId: Option<string>)
  {
    function Place(): Coordinate {
      Coordinate(scenario, block, permutation, repetition, surface)
    }
  }

  // ----- the expected universe -----

  function Factorial(n: nat): nat {
    if n == 0 then 1 else n * Factorial(n - 1)
  }

  /** All orders of the three surfaces; the seed only chooses in which order they are used. */
  const SURFACE_PERMUTATIONS: seq<seq<Surface>> := [[A, B, C], [A, C, B], [B, A, C], [B, C, A], [C, A, B], [C, B, A]]

  function Names(scenarios: seq<Scenario>): seq<string> {
    seq(|scenarios|, i requires 0 <= i < |scenarios| => scenarios[i].name)
  }

  function ExpectedCoordinates(scenarios: seq<Scenario>, config: ScheduleConfig): set<Coordinate> {
    set s, b, p, r, f |
      s in Names(scenarios) && b in Range(config.recordedBlocks) && p in Range(|SURFACE_PERMUTATIONS|)
      && r in Range(config.repetitions) && f in SURFACES
      :: Coordinate(s, b, p, r, f)
  }

  lemma UniverseMember(scenarios: seq<Scenario>, config: ScheduleConfig, c: Coordinate)
    ensures c in ExpectedCoordinates(scenarios, config)
       <==> && c.scenario in Names(scenarios) && 0 <= c.block < config.recordedBlocks && 0 <= c.permutation < 6
            && 0 <= c.repetition < config.repetitions && (c.surface == "A" || c.surface == "B" || c.surface == "C")
  {
  }

  function ExpectedSampleCount(scenarios: seq<Scenario>, config: ScheduleConfig): int {
    |scenarios| * config.recordedBlocks * Factorial(3) * 3 * config.repetitions
  }

  function Tuples(names: set<string>, blocks: int, repetitions: int): set<((((string, int), int), int), string)> {
    Product(Product(Product(Product(names, Range(blocks)), Range(6)), Range(repetitions)), SURFACES)
  }

  lemma TuplesSize(names: set<string>, blocks: int, repetitions: int)
    ensures |Tuples(names, blocks, repetitions)| == |names| * |Range(blocks)| * 6 * |Range(repetitions)| * 3
  {
    var one := Product(names, Range(blocks));
    var two := Product(one, Range(6));
    var three := Product(two, Range(repetitions));
    ProductSize(names, Range(blocks));
    ProductSize(one, Range(6));
    ProductSize(two, Range(repetitions));
    ProductSize(three, SURFACES);
    SurfaceCount();
    Multiplied(|names|, |Range(blocks)|, |Range(repetitions)|, |one|, |two|, |three|);
  }

  lemma SurfaceCount()
    ensures |SURFACES| == 3
  {
  }

  lemma Multiplied(names: nat, blocks: nat, repetitions: nat, one: nat, two: nat, three: nat)
    requires one == names * blocks && two == one * 6 && three == two * repetitions
    ensures three * 3 == names * blocks * 6 * repetitions * 3
  {
  }

  function FromTuple(t: ((((string, int), int), int), string)): Coordinate {
    Coordinate(t.0.0.0.0, t.0.0.0.1, t.0.0.1, t.0.1, t.1)
  }

  function ToTuple(c: Coordinate): ((((string, int), int), int), string) {
    ((((c.scenario, c.block), c.permutation), c.repetition), c.surface)
  }

  lemma ExpectedSize(scenarios: seq<Scenario>, config: ScheduleConfig)
    ensures |ExpectedCoordinates(scenarios, config)|
         == |ToSet(Names(scenarios))| * |Range(config.recordedBlocks)| * 6 * |Range(config.repetitions)| * 3
  {
    var tuples := Tuples(ToSet(Names(scenarios)), config.recordedBlocks, config.repetitions);
    BijectionSize(tuples, ExpectedCoordinates(scenarios, config), FromTuple, ToTuple);
    TuplesSize(ToSet(Names(scenarios)), config.recordedBlocks, config.repetitions);
  }

  /**
   The closed-form count agrees with the coordinate universe exactly when the
   schedule is degenerate or is a genuine one: positive counts, distinct names.
   */
  lemma ClosedFormIsUniverseSize(scenarios: seq<Scenario>, config: ScheduleConfig)
    ensures ExpectedSampleCount(scenarios, config) == |ExpectedCoordinates(scenarios, config)|
       <==> || scenarios == [] || config.recordedBlocks == 0 || config.repetitions == 0
            || (config.recordedBlocks > 0 && config.repetitions > 0 && NoDuplicates(Names(scenarios)))
  {
    ExpectedSize(scenarios, config);
    ToSetSize(Names(scenarios));
    ExpectedSampleCountValue(scenarios, config);
    if scenarios != [] {
      assert Names(scenarios)[0] in ToSet(Names(scenarios));
    }
    ClosedForm(|scenarios|, |ToSet(Names(scenarios))|, config.recordedBlocks, config.repetitions);
  }

  lemma ExpectedSampleCountValue(scenarios: seq<Scenario>, config: ScheduleConfig)
    ensures ExpectedSampleCount(scenarios, config)
         == |scenarios| * config.recordedBlocks * 6 * 3 * config.repetitions
  {
    assert Factorial(3) == 3 * (2 * (1 * 1));
  }

  lemma ClosedForm(n: nat, distinct: nat, b: int, r: int)
    requires distinct <= n && (n > 0 ==> distinct > 0)
    ensures n * b * 6 * 3 * r == distinct * |Range(b)| * 6 * |Range(r)| * 3
       <==> n == 0 || b == 0 || r == 0 || (b > 0 && r > 0 && distinct == n)
  {
    var e := |Range(b)| * |Range(r)|;
    assert distinct * |Range(b)| * 6 * |Range(r)| * 3 == 18 * (distinct * e) by {
      Regroup(distinct, |Range(b)|, |Range(r)|);
    }
    Regroup(n, b, r);
    if b > 0 && r > 0 {
      Positive(b, r);
      Cancel(n, distinct, b * r);
    } else if b != 0 && r != 0 && n != 0 {
      assert e == 0;
      NonZero(n, b, r);
    }
  }

  lemma Regroup(a: int, b: int, c: int)
    ensures a * b * 6 * 3 * c == 18 * (a * (b * c))
    ensures a * b * 6 * c * 3 == 18 * (a * (b * c))
  {
    assert a * b * c == a * (b * c);
    assert a * b * 6 * 3 * c == 18 * (a * b * c);
    assert a * b * 6 * c * 3 == 18 * (a * b * c);
  }

  lemma Positive(b: int, r: int)
    requires b > 0 && r > 0
    ensures b * r > 0
  {
  }

  lemma NonZero(n: int, b: int, r: int)
    requires n != 0 && b != 0 && r != 0
    ensures n * (b * r) != 0
  {
    assert b * r != 0;
  }

  lemma AtLeast(k: nat, e: int)
    requires k >= 1 && e > 0
    ensures k * e >= e
  {
    assert (k - 1) * e >= 0;
    assert k * e == (k - 1) * e + e;
  }

  lemma Cancel(n: nat, d: nat, e: int)
    requires e > 0 && d <= n
    ensures n * e == d * e <==> n == d
  {
    if d < n {
      assert n * e - d * e == (n - d) * e;
      AtLeast(n - d, e);
    }
  }

  // ----- one sample -----

  datatype PopulationError =
    | UniverseMismatch | CountMismatch | DuplicateCoordinates | CoordinateMismatch
    | SchemaMismatch | RunMismatch | LayerMismatch | ProducerNotPositive | TotalNotPositive | UnknownSurface
    | CompositionNegative | LapsDoNotSum | UnexpectedComposition | TotalDiffers
    | UnknownScenario | OutcomeMismatch | UnexpectedRule | RuleMismatch

  /** Scenario names to terminals; a later scenario of the same name wins. */
  function Terminals(scenarios: seq<Scenario>): (m: map<string, Terminal>)
    ensures forall s :: s in m <==> s in Names(scenarios)
  {
    if scenarios == [] then map[]
    else
      var n := |scenarios| - 1;
      assert Names(scenarios) == Names(scenarios[..n]) + [scenarios[n].name];
      Terminals(scenarios[..n])[scenarios[n].name := scenarios[n].terminal]
  }

  /** The last scenario of a name decides its terminal. */
  lemma {:induction false} TerminalsAre(scenarios: seq<Scenario>, name: string) returns (k: nat)
    requires name in Names(scenarios)
    ensures k < |scenarios| && scenarios[k].name == name && Terminals(scenarios)[name] == scenarios[k].terminal
    ensures forall j | k < j < |scenarios| :: scenarios[j].name != name
  {
    var n := |scenarios| - 1;
    assert Names(scenarios) == Names(scenarios[..n]) + [scenarios[n].name];
    if scenarios[n].name == name {
      k := n;
    } else {
      k := TerminalsAre(scenarios[..n], name);
    }
  }

  /** The laps recorded for a sample fit its surface. */
  predicate ValidTiming(sample: Sample) {
    && sample.producerNs > 0 && sample.totalNs > 0
    && match ParseSurface(sample.surface)
       case None => false
       case Some(C) => && sample.compositionNs.Some? && sample.compositionNs.value >= 0
                       && sample.totalNs == sample.producerNs + sample.compositionNs.value
       case _ => sample.compositionNs.None? && sample.totalNs == sample.producerNs
  }

  /** Only B and C of a blocked scenario name the blocking rule. */
  predicate ValidOutcome(sample: Sample, terminals: map<string, Terminal>) {
    && sample.scenario in terminals
    && sample.outcome == terminals[sample.scenario].Name()
    && (sample.ruleId == if sample.surface != "A" && terminals[sample.scenario] == ValidationBlocked
                         then Some(SEQUENCE_RULE_ID) else None)
  }

  predicate ValidSample(sample: Sample, config: ScheduleConfig, runId: string, terminals: map<string, Terminal>) {
    && sample.schemaVersion == SCHEMA_VERSION && sample.runId == runId && sample.layer == config.layer
    && ValidTiming(sample) && ValidOutcome(sample, terminals)
  }

  /** What each reason given against a sample says of it. */
  predicate Explains(e: PopulationError, sample: Sample, config: ScheduleConfig, runId: string, terminals: map<string, Terminal>) {
    match e
    case SchemaMismatch => sample.schemaVersion != 2
    case RunMismatch => sample.runId != runId
    case LayerMismatch => sample.layer != config.layer
    case ProducerNotPositive => sample.producerNs <= 0
    case TotalNotPositive => sample.totalNs <= 0
    case UnknownSurface => sample.surface != "A" && sample.surface != "B" && sample.surface != "C"
    case CompositionNegative => sample.surface == "C" && (sample.compositionNs.None? || sample.compositionNs.value < 0)
    case LapsDoNotSum =>
      sample.surface == "C" && sample.compositionNs.Some? && sample.totalNs != sample.producerNs + sample.compositionNs.value
    case UnexpectedComposition => sample.surface != "C" && sample.compositionNs.Some?
    case TotalDiffers => sample.surface != "C" && sample.totalNs != sample.producerNs
    case UnknownScenario => sample.scenario !in terminals
    case OutcomeMismatch => sample.scenario in terminals && sample.outcome != terminals[sample.scenario].Name()
    case UnexpectedRule => sample.surface == "A" && sample.ruleId.Some?
    case RuleMismatch =>
      && sample.surface != "A" && sample.scenario in terminals
      && (terminals[sample.scenario] == ValidationBlocked ==> sample.ruleId != Some(SEQUENCE_RULE_ID))
      && (terminals[sample.scenario] == Accepted ==> sample.ruleId.Some?)
    case _ => false
  }

  /** The validator's checks on one sample, in the order they are made. */
  function CheckSample(sample: Sample, config: ScheduleConfig, runId: string, terminals: map<string, Terminal>)
    : (r: Result<(), PopulationError>)
    ensures r.Success? <==> ValidSample(sample, config, runId, terminals)
    ensures r.Failure? ==> Explains(r.error, sample, config, runId, terminals)
  {
    if sample.schemaVersion != SCHEMA_VERSION then Failure(SchemaMismatch)
    else if sample.runId != runId then Failure(RunMismatch)
    else if sample.layer != config.layer then Failure(LayerMismatch)
    else if sample.producerNs <= 0 then Failure(ProducerNotPositive)
    else if sample.totalNs <= 0 then Failure(TotalNotPositive)
    else
      match ParseSurface(sample.surface)
      case None => Failure(UnknownSurface)
      case Some(surface) =>
        var _ :- CheckLaps(sample, surface);
        if sample.scenario !in terminals then Failure(UnknownScenario)
        else
          var terminal := terminals[sample.scenario];
          if sample.outcome != terminal.Name() then Failure(OutcomeMismatch)
          else if surface == A && sample.ruleId.Some? then Failure(UnexpectedRule)
          else if surface != A
                  && sample.ruleId != (if terminal == ValidationBlocked then Some(SEQUENCE_RULE_ID) else None)
          then Failure(RuleMismatch)
          else Success(())
  }

  function CheckLaps(sample: Sample, surface: Surface): Result<(), PopulationError> {
    if surface == C then
      if sample.compositionNs.None? || sample.compositionNs.value < 0 then Failure(CompositionNegative)
      else if sample.totalNs != sample.producerNs + sample.compositionNs.value then Failure(LapsDoNotSum)
      else Success(())
    else if sample.compositionNs.Some? then Failure(UnexpectedComposition)
    else if sample.totalNs != sample.producerNs then Failure(TotalDiffers)
    else Success(())
  }

  // ----- the population -----

  function Coordinates(samples: seq<Sample>): seq<Coordinate> {
    seq(|samples|, i requires 0 <= i < |samples| => samples[i].Place())
  }

  /** Samples fill the universe one to one, and every sample is consistent with its scenario. */
  ghost predicate ValidPopulation(samples: seq<Sample>, scenarios: seq<Scenario>, config: ScheduleConfig, runId: string) {
    && ExpectedSampleCount(scenarios, config) == |ExpectedCoordinates(scenarios, config)|
    && IsBijection(samples, ExpectedCoordinates(scenarios, config))
    && forall i | 0 <= i < |samples| :: ValidSample(samples[i], config, runId, Terminals(scenarios))
  }

  /** Every coordinate of the universe is taken by exactly one sample and no sample lies outside it. */
  ghost predicate IsBijection(samples: seq<Sample>, universe: set<Coordinate>) {
    && (forall i | 0 <= i < |samples| :: samples[i].Place() in universe)
    && (forall i, j | 0 <= i < j < |samples| :: samples[i].Place() != samples[j].Place())
    && (forall c | c in universe :: exists i :: 0 <= i < |samples| && samples[i].Place() == c)
  }

  /** The size and set comparisons the validator makes amount to a bijection. */
  lemma SetFormIsBijection(samples: seq<Sample>, universe: set<Coordinate>)
    ensures NoDuplicates(Coordinates(samples)) && ToSet(Coordinates(samples)) == universe
       <==> IsBijection(samples, universe)
    ensures IsBijection(samples, universe) ==> |samples| == |universe|
  {
    var actual := Coordinates(samples);
    ToSetSize(actual);
    if IsBijection(samples, universe) {
      BijectionCovers(samples, universe);
    }
    if NoDuplicates(actual) && ToSet(actual) == universe {
      CoverIsBijection(samples);
    }
  }

  lemma BijectionCovers(samples: seq<Sample>, universe: set<Coordinate>)
    requires IsBijection(samples, universe)
    ensures NoDuplicates(Coordinates(samples)) && ToSet(Coordinates(samples)) == universe
  {
    var actual := Coordinates(samples);
    forall c ensures c in ToSet(actual) <==> c in universe {
      if c in universe {
        var i :| 0 <= i < |samples| && samples[i].Place() == c;
        assert actual[i] == c;
      }
    }
  }

  lemma CoverIsBijection(samples: seq<Sample>)
    requires NoDuplicates(Coordinates(samples))
    ensures IsBijection(samples, ToSet(Coordinates(samples)))
  {
    var actual := Coordinates(samples);
    forall i | 0 <= i < |samples| ensures samples[i].Place() in ToSet(actual) {
      assert actual[i] in actual;
    }
    forall i, j | 0 <= i < j < |samples| ensures samples[i].Place() != samples[j].Place() {
      assert actual[i] != actual[j];
    }
    forall c | c in ToSet(actual) ensures exists i :: 0 <= i < |samples| && samples[i].Place() == c {
      var i :| 0 <= i < |actual| && actual[i] == c;
      assert samples[i].Place() == c;
    }
  }

  // ----- a valid sample, surface by surface -----

  /** The sample of a scenario as its surface and terminal ask for it. */
  predicate SampleFits(s: Sample, scenario: Scenario, config: ScheduleConfig, runId: string) {
    && s.schemaVersion == 2 && s.runId == runId && s.layer == config.layer && s.scenario == scenario.name
    && s.producerNs > 0 && s.totalNs > 0
    && s.outcome == (if scenario.terminal == Accepted then "ACCEPTED" else "VALIDATION_BLOCKED")
    && ((s.surface == "A" && s.compositionNs == None && s.totalNs == s.producerNs && s.ruleId == None)
        || (s.surface == "B" && s.compositionNs == None && s.totalNs == s.producerNs && RuleFits(s.ruleId, scenario.terminal))
        || (s.surface == "C" && s.compositionNs.Some? && s.compositionNs.value >= 0
            && s.totalNs == s.producerNs + s.compositionNs.value && RuleFits(s.ruleId, scenario.terminal)))
  }

  predicate RuleFits(ruleId: Option<string>, terminal: Terminal) {
    match terminal
    case Accepted => ruleId == None
    case ValidationBlocked => ruleId == Some(SEQUENCE_RULE_ID)
  }

  lemma ValidIsFit(s: Sample, scenario: Scenario, config: ScheduleConfig, runId: string, terminals: map<string, Terminal>)
    requires s.scenario == scenario.name && s.scenario in terminals && terminals[s.scenario] == scenario.terminal
    ensures ValidSample(s, config, runId, terminals) <==> SampleFits(s, scenario, config, runId)
  {
  }

  /** The position of the scenario a sample belongs to. */
  predicate IsLast(scenarios: seq<Scenario>, k: nat, name: string) {
    k < |scenarios| && scenarios[k].name == name && forall j | k < j < |scenarios| :: scenarios[j].name != name
  }

  /** A sample is valid exactly when it fits the last scenario of its name. */
  lemma ValidSampleIff(s: Sample, scenarios: seq<Scenario>, config: ScheduleConfig, runId: string)
    ensures ValidSample(s, config, runId, Terminals(scenarios)) <==>
            exists k: nat :: IsLast(scenarios, k, s.scenario) && SampleFits(s, scenarios[k], config, runId)
  {
    if s.scenario in Names(scenarios) {
      var k := TerminalsAre(scenarios, s.scenario);
      ValidIsFit(s, scenarios[k], config, runId, Terminals(scenarios));
      assert IsLast(scenarios, k, s.scenario);
      forall l: nat | IsLast(scenarios, l, s.scenario) ensures l == k { assert !(k < l) && !(l < k); }
    } else {
      NotNamed(s, scenarios);
    }
  }

  lemma NotNamed(s: Sample, scenarios: seq<Scenario>)
    requires s.scenario !in Names(scenarios)
    ensures forall k: nat :: !IsLast(scenarios, k, s.scenario)
  {
    forall k: nat ensures !IsLast(scenarios, k, s.scenario) {
      if k < |scenarios| { assert Names(scenarios)[k] == scenarios[k].name; }
    }
  }

  /** The validator accepts exactly the valid populations. */
  method ValidateRecordedPopulation(samples: seq<Sample>, scenarios: seq<Scenario>, config: ScheduleConfig, runId: string)
    returns (r: Result<(), PopulationError>)
    ensures r.Success? <==> ValidPopulation(samples, scenarios, config, runId)
    ensures r == Failure(UniverseMismatch) <==> ExpectedSampleCount(scenarios, config) != |ExpectedCoordinates(scenarios, config)|
    ensures r == Failure(CountMismatch) ==> |samples| != |ExpectedCoordinates(scenarios, config)|
    ensures r == Failure(DuplicateCoordinates) ==> !NoDuplicates(Coordinates(samples))
    ensures r == Failure(CoordinateMismatch) ==> ToSet(Coordinates(samples)) != ExpectedCoordinates(scenarios, config)
    ensures r.Failure? && r.error !in {UniverseMismatch, CountMismatch, DuplicateCoordinates, CoordinateMismatch} ==>
              && IsBijection(samples, ExpectedCoordinates(scenarios, config))
              && FirstInvalid(samples, config, runId, Terminals(scenarios), r.error)
  {
    var universe := ExpectedCoordinates(scenarios, config);
    if |universe| != ExpectedSampleCount(scenarios, config) {
      return Failure(UniverseMismatch);
    }
    SetFormIsBijection(samples, universe);
    ToSetSize(Coordinates(samples));
    if |samples| != |universe| {
      return Failure(CountMismatch);
    }
    var actual := Coordinates(samples);
    if |ToSet(actual)| != |actual| {
      return Failure(DuplicateCoordinates);
    }
    if ToSet(actual) != universe {
      return Failure(CoordinateMismatch);
    }
    r := CheckSamples(samples, config, runId, Terminals(scenarios));
  }

  /** The reason given is that of the first invalid sample. */
  ghost predicate FirstInvalid(samples: seq<Sample>, config: ScheduleConfig, runId: string, terminals: map<string, Terminal>,
                               e: PopulationError)
  {
    exists i | 0 <= i < |samples| ::
      && Explains(e, samples[i], config, runId, terminals)
      && forall j | 0 <= j < i :: ValidSample(samples[j], config, runId, terminals)
  }

  method CheckSamples(samples: seq<Sample>, config: ScheduleConfig, runId: string, terminals: map<string, Terminal>)
    returns (r: Result<(), PopulationError>)
    ensures r.Success? <==> forall i | 0 <= i < |samples| :: ValidSample(samples[i], config, runId, terminals)
    ensures r.Failure? ==> FirstInvalid(samples, config, runId, terminals, r.error)
  {
    for i := 0 to |samples|
      invariant forall j | 0 <= j < i :: ValidSample(samples[j], config, runId, terminals)
    {
      var checked := CheckSample(samples[i], config, runId, terminals);
      if checked.Failure? {
        return checked;
      }
    }
    r := Success(());
  }
}
