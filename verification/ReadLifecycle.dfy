/**
The two-control read-lifecycle characterization: its fixed schedule, the validation of
one sample against its plan, the validation of a whole run, and the executor that stops
at the first invalid sample.
*/
module ReadLifecycle {
  import opened Wrappers
  import opened Sequences

  datatype Control = IdleRollback | PreliminaryRead

  datatype Verdict = Miss | Replay | Conflict

  datatype Status = Idle | Active | InTrans | InError | Unknown

  datatype Coordinate = Coordinate(sampleIndex: nat, round: nat, control: Control)

  datatype Sample =
    | SampleA(sampleIndex: nat, round: nat, exceptionType: Option<string>,
              beforeCleanup: Option<Status>, cleanupNs: Option<int>, afterCleanup: Option<Status>)
    | SampleB(sampleIndex: nat, round: nat, exceptionType: Option<string>,
              verdict: Option<Verdict>, historyCount: Option<int>,
              checkNs: Option<int>, historyNs: Option<int>, cleanupNs: Option<int>, lifecycleNs: Option<int>,
              beforeCheck: Option<Status>, afterCheck: Option<Status>, afterHistory: Option<Status>,
              afterCleanup: Option<Status>, finalStatus: Option<Status>, reuse: Option<bool>)

  datatype Issue =
    | SampleCountMismatch | DuplicateCoordinate(at: Coordinate) | UnplannedCoordinate(at: Coordinate)
    | MissingCoordinate(at: Coordinate) | SampleOrderMismatch(at: Coordinate)
    | PlannedCoordinateMismatch | UnexpectedException | SampleTypeMismatch
    | StatusMismatch(which: string) | InvalidTiming(field: string)
    | VerdictMismatch | HistoryNotEmpty | ReuseFailed

  function CoordinateOf(s: Sample): Coordinate {
    Coordinate(s.sampleIndex, s.round, if s.SampleA? then IdleRollback else PreliminaryRead)
  }

  // ----- the schedule -----

  function PlanAt(i: nat): Coordinate {
    Coordinate(i, i / 2, if i % 2 == 0 then IdleRollback else PreliminaryRead)
  }

  /** Both controls in every round; the plan of position i names i itself. */
  function Plans(rounds: nat): (r: seq<Coordinate>)
    ensures |r| == 2 * rounds
    ensures forall i | 0 <= i < |r| :: r[i] == PlanAt(i)
  {
    seq(2 * rounds, i requires 0 <= i => PlanAt(i))
  }

  // ----- one sample -----

  function StatusIssue(actual: Option<Status>, expected: Status, which: string): seq<Issue> {
    if actual != Some(expected) then [StatusMismatch(which)] else []
  }

  function TimingIssue(value: Option<int>, field: string): seq<Issue> {
    if value == None || value.value < 0 then [InvalidTiming(field)] else []
  }

  function ControlAIssues(s: Sample): seq<Issue>
    requires s.SampleA?
  {
    StatusIssue(s.beforeCleanup, Idle, "before") + TimingIssue(s.cleanupNs, "cleanup")
    + StatusIssue(s.afterCleanup, Idle, "after")
  }

  function ControlBIssues(s: Sample): seq<Issue>
    requires s.SampleB?
  {
    (if s.verdict != Some(Miss) then [VerdictMismatch] else [])
    + (if s.historyCount != Some(0) then [HistoryNotEmpty] else [])
    + TimingIssue(s.checkNs, "check") + TimingIssue(s.historyNs, "history")
    + TimingIssue(s.cleanupNs, "cleanup") + TimingIssue(s.lifecycleNs, "lifecycle")
    + StatusIssue(s.beforeCheck, Idle, "before check") + StatusIssue(s.afterCheck, InTrans, "after check")
    + StatusIssue(s.afterHistory, InTrans, "after history") + StatusIssue(s.afterCleanup, Idle, "after cleanup")
    + StatusIssue(s.finalStatus, Idle, "final")
    + (if s.reuse != Some(true) then [ReuseFailed] else [])
  }

  /** What is found wrong with a sample under a plan. */
  function SampleIssues(plan: Coordinate, s: Sample): seq<Issue> {
    (if CoordinateOf(s) != plan then [PlannedCoordinateMismatch] else [])
    + (if s.exceptionType.Some? then [UnexpectedException] else [])
    + (match plan.control
       case IdleRollback => if s.SampleA? then ControlAIssues(s) else [SampleTypeMismatch]
       case PreliminaryRead => if s.SampleB? then ControlBIssues(s) else [SampleTypeMismatch])
  }

  predicate Measured(t: Option<int>) {
    t.Some? && t.value >= 0
  }

  /** The lifecycle evidence a control promises. */
  predicate Sound(s: Sample) {
    && s.exceptionType == None
    && match s
       case SampleA(_, _, _, before, cleanup, after) => before == after == Some(Idle) && Measured(cleanup)
       case SampleB(_, _, _, verdict, history, check, load, cleanup, lifecycle, s0, s1, s2, s3, s4, reuse) =>
         && verdict == Some(Miss) && history == Some(0) && reuse == Some(true)
         && Measured(check) && Measured(load) && Measured(cleanup) && Measured(lifecycle)
         && s0 == s3 == s4 == Some(Idle) && s1 == s2 == Some(InTrans)
  }

  lemma SampleIssuesIff(plan: Coordinate, s: Sample)
    ensures SampleIssues(plan, s) == [] <==> CoordinateOf(s) == plan && Sound(s)
  {
  }

  // ----- the whole run -----

  predicate EverySampleFits(plans: seq<Coordinate>, samples: seq<Sample>) {
    && |samples| == |plans|
    && forall i | 0 <= i < |samples| :: SampleIssues(plans[i], samples[i]) == []
  }

  function Coordinates(samples: seq<Sample>): (r: seq<Coordinate>)
    ensures |r| == |samples| && forall i | 0 <= i < |r| :: r[i] == CoordinateOf(samples[i])
  {
    seq(|samples|, i requires 0 <= i < |samples| => CoordinateOf(samples[i]))
  }

  /** Observed coordinates: repeated or unplanned ones. */
  method CheckObserved(observed: seq<Coordinate>, plans: seq<Coordinate>) returns (issues: seq<Issue>)
    ensures issues == [] <==> NoDuplicates(observed) && forall i | 0 <= i < |observed| :: observed[i] in plans
  {
    var counts: map<Coordinate, nat>, order: seq<Coordinate> := map[], [];
    for i := 0 to |observed|
      invariant forall c :: c in counts <==> c in observed[..i]
      invariant forall c :: c in counts <==> c in order
      invariant forall c | c in counts :: counts[c] == multiset(observed[..i])[c]
    {
      var c := observed[i];
      assert observed[..i + 1] == observed[..i] + [c];
      if c in counts {
        counts := counts[c := counts[c] + 1];
      } else {
        counts := counts[c := 1];
        order := order + [c];
      }
    }
    assert observed[..|observed|] == observed;
    issues := [];
    for i := 0 to |order|
      invariant issues == [] <==>
                forall j | 0 <= j < i :: multiset(observed)[order[j]] <= 1 && order[j] in plans
    {
      var c := order[i];
      assert c in order;
      if counts[c] > 1 { issues := issues + [DuplicateCoordinate(c)]; }
      if c !in plans { issues := issues + [UnplannedCoordinate(c)]; }
    }
    CountsTell(observed, order, plans);
  }

  lemma CountsTell(observed: seq<Coordinate>, order: seq<Coordinate>, plans: seq<Coordinate>)
    requires forall c :: c in order <==> c in observed
    ensures (forall j | 0 <= j < |order| :: multiset(observed)[order[j]] <= 1 && order[j] in plans)
            <==> NoDuplicates(observed) && forall i | 0 <= i < |observed| :: observed[i] in plans
  {
    if forall j | 0 <= j < |order| :: multiset(observed)[order[j]] <= 1 && order[j] in plans {
      forall i | 0 <= i < |observed| ensures observed[i] in plans && multiset(observed)[observed[i]] <= 1 {
        assert observed[i] in order;
      }
      forall i, j | 0 <= i < j < |observed| ensures observed[i] != observed[j] {
        OccursTwice(observed, i, j);
      }
    } else if NoDuplicates(observed) && forall i | 0 <= i < |observed| :: observed[i] in plans {
      forall j | 0 <= j < |order| ensures multiset(observed)[order[j]] <= 1 && order[j] in plans {
        assert order[j] in observed;
        var i :| 0 <= i < |observed| && observed[i] == order[j];
        WithoutMultiset(observed, i);
        assert order[j] !in Without(observed, i);
        assert multiset(Without(observed, i))[order[j]] == 0;
      }
      assert false;
    }
  }

  method CheckMissing(observed: seq<Coordinate>, plans: seq<Coordinate>) returns (issues: seq<Issue>)
    ensures issues == [] <==> forall i | 0 <= i < |plans| :: plans[i] in observed
  {
    var seen := ToSet(observed);
    issues := [];
    for i := 0 to |plans|
      invariant issues == [] <==> forall j | 0 <= j < i :: plans[j] in observed
    {
      if plans[i] !in seen { issues := issues + [MissingCoordinate(plans[i])]; }
    }
  }

  /** Every sample at its own position, and sound under the plan its coordinate names, if any. */
  method CheckSamples(plans: seq<Coordinate>, samples: seq<Sample>) returns (issues: seq<Issue>)
    ensures issues == [] <==>
            forall i | 0 <= i < |samples| ::
              && (i < |plans| ==> CoordinateOf(samples[i]) == plans[i])
              && (CoordinateOf(samples[i]) in plans ==> SampleIssues(CoordinateOf(samples[i]), samples[i]) == [])
  {
    issues := [];
    for i := 0 to |samples|
      invariant issues == [] <==>
                forall j | 0 <= j < i ::
                  && (j < |plans| ==> CoordinateOf(samples[j]) == plans[j])
                  && (CoordinateOf(samples[j]) in plans ==> SampleIssues(CoordinateOf(samples[j]), samples[j]) == [])
    {
      var c := CoordinateOf(samples[i]);
      if i < |plans| && c != plans[i] { issues := issues + [SampleOrderMismatch(c)]; }
      if c in plans { issues := issues + SampleIssues(c, samples[i]); }
    }
  }

  /** A run is VALID exactly when every planned position holds a sample that fits its plan. */
  method ValidateRun(rounds: nat, samples: seq<Sample>) returns (issues: seq<Issue>)
    ensures issues == [] <==> EverySampleFits(Plans(rounds), samples)
  {
    var plans := Plans(rounds);
    issues := if |samples| != |plans| then [SampleCountMismatch] else [];
    var observed := Coordinates(samples);
    var accounting := CheckObserved(observed, plans);
    var missing := CheckMissing(observed, plans);
    var positions := CheckSamples(plans, samples);
    issues := issues + accounting + missing + positions;
    RunIff(plans, samples);
  }

  predicate NoIssueOfAnyKind(plans: seq<Coordinate>, samples: seq<Sample>) {
    var observed := Coordinates(samples);
    && |samples| == |plans|
    && NoDuplicates(observed) && (forall i | 0 <= i < |observed| :: observed[i] in plans)
    && (forall i | 0 <= i < |plans| :: plans[i] in observed)
    && forall i | 0 <= i < |samples| ::
         && (i < |plans| ==> CoordinateOf(samples[i]) == plans[i])
         && (CoordinateOf(samples[i]) in plans ==> SampleIssues(CoordinateOf(samples[i]), samples[i]) == [])
  }

  lemma RunIff(plans: seq<Coordinate>, samples: seq<Sample>)
    requires NoDuplicates(plans)
    ensures NoIssueOfAnyKind(plans, samples) <==> EverySampleFits(plans, samples)
  {
    if NoIssueOfAnyKind(plans, samples) {
      forall i | 0 <= i < |samples| ensures SampleIssues(plans[i], samples[i]) == [] {
        assert CoordinateOf(samples[i]) == plans[i];
      }
    }
    if EverySampleFits(plans, samples) {
      forall i | 0 <= i < |samples| ensures CoordinateOf(samples[i]) == plans[i] {
        SampleIssuesIff(plans[i], samples[i]);
      }
      assert Coordinates(samples) == plans;
    }
  }

  // ----- stopping at the first invalid sample -----

  /** The first position whose sample does not fit, or the number of plans. */
  ghost predicate StopsAt(plans: seq<Coordinate>, executeOne: Coordinate -> Option<Sample>, k: nat) {
    && k <= |plans|
    && (forall i | 0 <= i < k :: executeOne(plans[i]).Some? && SampleIssues(plans[i], executeOne(plans[i]).value) == [])
    && (k < |plans| ==> executeOne(plans[k]) == None || SampleIssues(plans[k], executeOne(plans[k]).value) != [])
  }

  /** None when executing a plan raised; otherwise every sample up to and including the first invalid one. */
  method ExecuteUntilInvalid(plans: seq<Coordinate>, executeOne: Coordinate -> Option<Sample>)
    returns (r: Option<seq<Sample>>, ghost k: nat)
    ensures StopsAt(plans, executeOne, k)
    ensures r == None <==> k < |plans| && executeOne(plans[k]) == None
    ensures r.Some? ==> |r.value| == (if k < |plans| then k + 1 else k)
    ensures r.Some? ==> forall i | 0 <= i < |r.value| :: Some(r.value[i]) == executeOne(plans[i])
  {
    var samples := [];
    for i := 0 to |plans|
      invariant |samples| == i
      invariant forall j | 0 <= j < i :: Some(samples[j]) == executeOne(plans[j]) && SampleIssues(plans[j], samples[j]) == []
    {
      var sample := executeOne(plans[i]);
      if sample == None {
        return None, i;
      }
      samples := samples + [sample.value];
      if SampleIssues(plans[i], sample.value) != [] {
        return Some(samples), i;
      }
    }
    return Some(samples), |plans|;
  }

  /** Stopping early and validating the whole run agree: the run is VALID iff no invalid sample was met. */
  method ExecuteAndValidate(rounds: nat, executeOne: Coordinate -> Option<Sample>)
    returns (r: Option<(seq<Sample>, seq<Issue>)>, ghost k: nat)
    ensures StopsAt(Plans(rounds), executeOne, k)
    ensures r.Some? ==> (r.value.1 == [] <==> k == 2 * rounds)
    ensures r.Some? ==> (r.value.1 == [] <==>
              && |r.value.0| == 2 * rounds
              && forall i | 0 <= i < |r.value.0| :: SampleIssues(PlanAt(i), r.value.0[i]) == [])
    ensures r == None ==> k < 2 * rounds && executeOne(PlanAt(k)) == None
  {
    var plans := Plans(rounds);
    var samples;
    samples, k := ExecuteUntilInvalid(plans, executeOne);
    if samples == None {
      return None, k;
    }
    var issues := ValidateRun(rounds, samples.value);
    r := Some((samples.value, issues));
    assert k < |plans| ==> Some(samples.value[k]) == executeOne(plans[k]);
  }

  // ----- aggregation of a valid run is total -----

  function SamplesA(samples: seq<Sample>): seq<Sample> {
    FlatMap((s: Sample) => if s.SampleA? then [s] else [], samples)
  }

  function SamplesB(samples: seq<Sample>): seq<Sample> {
    FlatMap((s: Sample) => if s.SampleB? then [s] else [], samples)
  }

  lemma NextSample(samples: seq<Sample>, s: Sample)
    ensures SamplesA(samples + [s]) == SamplesA(samples) + (if s.SampleA? then [s] else [])
    ensures SamplesB(samples + [s]) == SamplesB(samples) + (if s.SampleB? then [s] else [])
  {
    assert (samples + [s])[..|samples|] == samples;
  }

  predicate Accounted(samples: seq<Sample>, rounds: nat) {
    var a, b := SamplesA(samples), SamplesB(samples);
    && |a| == |b| == rounds
    && (forall i | 0 <= i < rounds :: Sound(a[i]) && a[i].round == i)
    && (forall i | 0 <= i < rounds :: Sound(b[i]) && b[i].round == i)
  }

  lemma AccountedNext(rest: seq<Sample>, rounds: nat, a: Sample, b: Sample)
    requires Accounted(rest, rounds)
    requires a.SampleA? && b.SampleB? && Sound(a) && Sound(b) && a.round == b.round == rounds
    ensures Accounted(rest + [a] + [b], rounds + 1)
  {
    NextSample(rest, a);
    NextSample(rest + [a], b);
  }

  predicate InPlace(s: Sample, i: nat) {
    Sound(s) && s.round == i / 2 && (s.SampleA? <==> i % 2 == 0)
  }

  lemma {:induction false} InPlaceAccounts(rounds: nat, samples: seq<Sample>)
    requires |samples| == 2 * rounds && forall i | 0 <= i < |samples| :: InPlace(samples[i], i)
    ensures Accounted(samples, rounds)
  {
    if rounds > 0 {
      var n := 2 * rounds - 2;
      InPlaceAccounts(rounds - 1, samples[..n]);
      assert InPlace(samples[n], n) && InPlace(samples[n + 1], n + 1);
      AccountedNext(samples[..n], rounds - 1, samples[n], samples[n + 1]);
      assert samples == samples[..n] + [samples[n]] + [samples[n + 1]];
    }
  }

  /** A valid run holds one sample of each control per round, each with every timing it must have. */
  lemma ValidRunAccounts(rounds: nat, samples: seq<Sample>)
    requires EverySampleFits(Plans(rounds), samples)
    ensures Accounted(samples, rounds)
  {
    forall i | 0 <= i < |samples| ensures InPlace(samples[i], i) {
      SampleIssuesIff(Plans(rounds)[i], samples[i]);
    }
    InPlaceAccounts(rounds, samples);
  }

  // ----- nested clock intervals -----

  /** A clock that yields the given readings one by one. */
  class Clock {
    const readings: seq<int>
    var next: nat

    constructor (r: seq<int>)
      ensures readings == r && next == 0
    {
      readings := r;
      next := 0;
    }

    method Read() returns (t: int)
      requires next < |readings|
      modifies this
      ensures t == readings[old(next)] && next == old(next) + 1
    {
      t := readings[next];
      next := next + 1;
    }
  }

  /** The timed part of one lifecycle; a call that raised is given by its exception's name. */
  datatype Timed = Timed(checkNs: int, historyNs: Option<int>, cleanupNs: int, lifecycleNs: int, exceptionType: Option<string>)

  function Elapsed(started: int, stopped: int): Option<int> {
    if stopped < started then None else Some(stopped - started)
  }

  predicate Monotone(readings: seq<int>) {
    forall i, j | 0 <= i < j < |readings| :: readings[i] <= readings[j]
  }

  /**
   Times check, history load and rollback inside one outer interval. On a clock that never goes
   back no timing is refused and the parts never exceed the whole; the first failure is the one kept.
   */
  method TimePreliminaryRead(clock: Clock, check: Option<string>, load: Option<string>, rollback: Option<string>)
    returns (r: Option<Timed>)
    requires clock.next + 8 <= |clock.readings|
    modifies clock
    ensures r.Some? ==> clock.next == old(clock.next) + (if check.Some? then 6 else 8)
    ensures Monotone(clock.readings) ==> r.Some?
    ensures r.Some? ==>
              && r.value.checkNs >= 0 && r.value.cleanupNs >= 0
              && (r.value.historyNs.Some? <==> check == None)
              && r.value.exceptionType == (if check.Some? then check else if load.Some? then load else rollback)
    ensures r.Some? && Monotone(clock.readings) ==>
              r.value.checkNs + (if r.value.historyNs.Some? then r.value.historyNs.value else 0) + r.value.cleanupNs
              <= r.value.lifecycleNs
  {
    var lifecycleStarted := clock.Read();
    var checkStarted := clock.Read();
    var exceptionType := check;
    var checkStopped := clock.Read();
    var history: Option<int> := None;
    var historyRefused := false;
    if exceptionType == None {
      var historyStarted := clock.Read();
      exceptionType := load;
      var historyStopped := clock.Read();
      history := Elapsed(historyStarted, historyStopped);
      historyRefused := history == None;
    }
    if historyRefused {
      return None;
    }
    var cleanupStarted := clock.Read();
    if exceptionType == None { exceptionType := rollback; }
    var cleanupStopped := clock.Read();
    var lifecycleStopped := clock.Read();
    var checkNs := Elapsed(checkStarted, checkStopped);
    var cleanupNs := Elapsed(cleanupStarted, cleanupStopped);
    var lifecycleNs := Elapsed(lifecycleStarted, lifecycleStopped);
    if checkNs == None || cleanupNs == None || lifecycleNs == None {
      return None;
    }
    r := Some(Timed(checkNs.value, history, cleanupNs.value, lifecycleNs.value, exceptionType));
  }
}
