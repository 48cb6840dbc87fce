/** What every interleaving of the lane protocol guarantees. */
module LaneTheorems {
  import opened Wrappers
  import opened Sequences
  import opened LaneProtocol

  // ----- the observed log against the state -----

  /** What having observed an event says about the present state. */
  predicate EventOk(s: State, e: Event)
    requires Shaped(s)
  {
    && e.batch <= s.batch && (e.batch == s.batch ==> InBatch(s.main))
    && match e
       case Reached(l, b) => l < s.n && (b == s.batch ==> l in s.arrived)
       case Opened(b, r) => b == s.batch ==> s.reference == Some(r)
       case Started(l, b, t) =>
         l < s.n && (b == s.batch ==>
                       || s.done[l].Some?
                       || (s.lanes[l].Calling? && s.lanes[l].startNs == t)
                       || (s.lanes[l].Called? && s.lanes[l].startNs == t))
       case Completed(l, b, r) => l < s.n && (b == s.batch ==> s.done[l] == Some(r))
  }

  predicate LogBound(s: State)
    requires Shaped(s)
  {
    forall i | 0 <= i < |s.log| :: EventOk(s, s.log[i])
  }

  predicate Same(e: Event, f: Event) {
    match (e, f)
    case (Reached(l, b), Reached(m, c)) => l == m && b == c
    case (Opened(b, _), Opened(c, _)) => b == c
    case (Started(l, b, _), Started(m, c, _)) => l == m && b == c
    case (Completed(l, b, _), Completed(m, c, _)) => l == m && b == c
    case _ => false
  }

  /** Nothing happens twice: one arrival, start and completion per lane and batch, one release per batch. */
  predicate Once(log: seq<Event>) {
    forall i, j | 0 <= i < j < |log| :: !Same(log[i], log[j])
  }

  predicate StartRecorded(s: State, l: nat)
    requires Shaped(s) && l < s.n
  {
    && (s.lanes[l].Calling? || s.lanes[l].Called? ==> Started(l, s.batch, s.lanes[l].startNs) in s.log)
    && (s.done[l].Some? ==>
          && Completed(l, s.batch, s.done[l].value) in s.log
          && (s.done[l].value.Value? ==> Started(l, s.batch, s.done[l].value.observation.startNs) in s.log))
  }

  /** Everything the present batch has done so far is in the log. */
  predicate Recorded(s: State)
    requires Shaped(s)
  {
    InBatch(s.main) ==>
      && (forall l | l in s.arrived :: Reached(l, s.batch) in s.log)
      && (s.reference.Some? ==> Opened(s.batch, s.reference.value) in s.log)
      && (forall l | 0 <= l < s.n :: StartRecorded(s, l))
  }

  /** A start is preceded by the release of its batch and by the arrival of every lane. */
  predicate Preceded(log: seq<Event>, n: nat, i: nat)
    requires i < |log|
  {
    log[i].Started? ==>
      && (exists j | 0 <= j < i :: log[j].Opened? && log[j].batch == log[i].batch)
      && (forall m | 0 <= m < n :: Reached(m, log[i].batch) in log[..i])
  }

  predicate Synchronised(log: seq<Event>, n: nat) {
    forall i | 0 <= i < |log| :: Preceded(log, n, i)
  }

  /** Under a monotone clock no start lies before the release reference of its batch. */
  predicate OffsetsNonNegative(log: seq<Event>) {
    forall i, j | 0 <= i < |log| && 0 <= j < |log| && log[i].Opened? && log[j].Started? && log[i].batch == log[j].batch ::
      log[i].referenceNs <= log[j].startNs
  }

  predicate LaneTiming(s: State, l: nat)
    requires Shaped(s) && l < s.n
  {
    s.lanes[l].Calling? || s.lanes[l].Called? ==> s.lanes[l].startNs <= s.clock
  }

  predicate Timing(s: State)
    requires Shaped(s)
  {
    s.monotone ==>
      && (InBatch(s.main) && s.reference.Some? ==> s.reference.value <= s.clock)
      && (forall l | 0 <= l < s.n :: LaneTiming(s, l))
      && OffsetsNonNegative(s.log)
  }

  predicate HasCompleted(log: seq<Event>, l: nat, b: nat) {
    exists i | 0 <= i < |log| :: log[i].Completed? && log[i].lane == l && log[i].batch == b
  }

  /** Every task of every finished batch has been completed. */
  predicate AllCompleted(s: State) {
    forall b, l | 0 <= b < s.batch && 0 <= l < s.n :: HasCompleted(s.log, l, b)
  }

  predicate LogInv(s: State) {
    && Inv(s) && LogBound(s) && Once(s.log) && Recorded(s)
    && Synchronised(s.log, s.n) && Timing(s) && AllCompleted(s)
  }

  // ----- what a step adds to the log -----

  function Emitted(s: State, a: Action): seq<Event>
    requires Inv(s) && Step(s, a).Some?
  {
    Step(s, a).value.log[|s.log|..]
  }

  lemma LogGrows(s: State, a: Action)
    requires Inv(s) && Step(s, a).Some?
    ensures |s.log| <= |Step(s, a).value.log| <= |s.log| + 2
    ensures Step(s, a).value.log == s.log + Emitted(s, a)
  {
    var t := Step(s, a).value;
    assert t.log[..|s.log|] == s.log;
  }

  /** A new event is about the present batch and of a kind its lane had not produced in it. */
  lemma EmittedEvents(s: State, a: Action, l: nat)
    requires Inv(s) && LaneOf(a) == Some(l) && l < s.n && Step(s, a).Some?
    ensures |Step(s, a).value.log| >= |s.log|
    ensures forall k | 0 <= k < |Emitted(s, a)| ::
              match Emitted(s, a)[k]
              case Reached(m, b) => m == l && b == s.batch && l !in s.arrived && InBatch(s.main)
              case Opened(b, r) => a.Trip? && b == s.batch && s.barrier == Filling && InBatch(s.main)
              case Started(m, b, t) => m == l && b == s.batch && s.lanes[l] == Released(b) && a == ReadStart(l, Some(t))
                                       && InBatch(s.main)
              case Completed(m, b, r) => m == l && b == s.batch && s.done[l].None? && InBatch(s.main)
  {
    assert LaneInv(s, l);
  }

  lemma OldEventsStay(s: State, a: Action, e: Event)
    requires Inv(s) && Step(s, a).Some? && EventOk(s, e)
    ensures EventOk(Step(s, a).value, e)
  {
    match LaneOf(a)
    case None =>
    case Some(l) =>
      assert LaneInv(s, l);
      LaneStepShape(s, a, l);
  }

  lemma NewEventsOk(s: State, a: Action, l: nat)
    requires Inv(s) && LaneOf(a) == Some(l) && l < s.n && Step(s, a).Some?
    ensures |Step(s, a).value.log| >= |s.log|
    ensures forall k | 0 <= k < |Emitted(s, a)| :: EventOk(Step(s, a).value, Emitted(s, a)[k])
  {
    LogGrows(s, a);
    LaneStepShape(s, a, l);
    EmittedEvents(s, a, l);
    forall k | 0 <= k < |Emitted(s, a)| ensures EventOk(Step(s, a).value, Emitted(s, a)[k]) { NewEventOk(s, a, l, k); }
  }

  lemma NewEventOk(s: State, a: Action, l: nat, k: nat)
    requires Inv(s) && LaneOf(a) == Some(l) && l < s.n && Step(s, a).Some?
    requires |Step(s, a).value.log| >= |s.log| && k < |Emitted(s, a)|
    ensures Shaped(Step(s, a).value) && EventOk(Step(s, a).value, Emitted(s, a)[k])
  {
    if a.Trip? { NewTripEventOk(s, a, l, k); }
    else if a.Arrive? || a.ReadStart? { NewStartEventOk(s, a, l, k); }
    else { NewEndEventOk(s, a, l, k); }
  }

  lemma NewStartEventOk(s: State, a: Action, l: nat, k: nat)
    requires Inv(s) && (a.Arrive? || a.ReadStart?) && a.lane == l < s.n && Step(s, a).Some?
    requires |Step(s, a).value.log| >= |s.log| && k < |Emitted(s, a)|
    ensures Shaped(Step(s, a).value) && EventOk(Step(s, a).value, Emitted(s, a)[k])
  {
    assert LaneInv(s, l);
  }

  lemma NewEndEventOk(s: State, a: Action, l: nat, k: nat)
    requires Inv(s) && (a.Fetch? || a.Wake? || a.Return? || a.Die? || a.ReadStop?) && a.lane == l < s.n && Step(s, a).Some?
    requires |Step(s, a).value.log| >= |s.log| && k < |Emitted(s, a)|
    ensures Shaped(Step(s, a).value) && EventOk(Step(s, a).value, Emitted(s, a)[k])
  {
    assert LaneInv(s, l);
  }

  lemma NewTripEventOk(s: State, a: Action, l: nat, k: nat)
    requires Inv(s) && a.Trip? && a.lane == l < s.n && Step(s, a).Some?
    requires |Step(s, a).value.log| >= |s.log| && k < |Emitted(s, a)|
    ensures Shaped(Step(s, a).value) && EventOk(Step(s, a).value, Emitted(s, a)[k])
  {
    assert LaneInv(s, l);
  }

  lemma LogBoundStep(s: State, a: Action)
    requires Inv(s) && LogBound(s) && Step(s, a).Some?
    ensures LogBound(Step(s, a).value)
  {
    var t := Step(s, a).value;
    LogGrows(s, a);
    forall i | 0 <= i < |t.log| ensures EventOk(t, t.log[i]) {
      if i < |s.log| {
        OldEventsStay(s, a, s.log[i]);
      } else {
        match LaneOf(a)
        case None =>
        case Some(l) =>
          NewEventsOk(s, a, l);
          assert t.log[i] == Emitted(s, a)[i - |s.log|];
      }
    }
  }

  // ----- each part is kept by every step -----

  lemma FreshEvent(s: State, a: Action, l: nat, k: nat, i: nat)
    requires Inv(s) && LogBound(s) && LaneOf(a) == Some(l) && l < s.n && Step(s, a).Some?
    requires |Step(s, a).value.log| >= |s.log|
    requires k < |Emitted(s, a)| && i < |s.log|
    ensures !Same(s.log[i], Emitted(s, a)[k])
  {
    EmittedEvents(s, a, l);
    assert LaneInv(s, l);
    assert EventOk(s, s.log[i]);
  }

  lemma OnceStep(s: State, a: Action)
    requires Inv(s) && LogBound(s) && Once(s.log) && Step(s, a).Some?
    ensures Once(Step(s, a).value.log)
  {
    var t := Step(s, a).value;
    LogGrows(s, a);
    forall i, j | 0 <= i < j < |t.log| ensures !Same(t.log[i], t.log[j]) {
      match LaneOf(a)
      case None =>
      case Some(l) =>
        if j >= |s.log| {
          assert t.log[j] == Emitted(s, a)[j - |s.log|];
          if i < |s.log| {
            FreshEvent(s, a, l, j - |s.log|, i);
          } else {
            assert i == |s.log| && j == i + 1;
            assert a.Trip?;
          }
        }
    }
  }

  lemma StartRecordedMain(s: State, a: Action, m: nat)
    requires Inv(s) && Recorded(s) && LaneOf(a) == None && Step(s, a).Some? && InBatch(Step(s, a).value.main)
    requires m < s.n
    ensures StartRecorded(Step(s, a).value, m)
  {
    assert LaneInv(s, m);
    if InBatch(s.main) { assert StartRecorded(s, m); }
  }

  lemma StartRecordedOther(s: State, t: State, m: nat)
    requires Shaped(s) && Shaped(t) && s.n == t.n && m < s.n && StartRecorded(s, m)
    requires t.lanes[m] == s.lanes[m] && t.done[m] == s.done[m] && t.batch == s.batch
    requires s.log <= t.log
    ensures StartRecorded(t, m)
  {
    forall e | e in s.log ensures e in t.log { StillLogged(s.log, t.log, e); }
  }

  lemma StartRecordedOwn(s: State, a: Action, l: nat)
    requires Inv(s) && LaneOf(a) == Some(l) && l < s.n && StartRecorded(s, l)
    requires LaneStep(s, a, l).Some? && Shaped(LaneStep(s, a, l).value) && LaneStep(s, a, l).value.n == s.n
    ensures StartRecorded(LaneStep(s, a, l).value, l)
  {
    assert LaneInv(s, l);
  }

  lemma StartRecordedStep(s: State, a: Action, m: nat)
    requires Inv(s) && Recorded(s) && Step(s, a).Some? && InBatch(Step(s, a).value.main)
    requires m < s.n
    ensures Shaped(Step(s, a).value) && Step(s, a).value.n == s.n && StartRecorded(Step(s, a).value, m)
  {
    match LaneOf(a)
    case None => StartRecordedMain(s, a, m);
    case Some(l) =>
      LogGrows(s, a);
      LaneStepShape(s, a, l);
      assert StartRecorded(s, m);
      if m == l {
        StartRecordedOwn(s, a, l);
      } else {
        StartRecordedOther(s, Step(s, a).value, m);
      }
  }

  /** The arrivals and the release of the present batch are in the log. */
  predicate ReleaseRecorded(s: State) {
    && (forall l | l in s.arrived :: Reached(l, s.batch) in s.log)
    && (s.reference.Some? ==> Opened(s.batch, s.reference.value) in s.log)
  }

  lemma ReleaseRecordedMain(s: State, a: Action)
    requires Shaped(s) && LaneOf(a) == None && MainStep(s, a).Some? && InBatch(MainStep(s, a).value.main)
    requires InBatch(s.main) ==> ReleaseRecorded(s)
    ensures ReleaseRecorded(MainStep(s, a).value)
  {
  }

  lemma StillLogged(log: seq<Event>, longer: seq<Event>, e: Event)
    requires log <= longer && e in log
    ensures e in longer
  {
    var i :| 0 <= i < |log| && log[i] == e;
    assert longer[i] == e;
  }

  /** A lane's step counts at most that lane, and logs it. */
  lemma ArrivalLogged(s: State, a: Action, l: nat)
    requires Shaped(s) && l < s.n && LaneInv(s, l) && InBatch(s.main)
    requires LaneOf(a) == Some(l) && LaneStep(s, a, l).Some?
    ensures var t := LaneStep(s, a, l).value;
            && s.log <= t.log && t.batch == s.batch
            && (forall m | m in t.arrived && m !in s.arrived :: m == l)
            && (l in t.arrived && l !in s.arrived ==> |t.log| > |s.log| && t.log[|s.log|] == Reached(l, s.batch))
  {
    if a.Arrive? || a.Trip? { ArrivalAt(s, a, l); }
  }

  lemma ArrivalAt(s: State, a: Action, l: nat)
    requires Shaped(s) && l < s.n && LaneInv(s, l) && InBatch(s.main) && (a.Arrive? || a.Trip?)
    requires a.lane == l && LaneStep(s, a, l).Some?
    ensures var t := LaneStep(s, a, l).value;
            && s.log <= t.log && t.batch == s.batch && t.arrived == s.arrived + {l}
            && |t.log| > |s.log| && t.log[|s.log|] == Reached(l, s.batch)
  {
  }

  lemma ReleaseLogged(s: State, a: Action, l: nat)
    requires Shaped(s) && l < s.n && LaneInv(s, l) && InBatch(s.main)
    requires LaneOf(a) == Some(l) && LaneStep(s, a, l).Some?
    ensures var t := LaneStep(s, a, l).value;
            t.reference == s.reference || (t.reference.Some? ==> Opened(s.batch, t.reference.value) in t.log)
  {
  }

  lemma ReleaseRecordedLane(s: State, a: Action, l: nat)
    requires Shaped(s) && l < s.n && LaneInv(s, l) && InBatch(s.main)
    requires LaneOf(a) == Some(l) && LaneStep(s, a, l).Some? && ReleaseRecorded(s)
    ensures ReleaseRecorded(LaneStep(s, a, l).value)
  {
    var t := LaneStep(s, a, l).value;
    ArrivalLogged(s, a, l);
    ReleaseLogged(s, a, l);
    ReleaseRecordedFrom(s, t, l);
  }

  lemma ReleaseRecordedFrom(s: State, t: State, l: nat)
    requires ReleaseRecorded(s) && s.log <= t.log && t.batch == s.batch
    requires forall m | m in t.arrived && m !in s.arrived :: m == l
    requires l in t.arrived && l !in s.arrived ==> |t.log| > |s.log| && t.log[|s.log|] == Reached(l, s.batch)
    requires t.reference == s.reference || (t.reference.Some? ==> Opened(s.batch, t.reference.value) in t.log)
    ensures ReleaseRecorded(t)
  {
    forall m | m in t.arrived ensures Reached(m, t.batch) in t.log {
      if m in s.arrived { StillLogged(s.log, t.log, Reached(m, s.batch)); }
    }
    if t.reference.Some? && t.reference == s.reference { StillLogged(s.log, t.log, Opened(s.batch, s.reference.value)); }
  }

  lemma ReleaseRecordedStep(s: State, a: Action)
    requires Inv(s) && Recorded(s) && Step(s, a).Some? && InBatch(Step(s, a).value.main)
    ensures ReleaseRecorded(Step(s, a).value)
  {
    match LaneOf(a)
    case None => ReleaseRecordedMain(s, a);
    case Some(l) =>
      LaneStepShape(s, a, l);
      ReleaseRecordedLane(s, a, l);
  }

  lemma RecordedFrom(t: State)
    requires Shaped(t)
    requires InBatch(t.main) ==> ReleaseRecorded(t) && forall l | 0 <= l < t.n :: StartRecorded(t, l)
    ensures Recorded(t)
  {
  }

  lemma RecordedStep(s: State, a: Action)
    requires Inv(s) && Recorded(s) && Step(s, a).Some?
    ensures Shaped(Step(s, a).value) && Recorded(Step(s, a).value)
  {
    var t := Step(s, a).value;
    StepShape(s, a);
    if InBatch(t.main) {
      ReleaseRecordedStep(s, a);
      forall l | 0 <= l < t.n ensures StartRecorded(t, l) { StartRecordedStep(s, a, l); }
    }
    RecordedFrom(t);
  }

  lemma StepShape(s: State, a: Action)
    requires Inv(s) && Step(s, a).Some?
    ensures Shaped(Step(s, a).value) && Step(s, a).value.n == s.n
  {
  }

  lemma PrecededPrefix(log: seq<Event>, more: seq<Event>, n: nat, i: nat)
    requires i < |log| && Preceded(log, n, i)
    ensures Preceded(log + more, n, i)
  {
    var all := log + more;
    assert all[..i] == log[..i];
    if log[i].Started? {
      var j :| 0 <= j < i && log[j].Opened? && log[j].batch == log[i].batch;
      assert all[j] == log[j];
    }
  }

  lemma SynchronisedStep(s: State, a: Action)
    requires Inv(s) && Recorded(s) && Synchronised(s.log, s.n) && Step(s, a).Some?
    ensures Synchronised(Step(s, a).value.log, s.n)
  {
    var t := Step(s, a).value;
    LogGrows(s, a);
    forall i | 0 <= i < |t.log| ensures Preceded(t.log, s.n, i) {
      if i < |s.log| {
        PrecededPrefix(s.log, Emitted(s, a), s.n, i);
      } else if t.log[i].Started? {
        NewStartPreceded(s, a, i);
      }
    }
  }

  lemma NewStartPreceded(s: State, a: Action, i: nat)
    requires Inv(s) && Recorded(s) && Step(s, a).Some?
    requires |s.log| <= i < |Step(s, a).value.log| && Step(s, a).value.log[i].Started?
    ensures Preceded(Step(s, a).value.log, s.n, i)
  {
    var t := Step(s, a).value;
    LogGrows(s, a);
    assert LaneOf(a).Some?;
    var l := LaneOf(a).value;
    EmittedEvents(s, a, l);
    assert t.log[i] == Emitted(s, a)[i - |s.log|];
    assert LaneInv(s, l);
    assert i == |s.log| && t.log[..i] == s.log;
    var j :| 0 <= j < |s.log| && s.log[j] == Opened(s.batch, s.reference.value);
    assert t.log[j] == s.log[j];
  }

  lemma TimingStep(s: State, a: Action)
    requires Inv(s) && LogBound(s) && Timing(s) && Step(s, a).Some?
    ensures Timing(Step(s, a).value)
  {
    var t := Step(s, a).value;
    StepShape(s, a);
    if t.monotone {
      ClockStep(s, a);
      forall l | 0 <= l < s.n ensures LaneTiming(t, l) { LaneTimingStep(s, a, l); }
      OffsetsStep(s, a);
    }
  }

  /** A reading that did not go back is not before the reference. */
  lemma ClockStep(s: State, a: Action)
    requires Inv(s) && Timing(s) && Step(s, a).Some? && Step(s, a).value.monotone
    ensures var t := Step(s, a).value;
            && s.monotone && s.clock <= t.clock
            && (InBatch(t.main) && t.reference.Some? ==> t.reference.value <= t.clock)
  {
  }

  lemma LaneTimingStep(s: State, a: Action, l: nat)
    requires Inv(s) && Timing(s) && Step(s, a).Some? && Step(s, a).value.monotone && l < s.n
    ensures Shaped(Step(s, a).value) && Step(s, a).value.n == s.n && LaneTiming(Step(s, a).value, l)
  {
    ClockStep(s, a);
    assert LaneTiming(s, l);
  }

  lemma OffsetsStep(s: State, a: Action)
    requires Inv(s) && LogBound(s) && Timing(s) && Step(s, a).Some? && Step(s, a).value.monotone
    ensures OffsetsNonNegative(Step(s, a).value.log)
  {
    var t := Step(s, a).value;
    LogGrows(s, a);
    forall i, j | 0 <= i < |t.log| && 0 <= j < |t.log| && t.log[i].Opened? && t.log[j].Started?
                  && t.log[i].batch == t.log[j].batch
      ensures t.log[i].referenceNs <= t.log[j].startNs
    {
      if i >= |s.log| || j >= |s.log| { NewOffset(s, a, i, j); }
    }
  }

  lemma StartedAfterFilling(s: State, e: Event)
    requires Inv(s) && EventOk(s, e) && e.Started? && e.batch == s.batch
    ensures s.barrier != Filling
  {
    assert LaneInv(s, e.lane);
  }

  lemma NewOffset(s: State, a: Action, i: nat, j: nat)
    requires Inv(s) && LogBound(s) && Timing(s) && Step(s, a).Some? && Step(s, a).value.monotone
    requires var log := Step(s, a).value.log;
             i < |log| && j < |log| && log[i].Opened? && log[j].Started? && log[i].batch == log[j].batch
             && (i >= |s.log| || j >= |s.log|)
    ensures Step(s, a).value.log[i].referenceNs <= Step(s, a).value.log[j].startNs
  {
    var t := Step(s, a).value;
    LogGrows(s, a);
    assert LaneOf(a).Some?;
    var l := LaneOf(a).value;
    EmittedEvents(s, a, l);
    if i >= |s.log| {
      assert t.log[i] == Emitted(s, a)[i - |s.log|];
      assert j < |s.log|;
      StartedAfterFilling(s, s.log[j]);
    } else {
      assert t.log[j] == Emitted(s, a)[j - |s.log|];
      assert EventOk(s, s.log[i]);
    }
  }

  lemma AllCompletedStep(s: State, a: Action)
    requires Inv(s) && Recorded(s) && AllCompleted(s) && Step(s, a).Some?
    ensures AllCompleted(Step(s, a).value)
  {
    var t := Step(s, a).value;
    LogGrows(s, a);
    forall b, l | 0 <= b < t.batch && 0 <= l < t.n ensures HasCompleted(t.log, l, b) {
      if b < s.batch {
        assert HasCompleted(s.log, l, b);
        var i :| 0 <= i < |s.log| && s.log[i].Completed? && s.log[i].lane == l && s.log[i].batch == b;
        assert t.log[i] == s.log[i];
      } else {
        assert StartRecorded(s, l);
      }
    }
  }

  lemma LogInvStep(s: State, a: Action)
    requires LogInv(s) && Step(s, a).Some?
    ensures LogInv(Step(s, a).value)
  {
    StepInv(s, a);
    LogBoundStep(s, a);
    OnceStep(s, a);
    RecordedStep(s, a);
    SynchronisedStep(s, a);
    TimingStep(s, a);
    AllCompletedStep(s, a);
  }

  // ----- whole runs -----

  function Stepper(): (State, Action) -> Option<State> {
    (s: State, a: Action) => if Shaped(s) then Step(s, a) else None
  }

  /** Consecutive states of a run are joined by one step of one thread. */
  ghost predicate IsRun(states: seq<State>, n: nat) {
    n >= 1 && Linked(Stepper(), states) && states[0] == Initial(n)
  }

  lemma InitialLogInv(n: nat)
    requires n >= 1
    ensures LogInv(Initial(n))
  {
    InitialInv(n);
  }

  lemma StepperSteps(s: State, a: Action, t: State)
    requires Stepper()(s, a) == Some(t)
    ensures Shaped(s) && Step(s, a) == Some(t)
  {
  }

  lemma NextLogInv(s: State, a: Action, t: State)
    requires LogInv(s) && Stepper()(s, a) == Some(t)
    ensures LogInv(t) && t.n == s.n
  {
    StepperSteps(s, a, t);
    LogInvStep(s, a);
    StepShape(s, a);
  }

  lemma {:induction false} RunInv(states: seq<State>, n: nat, i: nat)
    requires IsRun(states, n) && i < |states|
    ensures LogInv(states[i]) && states[i].n == n
  {
    if i == 0 {
      InitialLogInv(n);
    } else {
      RunInv(states, n, i - 1);
      var a := LinkedAt(Stepper(), states, i - 1);
      NextLogInv(states[i - 1], a, states[i]);
    }
  }

  /** Nothing is repeated, no writer starts early, and every finished batch completed every task. */
  lemma RunsAreSynchronised(states: seq<State>, n: nat, i: nat)
    requires IsRun(states, n) && i < |states|
    ensures Once(states[i].log) && Synchronised(states[i].log, n) && AllCompleted(states[i])
    ensures states[i].monotone ==> OffsetsNonNegative(states[i].log)
  {
    RunInv(states, n, i);
  }

  /** Between batches every queue is empty and every lane is back at its queue. */
  lemma QueuesEmptyBetweenBatches(states: seq<State>, n: nat, i: nat, l: nat)
    requires IsRun(states, n) && i < |states| && states[i].main == Ready && l < n
    ensures Shaped(states[i]) && states[i].n == n
    ensures states[i].queues[l] == [] && states[i].lanes[l] == Waiting
  {
    RunInv(states, n, i);
    assert LaneInv(states[i], l);
  }

  // ----- what a batch returns -----

  lemma {:induction false} CollectSpec(done: seq<Option<TaskResult>>, lane: nat)
    requires lane <= |done| && forall i | 0 <= i < |done| :: done[i].Some?
    ensures match Collect(done, lane)
            case Returned(results) =>
              && |results| == |done| - lane
              && forall l | lane <= l < |done| :: done[l].value == Value(results[l - lane])
            case RaisedBy(bad) =>
              && lane <= bad < |done| && done[bad].value.Error?
              && forall l | lane <= l < bad :: done[l].value.Value?
    decreases |done| - lane
  {
    if lane < |done| { CollectSpec(done, lane + 1); }
  }

  /** What a finished batch returned, against the log. */
  lemma FinishedBatchReturns(states: seq<State>, n: nat, i: nat)
    requires IsRun(states, n) && i + 1 < |states|
    requires Shaped(states[i]) && Step(states[i], Finish) == Some(states[i + 1])
    ensures states[i + 1].outcome.Some?
    ensures match states[i + 1].outcome.value
            case Returned(results) =>
              && |results| == n && states[i + 1].reference.Some?
              && forall l | 0 <= l < n ::
                   && Completed(l, states[i].batch, Value(results[l])) in states[i + 1].log
                   && Started(l, states[i].batch, results[l].startNs) in states[i + 1].log
                   && (states[i + 1].monotone ==> states[i + 1].reference.value <= results[l].startNs)
            case RaisedBy(bad) =>
              && bad < n && Completed(bad, states[i].batch, Error) in states[i + 1].log
  {
    RunInv(states, n, i);
    FinishReturns(states[i]);
  }

  lemma FinishReturns(s: State)
    requires LogInv(s) && Step(s, Finish).Some?
    ensures match Step(s, Finish).value.outcome.value
            case Returned(results) =>
              && |results| == s.n && s.reference.Some?
              && forall l | 0 <= l < s.n ::
                   && Completed(l, s.batch, Value(results[l])) in s.log
                   && Started(l, s.batch, results[l].startNs) in s.log
                   && (s.monotone ==> s.reference.value <= results[l].startNs)
            case RaisedBy(bad) => bad < s.n && Completed(bad, s.batch, Error) in s.log
  {
    CollectSpec(s.done, 0);
    match Collect(s.done, 0)
    case RaisedBy(bad) => assert StartRecorded(s, bad);
    case Returned(results) =>
      assert StartRecorded(s, 0);
      StartedWhileOpen(s, 0, results[0].startNs);
      forall l | 0 <= l < s.n
        ensures && Completed(l, s.batch, Value(results[l])) in s.log
                && Started(l, s.batch, results[l].startNs) in s.log
                && (s.monotone ==> s.reference.value <= results[l].startNs)
      {
        assert StartRecorded(s, l);
        StartedWhileOpen(s, l, results[l].startNs);
      }
  }

  lemma StartedWhileOpen(s: State, l: nat, t: nat)
    requires LogInv(s) && InBatch(s.main) && l < s.n && Started(l, s.batch, t) in s.log
    ensures s.reference.Some? && (s.monotone ==> s.reference.value <= t)
  {
    var j :| 0 <= j < |s.log| && s.log[j] == Started(l, s.batch, t);
    assert Preceded(s.log, s.n, j);
    var i :| 0 <= i < j && s.log[i].Opened? && s.log[i].batch == s.batch;
    assert EventOk(s, s.log[i]);
  }

  // ----- the readings behind a result -----

  /** The actions of a run, one between each state and the next. */
  ghost predicate IsTrace(states: seq<State>, actions: seq<Action>, n: nat) {
    n >= 1 && Chain(Stepper(), states, actions) && states[0] == Initial(n)
  }

  lemma TraceIsRun(states: seq<State>, actions: seq<Action>, n: nat)
    requires IsTrace(states, actions, n)
    ensures IsRun(states, n)
  {
    ChainLinks(Stepper(), states, actions);
  }

  /** Every run has its actions. */
  lemma RunHasTrace(states: seq<State>, n: nat) returns (actions: seq<Action>)
    requires IsRun(states, n)
    ensures IsTrace(states, actions, n)
  {
    actions := LinksChain(Stepper(), states);
  }

  /** Each action so far, with the batch it was taken in. */
  type Past = seq<(Action, nat)>

  ghost function PastOf(states: seq<State>, actions: seq<Action>, i: nat): Past
    requires i <= |actions| && |actions| < |states|
  {
    seq(i, k requires 0 <= k < i => (actions[k], states[k].batch))
  }

  ghost predicate Did(past: Past, a: Action, batch: nat) {
    (a, batch) in past
  }

  /** A lane's own start, return and stop, with exactly the values its observation has. */
  ghost predicate Observed(past: Past, batch: nat, l: nat, o: Observation) {
    Did(past, ReadStart(l, Some(o.startNs)), batch) && Did(past, Return(l, o.raised), batch) && Did(past, ReadStop(l, Some(o.stopNs)), batch)
  }

  /** Something of this lane, or the release of its batch, went wrong. */
  ghost predicate Failed(past: Past, batch: nat, l: nat) {
    || Did(past, ReadStart(l, None), batch) || Did(past, Die(l), batch) || Did(past, ReadStop(l, None), batch)
    || (exists m :: Did(past, Trip(m, None), batch))
    || (exists t, u :: Did(past, ReadStart(l, Some(t)), batch) && Did(past, ReadStop(l, Some(u)), batch) && u < t)
  }

  ghost predicate LaneExplained(s: State, past: Past, l: nat)
    requires Shaped(s) && l < s.n
  {
    && (s.lanes[l].Calling? ==> Did(past, ReadStart(l, Some(s.lanes[l].startNs)), s.batch))
    && (s.lanes[l].Called? ==>
          && Did(past, ReadStart(l, Some(s.lanes[l].startNs)), s.batch)
          && Did(past, Return(l, s.lanes[l].raised), s.batch))
    && (s.done[l].Some? && s.done[l].value.Value? ==> Observed(past, s.batch, l, s.done[l].value.observation))
    && (s.done[l].Some? && s.done[l].value.Error? ==> Failed(past, s.batch, l))
  }

  ghost predicate ReleaseExplained(s: State, past: Past) {
    && (s.reference.Some? ==> exists m :: Did(past, Trip(m, s.reference), s.batch))
    && (s.barrier == Broken ==> exists m :: Did(past, Trip(m, None), s.batch))
  }

  ghost predicate Explained(s: State, past: Past)
    requires Shaped(s)
  {
    InBatch(s.main) ==> ReleaseExplained(s, past) && forall l | 0 <= l < s.n :: LaneExplained(s, past, l)
  }

  lemma DidStill(past: Past, next: (Action, nat), a: Action, batch: nat)
    requires Did(past, a, batch)
    ensures Did(past + [next], a, batch)
  {
    var k :| 0 <= k < |past| && past[k] == (a, batch);
    assert (past + [next])[k] == (a, batch);
  }

  lemma DidNow(past: Past, a: Action, batch: nat)
    ensures Did(past + [(a, batch)], a, batch)
  {
    assert (past + [(a, batch)])[|past|] == (a, batch);
  }

  lemma ExplainedStill(s: State, t: State, past: Past, next: (Action, nat), l: nat)
    requires Shaped(s) && Shaped(t) && t.n == s.n && l < s.n && LaneExplained(s, past, l)
    requires t.lanes[l] == s.lanes[l] && t.done[l] == s.done[l] && t.batch == s.batch
    ensures LaneExplained(t, past + [next], l)
  {
    forall a | Did(past, a, s.batch) ensures Did(past + [next], a, s.batch) { DidStill(past, next, a, s.batch); }
  }

  lemma ExplainedOwn(s: State, a: Action, l: nat, past: Past)
    requires Inv(s) && LaneOf(a) == Some(l) && l < s.n && InBatch(s.main) && LaneStep(s, a, l).Some?
    requires LaneExplained(s, past, l) && ReleaseExplained(s, past)
    ensures var t := LaneStep(s, a, l).value; Shaped(t) && t.n == s.n && LaneExplained(t, past + [(a, s.batch)], l)
  {
    assert LaneInv(s, l);
    forall b | Did(past, b, s.batch) ensures Did(past + [(a, s.batch)], b, s.batch) { DidStill(past, (a, s.batch), b, s.batch); }
    DidNow(past, a, s.batch);
  }

  /** Only the lane that trips the barrier changes its reference or breaks it. */
  lemma TripReleases(s: State, a: Action, l: nat)
    requires Inv(s) && LaneOf(a) == Some(l) && l < s.n && LaneStep(s, a, l).Some?
    ensures var t := LaneStep(s, a, l).value;
            && t.batch == s.batch
            && (!a.Trip? ==> t.reference == s.reference && t.barrier == s.barrier)
            && (a.Trip? && a.reading.Some? ==> t.reference == a.reading && t.barrier == Open)
            && (a.Trip? && a.reading.None? ==> t.reference == s.reference && t.barrier == Broken)
  {
  }

  lemma ReleaseExplainedLane(s: State, a: Action, l: nat, past: Past)
    requires Inv(s) && LaneOf(a) == Some(l) && l < s.n && LaneStep(s, a, l).Some? && ReleaseExplained(s, past)
    ensures ReleaseExplained(LaneStep(s, a, l).value, past + [(a, s.batch)])
  {
    TripReleases(s, a, l);
    DidNow(past, a, s.batch);
    ReleaseStill(s, past, (a, s.batch));
  }

  lemma ReleaseStill(s: State, past: Past, next: (Action, nat))
    requires ReleaseExplained(s, past)
    ensures ReleaseExplained(s, past + [next])
  {
    if s.reference.Some? {
      var m :| Did(past, Trip(m, s.reference), s.batch);
      DidStill(past, next, Trip(m, s.reference), s.batch);
    }
    if s.barrier == Broken {
      var m :| Did(past, Trip(m, None), s.batch);
      DidStill(past, next, Trip(m, None), s.batch);
    }
  }

  lemma ExplainedMain(s: State, a: Action, past: Past)
    requires Inv(s) && LaneOf(a) == None && MainStep(s, a).Some? && Explained(s, past)
    ensures Shaped(MainStep(s, a).value) && Explained(MainStep(s, a).value, past + [(a, s.batch)])
  {
    var t := MainStep(s, a).value;
    forall b | Did(past, b, s.batch) ensures Did(past + [(a, s.batch)], b, s.batch) { DidStill(past, (a, s.batch), b, s.batch); }
    if InBatch(t.main) {
      forall l | 0 <= l < t.n ensures LaneExplained(t, past + [(a, s.batch)], l) {
        assert LaneInv(s, l);
        if InBatch(s.main) { assert LaneExplained(s, past, l); }
      }
    }
  }

  lemma ExplainedStep(s: State, a: Action, past: Past)
    requires Inv(s) && Step(s, a).Some? && Explained(s, past)
    ensures Shaped(Step(s, a).value) && Explained(Step(s, a).value, past + [(a, s.batch)])
  {
    match LaneOf(a)
    case None => ExplainedMain(s, a, past);
    case Some(l) =>
      LaneStepShape(s, a, l);
      var t := Step(s, a).value;
      if InBatch(t.main) {
        ReleaseExplainedLane(s, a, l, past);
        forall m | 0 <= m < t.n ensures LaneExplained(t, past + [(a, s.batch)], m) {
          assert LaneExplained(s, past, m);
          if m == l { ExplainedOwn(s, a, l, past); } else { ExplainedStill(s, t, past, (a, s.batch), m); }
        }
      }
  }

  lemma InitialExplained(n: nat)
    requires n >= 1
    ensures Shaped(Initial(n)) && Explained(Initial(n), [])
  {
  }

  lemma NextExplained(s: State, a: Action, t: State, past: Past)
    requires LogInv(s) && Stepper()(s, a) == Some(t) && Explained(s, past)
    ensures Shaped(t) && Explained(t, past + [(a, s.batch)])
  {
    StepperSteps(s, a, t);
    ExplainedStep(s, a, past);
  }

  lemma PastNext(states: seq<State>, actions: seq<Action>, i: nat)
    requires i < |actions| && |actions| < |states|
    ensures PastOf(states, actions, i + 1) == PastOf(states, actions, i) + [(actions[i], states[i].batch)]
  {
  }

  lemma {:induction false} TraceExplained(states: seq<State>, actions: seq<Action>, n: nat, i: nat)
    requires IsTrace(states, actions, n) && i <= |actions|
    ensures LogInv(states[i]) && states[i].n == n && Explained(states[i], PastOf(states, actions, i))
  {
    TraceIsRun(states, actions, n);
    RunInv(states, n, i);
    if i == 0 {
      InitialExplained(n);
      assert PastOf(states, actions, 0) == [];
    } else {
      TraceExplained(states, actions, n, i - 1);
      ChainAt(Stepper(), states, actions, i - 1);
      NextExplained(states[i - 1], actions[i - 1], states[i], PastOf(states, actions, i - 1));
      PastNext(states, actions, i - 1);
    }
  }

  /** At some earlier step of this batch the action was taken. */
  ghost predicate TookInBatch(states: seq<State>, actions: seq<Action>, i: nat, a: Action)
    requires i <= |actions| && |actions| < |states|
  {
    exists k | 0 <= k < i :: actions[k] == a && states[k].batch == states[i].batch
  }

  lemma DidIsTaken(states: seq<State>, actions: seq<Action>, i: nat, a: Action)
    requires i <= |actions| && |actions| < |states|
    ensures Did(PastOf(states, actions, i), a, states[i].batch) <==> TookInBatch(states, actions, i, a)
  {
    var past := PastOf(states, actions, i);
    if Did(past, a, states[i].batch) { var k :| 0 <= k < |past| && past[k] == (a, states[i].batch); }
    if TookInBatch(states, actions, i, a) {
      var k :| 0 <= k < i && actions[k] == a && states[k].batch == states[i].batch;
      assert past[k] == (a, states[i].batch);
    }
  }

  /** The reference is what some lane read when it released the batch. */
  ghost predicate ReleasedIn(states: seq<State>, actions: seq<Action>, i: nat, reference: Option<nat>)
    requires i <= |actions| && |actions| < |states|
  {
    exists m :: TookInBatch(states, actions, i, Trip(m, reference))
  }

  /** The lane's times are its own two readings, its outcome its own return. */
  ghost predicate ReadIn(states: seq<State>, actions: seq<Action>, i: nat, l: nat, o: Observation)
    requires i <= |actions| && |actions| < |states|
  {
    && TookInBatch(states, actions, i, ReadStart(l, Some(o.startNs)))
    && TookInBatch(states, actions, i, Return(l, o.raised))
    && TookInBatch(states, actions, i, ReadStop(l, Some(o.stopNs)))
  }

  ghost predicate WentWrong(states: seq<State>, actions: seq<Action>, i: nat, l: nat)
    requires i <= |actions| && |actions| < |states|
  {
    || TookInBatch(states, actions, i, ReadStart(l, None)) || TookInBatch(states, actions, i, Die(l))
    || TookInBatch(states, actions, i, ReadStop(l, None))
    || (exists m :: TookInBatch(states, actions, i, Trip(m, None)))
    || (exists t, u :: TookInBatch(states, actions, i, ReadStart(l, Some(t)))
                       && TookInBatch(states, actions, i, ReadStop(l, Some(u))) && u < t)
  }

  /**
   Whatever the completion order was, a finished batch returns its observations in lane order, each with the
   readings and the outcome its own lane took in that batch, behind a release read in that batch; or it raises,
   for a lane that something went wrong for. Under a monotone clock every offset from the release is non-negative.
   */
  lemma BatchReturnsInLaneOrder(states: seq<State>, actions: seq<Action>, n: nat, i: nat)
    requires IsTrace(states, actions, n) && i < |actions| && actions[i] == Finish
    ensures states[i + 1].outcome.Some?
    ensures match states[i + 1].outcome.value
            case Returned(results) =>
              && |results| == n && states[i + 1].reference.Some?
              && ReleasedIn(states, actions, i, states[i + 1].reference)
              && forall l | 0 <= l < n ::
                   && ReadIn(states, actions, i, l, results[l])
                   && Completed(l, states[i].batch, Value(results[l])) in states[i + 1].log
                   && Started(l, states[i].batch, results[l].startNs) in states[i + 1].log
                   && (states[i + 1].monotone ==> states[i + 1].reference.value <= results[l].startNs)
            case RaisedBy(bad) =>
              && bad < n && Completed(bad, states[i].batch, Error) in states[i + 1].log
              && WentWrong(states, actions, i, bad)
  {
    TraceIsRun(states, actions, n);
    RunInv(states, n, i);
    ChainAt(Stepper(), states, actions, i);
    FinishedBatchReturns(states, n, i);
    TraceExplained(states, actions, n, i);
    CollectSpec(states[i].done, 0);
    match states[i + 1].outcome.value
    case Returned(results) => ReturnedReadings(states, actions, n, i, results);
    case RaisedBy(bad) => RaisedReasons(states, actions, n, i, bad);
  }

  lemma ReturnedReadings(states: seq<State>, actions: seq<Action>, n: nat, i: nat, results: seq<Observation>)
    requires i <= |actions| && |actions| < |states| && Shaped(states[i]) && states[i].n == n && |results| == n
    requires InBatch(states[i].main) && Explained(states[i], PastOf(states, actions, i)) && states[i].reference.Some?
    requires forall l | 0 <= l < n :: states[i].done[l] == Some(Value(results[l]))
    ensures ReleasedIn(states, actions, i, states[i].reference)
    ensures forall l | 0 <= l < n :: ReadIn(states, actions, i, l, results[l])
  {
    var past := PastOf(states, actions, i);
    var m :| Did(past, Trip(m, states[i].reference), states[i].batch);
    DidIsTaken(states, actions, i, Trip(m, states[i].reference));
    forall l | 0 <= l < n ensures ReadIn(states, actions, i, l, results[l]) {
      assert LaneExplained(states[i], past, l);
      DidIsTaken(states, actions, i, ReadStart(l, Some(results[l].startNs)));
      DidIsTaken(states, actions, i, Return(l, results[l].raised));
      DidIsTaken(states, actions, i, ReadStop(l, Some(results[l].stopNs)));
    }
  }

  lemma RaisedReasons(states: seq<State>, actions: seq<Action>, n: nat, i: nat, bad: nat)
    requires i <= |actions| && |actions| < |states| && Shaped(states[i]) && states[i].n == n && bad < n
    requires InBatch(states[i].main) && Explained(states[i], PastOf(states, actions, i))
    requires states[i].done[bad] == Some(Error)
    ensures WentWrong(states, actions, i, bad)
  {
    var past := PastOf(states, actions, i);
    assert LaneExplained(states[i], past, bad);
    forall k | 0 <= k < |past| && past[k].1 == states[i].batch ensures TookInBatch(states, actions, i, past[k].0) {
      DidIsTaken(states, actions, i, past[k].0);
    }
  }

  // ----- progress -----

  /** Some thread can always move while a batch is in flight. */
  lemma NoDeadlock(s: State) returns (a: Action)
    requires Inv(s) && InBatch(s.main)
    ensures Step(s, a).Some?
  {
    if s.main.Putting? {
      return Put;
    }
    var k := s.main.lane;
    if k == s.n {
      forall l | 0 <= l < s.n ensures s.done[l].Some? { assert LaneInv(s, l); }
      return Finish;
    }
    if s.done[k].Some? {
      return Await;
    }
    assert LaneInv(s, k);
    if s.lanes[k].AtBarrier? && s.barrier == Filling {
      var m := SomeoneMissing(s);
      a := MoveBeforeBarrier(s, m);
    } else if s.lanes[k].Waiting? || s.lanes[k].Fetched? {
      a := MoveBeforeBarrier(s, k);
    } else {
      a := match s.lanes[k]
        case AtBarrier(_) => Wake(k)
        case Released(_) => ReadStart(k, None)
        case Calling(_, _) => Return(k, false)
        case _ => ReadStop(k, None);
    }
  }

  lemma SomeoneMissing(s: State) returns (m: nat)
    requires Inv(s) && InBatch(s.main) && s.barrier == Filling
    ensures m < s.n && m !in s.arrived
  {
    if forall l | 0 <= l < s.n :: l in s.arrived {
      CountAtLeast(s.arrived, s.n);
      assert false;
    }
    m :| 0 <= m < s.n && m !in s.arrived;
  }

  lemma {:induction false} CountAtLeast(a: set<nat>, n: nat)
    requires forall l | 0 <= l < n :: l in a
    ensures |a| >= n
  {
    if n > 0 {
      CountAtLeast(a - {n - 1}, n - 1);
    }
  }

  lemma MoveBeforeBarrier(s: State, m: nat) returns (a: Action)
    requires Inv(s) && s.main.Awaiting? && m < s.n && m !in s.arrived
    ensures Step(s, a).Some?
  {
    assert LaneInv(s, m);
    if s.lanes[m].Waiting? {
      a := Fetch(m);
    } else if |s.arrived| + 1 < s.n {
      a := Arrive(m);
    } else {
      a := Trip(m, None);
    }
  }

  function PcRank(pc: LanePc): nat {
    match pc
    case Fetched(_) => 6
    case AtBarrier(_) => 5
    case Released(_) => 4
    case Calling(_, _) => 3
    case Called(_, _, _) => 2
    case _ => 0
  }

  function LanesRank(queues: seq<seq<Item>>, lanes: seq<LanePc>): nat
    requires |queues| == |lanes|
  {
    if lanes == [] then 0
    else 7 * |queues[0]| + PcRank(lanes[0]) + LanesRank(queues[1..], lanes[1..])
  }

  function MainRank(main: MainPc, n: nat): nat {
    match main
    case Putting(k) => if k < n then (n - k) * 8 + n + 1 else 0
    case Awaiting(k) => if k <= n then n - k + 1 else 0
    case _ => 0
  }

  /** An upper bound on the steps left in the batch. */
  function Rank(s: State): nat
    requires Shaped(s)
  {
    MainRank(s.main, s.n) + LanesRank(s.queues, s.lanes)
  }

  lemma {:induction false} LanesRankUpdate(queues: seq<seq<Item>>, lanes: seq<LanePc>, l: nat, q: seq<Item>, pc: LanePc)
    requires |queues| == |lanes| && l < |lanes|
    ensures LanesRank(queues[l := q], lanes[l := pc]) + 7 * |queues[l]| + PcRank(lanes[l])
         == LanesRank(queues, lanes) + 7 * |q| + PcRank(pc)
  {
    if l == 0 {
      assert queues[0 := q][1..] == queues[1..] && lanes[0 := pc][1..] == lanes[1..];
    } else {
      assert queues[l := q][1..] == queues[1..][l - 1 := q] && lanes[l := pc][1..] == lanes[1..][l - 1 := pc];
      LanesRankUpdate(queues[1..], lanes[1..], l - 1, q, pc);
    }
  }

  /** Every step of a batch in flight brings its end nearer, whichever thread takes it. */
  lemma RankDecreases(s: State, a: Action)
    requires Inv(s) && InBatch(s.main) && Step(s, a).Some?
    ensures Shaped(Step(s, a).value) && Rank(Step(s, a).value) < Rank(s)
  {
    match LaneOf(a)
    case None => MainRankDecreases(s, a);
    case Some(l) => LaneRankDecreases(s, a, l);
  }

  lemma MainRankDecreases(s: State, a: Action)
    requires Inv(s) && InBatch(s.main) && LaneOf(a).None? && Step(s, a).Some?
    ensures Shaped(Step(s, a).value) && Rank(Step(s, a).value) < Rank(s)
  {
    if a == Put {
      var k := s.main.lane;
      LanesRankUpdate(s.queues, s.lanes, k, s.queues[k] + [Task(s.batch)], s.lanes[k]);
      assert s.lanes[k := s.lanes[k]] == s.lanes;
    }
  }

  ghost predicate PcRankFalls(s: State, t: State, l: nat)
    requires Shaped(s) && l < s.n
  {
    && Shaped(t) && t.n == s.n && t.main == s.main
    && 7 * |t.queues[l]| + PcRank(t.lanes[l]) < 7 * |s.queues[l]| + PcRank(s.lanes[l])
  }

  lemma FetchRankFalls(s: State, a: Action, l: nat)
    requires Inv(s) && InBatch(s.main) && a == Fetch(l) && l < s.n && Step(s, a).Some?
    ensures PcRankFalls(s, Step(s, a).value, l)
  {
    assert LaneInv(s, l);
  }

  lemma BarrierRankFalls(s: State, a: Action, l: nat)
    requires Inv(s) && InBatch(s.main) && (a.Arrive? || a.Trip? || a.Wake?) && a.lane == l < s.n && Step(s, a).Some?
    ensures PcRankFalls(s, Step(s, a).value, l)
  {
    assert LaneInv(s, l);
  }

  lemma CallRankFalls(s: State, a: Action, l: nat)
    requires Inv(s) && InBatch(s.main) && (a.ReadStart? || a.Return? || a.Die? || a.ReadStop?) && a.lane == l < s.n && Step(s, a).Some?
    ensures PcRankFalls(s, Step(s, a).value, l)
  {
    assert LaneInv(s, l);
  }

  lemma LanePcRankDecreases(s: State, a: Action, l: nat)
    requires Inv(s) && InBatch(s.main) && LaneOf(a) == Some(l) && l < s.n && Step(s, a).Some?
    ensures PcRankFalls(s, Step(s, a).value, l)
  {
    if a.Fetch? { FetchRankFalls(s, a, l); }
    else if a.Arrive? || a.Trip? || a.Wake? { BarrierRankFalls(s, a, l); }
    else { CallRankFalls(s, a, l); }
  }

  lemma LaneRankDecreases(s: State, a: Action, l: nat)
    requires Inv(s) && InBatch(s.main) && LaneOf(a) == Some(l) && l < s.n && Step(s, a).Some?
    ensures Shaped(Step(s, a).value) && Rank(Step(s, a).value) < Rank(s)
  {
    var t := Step(s, a).value;
    LanePcRankDecreases(s, a, l);
    LaneStepShape(s, a, l);
    LanesRankUpdate(s.queues, s.lanes, l, t.queues[l], t.lanes[l]);
    assert t.queues == s.queues[l := t.queues[l]] && t.lanes == s.lanes[l := t.lanes[l]];
  }

  /** A batch cannot run for ever: the steps it takes are bounded by its rank. */
  lemma {:induction false} BatchTerminates(states: seq<State>)
    requires states != [] && Inv(states[0])
    requires forall i | 0 <= i < |states| - 1 ::
               Shaped(states[i]) && InBatch(states[i].main) && exists a :: Step(states[i], a) == Some(states[i + 1])
    ensures |states| - 1 <= Rank(states[0])
  {
    if |states| > 1 {
      var a :| Step(states[0], a) == Some(states[1]);
      StepInv(states[0], a);
      RankDecreases(states[0], a);
      BatchTerminates(states[1..]);
    }
  }
}
