/**
N persistent lane threads behind one release barrier, as an interleaved step
system. The submitting thread puts one task on every lane queue, waits for the
tasks in lane order and then collects them; each lane takes its task, meets the
barrier, reads the clock, calls its writer, reads the clock again and completes
the task. Every step below is one action of one thread; a run is any interleaving.

Clock readings and writer behaviour are arbitrary: a reading may raise, a writer
may return, raise an ordinary exception (an observation all the same) or die.
*/
module LaneProtocol {
  import opened Wrappers

  datatype Item = Task(batch: nat) | Stop

  datatype Observation = Observation(startNs: nat, stopNs: nat, raised: bool)

  /** What a completed task holds: a timed observation, or an escaped error. */
  datatype TaskResult = Value(observation: Observation) | Error

  datatype LanePc =
    | Waiting
    | Fetched(batch: nat)
    | AtBarrier(batch: nat)
    | Released(batch: nat)
    | Calling(batch: nat, startNs: nat)
    | Called(batch: nat, startNs: nat, raised: bool)
    | Exited

  datatype Barrier = Filling | Open | Broken

  datatype MainPc = Ready | Putting(lane: nat) | Awaiting(lane: nat) | Closing(lane: nat) | Closed

  datatype Outcome = Returned(results: seq<Observation>) | RaisedBy(lane: nat)

  datatype Event =
    | Reached(lane: nat, batch: nat)
    | Opened(batch: nat, referenceNs: nat)
    | Started(lane: nat, batch: nat, startNs: nat)
    | Completed(lane: nat, batch: nat, result: TaskResult)

  /**
   done holds the current batch's completed tasks; arrived the lanes counted by its
   barrier; log everything observed so far; monotone that no reading ever went back.
   */
  datatype State = State(
    n: nat, main: MainPc, batch: nat,
    queues: seq<seq<Item>>, lanes: seq<LanePc>, done: seq<Option<TaskResult>>,
    barrier: Barrier, arrived: set<nat>, reference: Option<nat>,
    clock: nat, monotone: bool, log: seq<Event>, outcome: Option<Outcome>)

  datatype Action =
    | Submit | Put | Await | Finish | Close | PutStop | Join
    | Fetch(lane: nat) | Arrive(lane: nat) | Trip(lane: nat, reading: Option<nat>) | Wake(lane: nat)
    | ReadStart(lane: nat, reading: Option<nat>) | Return(lane: nat, raised: bool) | Die(lane: nat)
    | ReadStop(lane: nat, reading: Option<nat>)

  predicate Shaped(s: State) {
    s.n >= 1 && |s.queues| == |s.lanes| == |s.done| == s.n
  }

  function Initial(n: nat): State
    requires n >= 1
  {
    State(n, Ready, 0, seq(n, _ => []), seq(n, _ => Waiting), seq(n, _ => None), Filling, {}, None, 0, true, [], None)
  }

  // ----- steps -----

  function Tick(s: State, reading: nat): State {
    s.(clock := reading, monotone := s.monotone && s.clock <= reading)
  }

  function SetLane(s: State, lane: nat, pc: LanePc): State
    requires Shaped(s) && lane < s.n
  {
    s.(lanes := s.lanes[lane := pc])
  }

  /** The lane stores its result, signals completion and goes back to its queue. */
  function Complete(s: State, lane: nat, result: TaskResult): State
    requires Shaped(s) && lane < s.n
  {
    s.(lanes := s.lanes[lane := Waiting], done := s.done[lane := Some(result)],
    log := s.log + [Completed(lane, s.batch, result)])
  }

  /** Results in lane order, or the lowest lane whose task holds an error. */
  function Collect(done: seq<Option<TaskResult>>, lane: nat): Outcome
    requires lane <= |done| && forall i | 0 <= i < |done| :: done[i].Some?
    decreases |done| - lane
  {
    if lane == |done| then Returned([])
    else if done[lane].value.Error? then RaisedBy(lane)
    else
      match Collect(done, lane + 1)
      case RaisedBy(l) => RaisedBy(l)
      case Returned(rest) => Returned([done[lane].value.observation] + rest)
  }

  function MainStep(s: State, a: Action): Option<State>
    requires Shaped(s)
  {
    match (a, s.main)
    case (Submit, Ready) =>
      Some(s.(main := Putting(0), done := seq(s.n, _ => None), barrier := Filling, arrived := {}, reference := None))
    case (Put, Putting(k)) =>
      if k >= s.n then None
      else Some(s.(main := if k + 1 == s.n then Awaiting(0) else Putting(k + 1),
                queues := s.queues[k := s.queues[k] + [Task(s.batch)]]))
    case (Await, Awaiting(k)) =>
      if k < s.n && s.done[k].Some? then Some(s.(main := Awaiting(k + 1))) else None
    case (Finish, Awaiting(k)) =>
      if k == s.n && forall i | 0 <= i < s.n :: s.done[i].Some?
      then Some(s.(main := Ready, batch := s.batch + 1, outcome := Some(Collect(s.done, 0))))
      else None
    case (Close, Ready) => Some(s.(main := Closing(0)))
    case (PutStop, Closing(k)) =>
      if k >= s.n then None
      else Some(s.(main := Closing(k + 1), queues := s.queues[k := s.queues[k] + [Stop]]))
    case (Join, Closing(k)) =>
      if k == s.n && forall i | 0 <= i < s.n :: s.lanes[i].Exited? then Some(s.(main := Closed)) else None
    case _ => None
  }

  function LaneStep(s: State, a: Action, l: nat): Option<State>
    requires Shaped(s) && l < s.n
  {
    match (a, s.lanes[l])
    case (Fetch(_), Waiting) =>
      if s.queues[l] == [] then None
      else
        var rest := s.(queues := s.queues[l := s.queues[l][1..]]);
        Some(SetLane(rest, l, match s.queues[l][0] case Task(b) => Fetched(b) case Stop => Exited))
    case (Arrive(_), Fetched(b)) =>
      if s.barrier == Filling && |s.arrived| + 1 < s.n
      then Some(SetLane(s, l, AtBarrier(b)).(arrived := s.arrived + {l}, log := s.log + [Reached(l, b)]))
      else None
    case (Trip(_, reading), Fetched(b)) =>
      if s.barrier == Filling && |s.arrived| + 1 == s.n then
        var full := s.(arrived := s.arrived + {l}, log := s.log + [Reached(l, b)]);
        match reading
        case Some(t) =>
          Some(SetLane(Tick(full, t), l, Released(b)).(barrier := Open, reference := Some(t),
               log := full.log + [Opened(b, t)]))
        case None => Some(Complete(full.(barrier := Broken), l, Error))
      else None
    case (Wake(_), AtBarrier(b)) =>
      if s.barrier == Open then Some(SetLane(s, l, Released(b)))
      else if s.barrier == Broken then Some(Complete(s, l, Error))
      else None
    case (ReadStart(_, reading), Released(b)) =>
      (match reading
       case Some(t) => Some(SetLane(Tick(s, t), l, Calling(b, t)).(log := s.log + [Started(l, b, t)]))
       case None => Some(Complete(s, l, Error)))
    case (Return(_, raised), Calling(b, t)) => Some(SetLane(s, l, Called(b, t, raised)))
    case (Die(_), Calling(b, t)) => Some(Complete(s, l, Error))
    case (ReadStop(_, reading), Called(b, t, raised)) =>
      (match reading
       case Some(u) =>
         Some(Complete(Tick(s, u), l, if u < t then Error else Value(Observation(t, u, raised))))
       case None => Some(Complete(s, l, Error)))
    case _ => None
  }

  function LaneOf(a: Action): Option<nat> {
    match a
    case Fetch(l) => Some(l)
    case Arrive(l) => Some(l)
    case Trip(l, _) => Some(l)
    case Wake(l) => Some(l)
    case ReadStart(l, _) => Some(l)
    case Return(l, _) => Some(l)
    case Die(l) => Some(l)
    case ReadStop(l, _) => Some(l)
    case _ => None
  }

  /** The state after the action, when its thread can take it. */
  function Step(s: State, a: Action): Option<State>
    requires Shaped(s)
  {
    match LaneOf(a)
    case None => MainStep(s, a)
    case Some(l) => if l < s.n then LaneStep(s, a, l) else None
  }

  // ----- the invariant of one lane -----

  predicate InBatch(main: MainPc) {
    main.Putting? || main.Awaiting?
  }

  /** A submitted lane is somewhere on the path from its queue to its result, with nothing else pending. */
  predicate OnPath(batch: nat, barrier: Barrier, counted: bool, queue: seq<Item>, pc: LanePc, done: Option<TaskResult>) {
    match pc
    case Waiting =>
      || (queue == [Task(batch)] && done.None? && !counted)
      || (queue == [] && done.Some? && counted && barrier != Filling)
    case Fetched(b) => queue == [] && b == batch && done.None? && !counted
    case AtBarrier(b) => queue == [] && b == batch && done.None? && counted
    case Exited => false
    case _ => queue == [] && pc.batch == batch && done.None? && counted && barrier == Open
  }

  predicate LaneOk(main: MainPc, batch: nat, barrier: Barrier, l: nat, counted: bool,
                   queue: seq<Item>, pc: LanePc, done: Option<TaskResult>)
  {
    match main
    case Ready => queue == [] && pc == Waiting
    case Putting(k) =>
      if l < k then OnPath(batch, barrier, counted, queue, pc, done)
      else queue == [] && pc == Waiting && done.None? && !counted
    case Awaiting(k) => OnPath(batch, barrier, counted, queue, pc, done) && (l < k ==> done.Some?)
    case Closing(k) =>
      if l < k then (queue == [Stop] && pc == Waiting) || (queue == [] && pc == Exited)
      else queue == [] && pc == Waiting
    case Closed => queue == [] && pc == Exited
  }

  predicate LaneInv(s: State, l: nat)
    requires Shaped(s) && l < s.n
  {
    LaneOk(s.main, s.batch, s.barrier, l, l in s.arrived, s.queues[l], s.lanes[l], s.done[l])
  }

  predicate MainInv(s: State) {
    match s.main
    case Putting(k) => k < s.n
    case Awaiting(k) => k <= s.n
    case Closing(k) => k <= s.n
    case _ => true
  }

  /** The barrier opens or breaks only with every lane counted, and only an open one has a reference. */
  predicate BarrierInv(s: State) {
    && (forall l | l in s.arrived :: l < s.n)
    && (InBatch(s.main) ==>
          && (s.barrier == Filling ==> |s.arrived| < s.n)
          && (s.barrier != Filling ==> forall l | 0 <= l < s.n :: l in s.arrived)
          && (s.barrier == Open <==> s.reference.Some?))
  }

  predicate Inv(s: State) {
    && Shaped(s) && MainInv(s) && BarrierInv(s)
    && forall l | 0 <= l < s.n :: LaneInv(s, l)
  }

  lemma InitialInv(n: nat)
    requires n >= 1
    ensures Inv(Initial(n))
  {
  }

  lemma MainStepInv(s: State, a: Action)
    requires Inv(s) && LaneOf(a).None? && Step(s, a).Some?
    ensures Inv(Step(s, a).value)
  {
    var t := Step(s, a).value;
    forall l | 0 <= l < s.n ensures LaneInv(t, l) {
      assert LaneInv(s, l);
    }
  }

  lemma {:induction false} FullSet(a: set<nat>, n: nat)
    requires (forall l | l in a :: l < n) && |a| >= n
    ensures forall l | 0 <= l < n :: l in a
    ensures |a| == n
  {
    if n > 0 {
      var top := n - 1;
      if top in a {
        FullSet(a - {top}, n - 1);
      } else {
        FullSet(a, n - 1);
      }
    } else {
      assert a == {};
    }
  }

  lemma LaneStepShape(s: State, a: Action, l: nat)
    requires Inv(s) && LaneOf(a) == Some(l) && l < s.n && Step(s, a).Some?
    ensures var t := Step(s, a).value;
            && Shaped(t) && t.n == s.n && t.main == s.main && t.batch == s.batch && t.outcome == s.outcome
            && (forall m | 0 <= m < s.n && m != l ::
                  t.queues[m] == s.queues[m] && t.lanes[m] == s.lanes[m] && t.done[m] == s.done[m]
                  && (m in t.arrived <==> m in s.arrived))
            && (a.Trip? || t.barrier == s.barrier)
  {
  }

  lemma LaneStepInv(s: State, a: Action, l: nat)
    requires Inv(s) && LaneOf(a) == Some(l) && l < s.n && Step(s, a).Some?
    ensures Inv(Step(s, a).value)
  {
    var t := Step(s, a).value;
    LaneStepShape(s, a, l);
    LaneStepBarrier(s, a, l);
    forall m | 0 <= m < s.n ensures LaneInv(t, m) {
      if m == l { LaneStepOwn(s, a, l); } else { LaneStepOther(s, a, l, m); }
    }
  }

  lemma LaneStepOwn(s: State, a: Action, l: nat)
    requires Inv(s) && LaneOf(a) == Some(l) && l < s.n && Step(s, a).Some?
    ensures var t := Step(s, a).value; Shaped(t) && t.n == s.n && LaneInv(t, l)
  {
    assert LaneInv(s, l);
  }

  lemma LaneStepOther(s: State, a: Action, l: nat, m: nat)
    requires Inv(s) && LaneOf(a) == Some(l) && l < s.n && Step(s, a).Some?
    requires m < s.n && m != l
    ensures var t := Step(s, a).value; Shaped(t) && t.n == s.n && LaneInv(t, m)
  {
    assert LaneInv(s, m) && LaneInv(s, l);
    LaneStepShape(s, a, l);
    if a.Trip? { FullSet(s.arrived + {l}, s.n); }
  }

  lemma LaneStepBarrier(s: State, a: Action, l: nat)
    requires Inv(s) && LaneOf(a) == Some(l) && l < s.n && Step(s, a).Some?
    ensures BarrierInv(Step(s, a).value)
  {
    assert LaneInv(s, l);
    if a.Trip? {
      FullSet(s.arrived + {l}, s.n);
    }
  }

  lemma StepInv(s: State, a: Action)
    requires Inv(s) && Step(s, a).Some?
    ensures Inv(Step(s, a).value)
  {
    match LaneOf(a)
    case None => MainStepInv(s, a);
    case Some(l) => LaneStepInv(s, a, l);
  }
}
