/**
Atomic immutable publication of evidence directories: any number of writers, each
a sequential program, interleaved step by step over one evidence root. Every
fallible call may fail, and a writer's process may stop at any point.

A writer stages its six files in a hidden directory of its own, takes the root
lock, renames the staging directory to the final one and syncs the root; if that
sync fails it renames back. It then unlocks the root and closes it. Directories are maps from file positions to contents.
*/
module Publication {
  import opened Wrappers

  const FILES := 6
  const MANIFEST := 0

  type Directory = map<nat, string>

  /** One call of the writer: the run it publishes and the payloads it constructed. */
  datatype Job = Job(run: string, payload: Directory)

  datatype AfterUnlock = NotRenamed | Published | RollbackStuck

  datatype Reason =
    | AlreadyExists | StagingFailed | Refused | CleanupFailed
    | RollbackFailed | UnlockFailed | CloseFailed | ReadbackFailed

  datatype WriterPc =
    | Begin | MakingStaging | Writing(file: nat) | Opening | Locking
    | Checking | Renaming | SyncingRoot | RollingBack | Resyncing
    | Unlocking(next: AfterUnlock) | Closing(next: AfterUnlock) | Cleaning(file: nat) | ReadingBack
    | Succeeded | Failed(reason: Reason) | Stopped

  /** existing and jobs are fixed; owner remembers which writer a final directory came from. */
  datatype State = State(
    existing: map<string, Directory>, jobs: map<nat, Job>,
    final: map<string, Directory>, owner: map<string, nat>,
    staging: map<nat, Directory>, lock: Option<nat>, pc: map<nat, WriterPc>)

  /** The next call of the writer works, raises (perhaps leaving a partial file), or its process stops. */
  datatype Move = Proceed | Raise(debris: Option<string>) | Exit

  ghost predicate Complete(payload: Directory) {
    forall k :: k in payload <==> k < FILES
  }

  ghost predicate Initial(s: State) {
    && (forall w | w in s.jobs :: Complete(s.jobs[w].payload))
    && s.final == s.existing && s.owner == map[] && s.staging == map[] && s.lock == None
    && s.pc == map w | w in s.jobs :: Begin
  }

  // ----- steps -----

  function WriteFile(directory: Directory, file: nat, content: string): Directory {
    directory[file := content]
  }

  function Goto(s: State, w: nat, pc: WriterPc): State {
    s.(pc := s.pc[w := pc])
  }

  function Unlock(s: State, w: nat): State {
    if s.lock == Some(w) then s.(lock := None) else s
  }

  /** Where a writer preparing its payloads goes next, if it can go on. */
  function PreparedPc(s: State, w: nat, job: Job): Option<WriterPc>
    requires w in s.pc
  {
    match s.pc[w]
    case Begin => Some(if job.run in s.final then Failed(AlreadyExists) else MakingStaging)
    case MakingStaging => Some(Writing(0))
    case Writing(k) => Some(if k < FILES && w in s.staging && k in job.payload then Writing(k + 1) else Opening)
    case Opening => Some(Locking)
    case Locking => if s.lock.None? then Some(Checking) else None
    case Checking => Some(if job.run in s.final then Unlocking(NotRenamed) else Renaming)
    case _ => None
  }

  function PreparedStaging(s: State, w: nat, job: Job): map<nat, Directory>
    requires w in s.pc
  {
    match s.pc[w]
    case MakingStaging => s.staging[w := map[]]
    case Writing(k) =>
      if k < FILES && w in s.staging && k in job.payload
      then s.staging[w := WriteFile(s.staging[w], k, job.payload[k])] else s.staging
    case _ => s.staging
  }

  /** Up to the second existence check, made under the lock. */
  function Preparing(s: State, w: nat, job: Job): Option<State>
    requires w in s.pc
  {
    match PreparedPc(s, w, job)
    case None => None
    case Some(pc) =>
      Some(Goto(s, w, pc).(staging := PreparedStaging(s, w, job), lock := if s.pc[w].Locking? then Some(w) else s.lock))
  }

  /** The rename into place, and its undoing. */
  function Swapping(s: State, w: nat, job: Job): Option<State>
    requires w in s.pc
  {
    match s.pc[w]
    case Renaming =>
      if w !in s.staging then None
      else Some(Goto(s, w, SyncingRoot).(final := s.final[job.run := s.staging[w]], staging := s.staging - {w},
                owner := s.owner[job.run := w]))
    case SyncingRoot => Some(Goto(s, w, Unlocking(Published)))
    case RollingBack =>
      if job.run !in s.final then None
      else Some(Goto(s, w, Resyncing).(staging := s.staging[w := s.final[job.run]], final := s.final - {job.run},
                owner := s.owner - {job.run}))
    case Resyncing => Some(Goto(s, w, Unlocking(NotRenamed)))
    case _ => None
  }

  function ConcludedPc(s: State, w: nat, job: Job): Option<WriterPc>
    requires w in s.pc
  {
    match s.pc[w]
    case Unlocking(next) => Some(Closing(next))
    case Closing(next) => Some(AfterClosing(next))
    case Cleaning(k) =>
      if w in s.staging && k < FILES then Some(Cleaning(k + 1))
      else if w in s.staging && s.staging[w] != map[] then None
      else Some(Failed(Refused))
    case ReadingBack =>
      var same := job.run in s.final && MANIFEST in s.final[job.run] && MANIFEST in job.payload
                  && s.final[job.run][MANIFEST] == job.payload[MANIFEST];
      Some(if same then Succeeded else Failed(ReadbackFailed))
    case _ => None
  }

  function ConcludedStaging(s: State, w: nat): map<nat, Directory>
    requires w in s.pc
  {
    match s.pc[w]
    case Cleaning(k) =>
      if w !in s.staging then s.staging
      else if k < FILES then s.staging[w := s.staging[w] - {k}]
      else s.staging - {w}
    case _ => s.staging
  }

  /** Unlocking and closing the root, cleaning up one's own staging directory, reading back. */
  function Concluding(s: State, w: nat, job: Job): Option<State>
    requires w in s.pc
  {
    match ConcludedPc(s, w, job)
    case None => None
    case Some(pc) =>
      Some(Goto(if s.pc[w].Unlocking? then Unlock(s, w) else s, w, pc).(staging := ConcludedStaging(s, w)))
  }

  predicate Critical(pc: WriterPc) {
    pc.Renaming? || pc.SyncingRoot? || pc.RollingBack? || pc.Resyncing?
  }

  predicate Late(pc: WriterPc) {
    pc.Unlocking? || pc.Closing? || pc.Cleaning? || pc.ReadingBack?
  }

  function Working(s: State, w: nat, job: Job): Option<State>
    requires w in s.pc
  {
    if Critical(s.pc[w]) then Swapping(s, w, job)
    else if Late(s.pc[w]) then Concluding(s, w, job)
    else Preparing(s, w, job)
  }

  function AfterClosing(next: AfterUnlock): WriterPc {
    match next
    case NotRenamed => Cleaning(0)
    case Published => ReadingBack
    case RollbackStuck => Failed(RollbackFailed)
  }

  function RaisedPc(pc: WriterPc): Option<WriterPc> {
    match pc
    case MakingStaging => Some(Failed(StagingFailed))
    case Writing(_) => Some(Cleaning(0))
    case Opening => Some(Cleaning(0))
    case Locking => Some(Unlocking(NotRenamed))
    case Renaming => Some(Unlocking(NotRenamed))
    case SyncingRoot => Some(RollingBack)
    case RollingBack => Some(Unlocking(RollbackStuck))
    case Resyncing => Some(Unlocking(NotRenamed))
    case Unlocking(next) => Some(if next == Published then Failed(UnlockFailed) else AfterClosing(next))
    case Closing(next) => Some(if next == Published then Failed(CloseFailed) else AfterClosing(next))
    case Cleaning(_) => Some(Failed(CleanupFailed))
    case ReadingBack => Some(Failed(ReadbackFailed))
    case _ => None
  }

  /** A write that raises may leave a partial file behind. */
  function RaisedStaging(s: State, w: nat, debris: Option<string>): map<nat, Directory>
    requires w in s.pc
  {
    if s.pc[w].Writing? && debris.Some? && s.pc[w].file < FILES && w in s.staging
    then s.staging[w := WriteFile(s.staging[w], s.pc[w].file, debris.value)] else s.staging
  }

  function Raising(s: State, w: nat, debris: Option<string>): Option<State>
    requires w in s.pc
  {
    match RaisedPc(s.pc[w])
    case None => None
    case Some(pc) => Some(Goto(s, w, pc).(staging := RaisedStaging(s, w, debris)))
  }

  /** A process that ends gives up its lock; what it left on disk stays. */
  function Exiting(s: State, w: nat): State
    requires w in s.pc
  {
    var over := s.pc[w].Succeeded? || s.pc[w].Failed?;
    Goto(Unlock(s, w), w, if over then s.pc[w] else Stopped)
  }

  function Step(s: State, w: nat, move: Move): Option<State> {
    if w !in s.jobs || w !in s.pc then None
    else
      match move
      case Proceed => Working(s, w, s.jobs[w])
      case Raise(debris) => Raising(s, w, debris)
      case Exit => Some(Exiting(s, w))
  }

  // ----- invariant -----

  predicate Owns(s: State, w: nat)
    requires w in s.jobs
  {
    s.jobs[w].run in s.owner && s.owner[s.jobs[w].run] == w
  }

  function Prefix(payload: Directory, k: nat): Directory {
    map i | i in payload && i < k :: payload[i]
  }

  predicate Staged(s: State, w: nat, content: Directory) {
    w in s.staging && s.staging[w] == content
  }

  /** After which failures the directory the caller was told about failing is nevertheless published. */
  predicate FailsPublished(reason: Reason) {
    reason == RollbackFailed || reason == UnlockFailed || reason == CloseFailed || reason == ReadbackFailed
  }

  predicate ReleasingOk(s: State, w: nat, next: AfterUnlock)
    requires w in s.jobs
  {
    if next == NotRenamed then !Owns(s, w) && LeftFrom(s, w, 0) else Owns(s, w) && w !in s.staging
  }

  /** The staging directory holds at most the files from the k-th on. */
  predicate LeftFrom(s: State, w: nat, k: nat) {
    w in s.staging && forall f | f in s.staging[w] :: k <= f < FILES
  }

  predicate WriterOk(s: State, w: nat)
    requires w in s.jobs && w in s.pc
  {
    var payload := s.jobs[w].payload;
    match s.pc[w]
    case Begin => !Owns(s, w) && w !in s.staging
    case MakingStaging => !Owns(s, w) && w !in s.staging
    case Writing(k) => !Owns(s, w) && k <= FILES && Staged(s, w, Prefix(payload, k))
    case Opening => !Owns(s, w) && Staged(s, w, payload)
    case Locking => !Owns(s, w) && Staged(s, w, payload)
    case Checking => !Owns(s, w) && Staged(s, w, payload) && s.lock == Some(w)
    case Renaming => !Owns(s, w) && Staged(s, w, payload) && s.lock == Some(w) && s.jobs[w].run !in s.final
    case SyncingRoot => Owns(s, w) && w !in s.staging && s.lock == Some(w)
    case RollingBack => Owns(s, w) && w !in s.staging && s.lock == Some(w)
    case Resyncing => !Owns(s, w) && LeftFrom(s, w, 0) && s.lock == Some(w)
    case Unlocking(next) => ReleasingOk(s, w, next)
    case Closing(next) => ReleasingOk(s, w, next)
    case Cleaning(k) => !Owns(s, w) && k <= FILES && LeftFrom(s, w, k)
    case ReadingBack => Owns(s, w) && w !in s.staging
    case Succeeded => Owns(s, w) && w !in s.staging
    case Failed(reason) =>
      && (Owns(s, w) <==> FailsPublished(reason))
      && (w in s.staging <==> reason == CleanupFailed)
    case Stopped => true
  }

  /** Every final directory is an untouched earlier one or one writer's complete payloads. */
  predicate FinalOk(s: State) {
    && (forall r | r in s.existing :: r in s.final && r !in s.owner)
    && (forall r | r in s.final && r !in s.owner :: r in s.existing && s.final[r] == s.existing[r])
    && (forall r | r in s.owner ::
          && s.owner[r] in s.jobs && s.jobs[s.owner[r]].run == r
          && r in s.final && s.final[r] == s.jobs[s.owner[r]].payload)
  }

  ghost predicate Inv(s: State) {
    && (forall w | w in s.jobs :: Complete(s.jobs[w].payload))
    && FinalOk(s)
    && forall w | w in s.jobs :: w in s.pc && WriterOk(s, w)
  }

  lemma InitialInv(s: State)
    requires Initial(s)
    ensures Inv(s)
  {
  }

  // ----- what a step may change -----

  /** The only two changes of the published directories: a rename under the lock, and its own undoing. */
  predicate FinalChange(s: State, t: State, w: nat)
    requires w in s.jobs
  {
    var run := s.jobs[w].run;
    || (t.final == s.final && t.owner == s.owner)
    || (&& s.lock == Some(w) && run !in s.final
        && t.final == s.final[run := s.jobs[w].payload] && t.owner == s.owner[run := w])
    || (&& s.lock == Some(w) && Owns(s, w)
        && t.final == s.final - {run} && t.owner == s.owner - {run})
  }

  /** Another writer's program counter, staging directory and lock are left alone. */
  predicate Spares(s: State, t: State, v: nat) {
    && (v in t.pc <==> v in s.pc) && (v in s.pc ==> t.pc[v] == s.pc[v])
    && (v in t.staging <==> v in s.staging) && (v in s.staging ==> t.staging[v] == s.staging[v])
    && (s.lock == Some(v) ==> t.lock == Some(v))
  }

  predicate Fixed(s: State, t: State, w: nat) {
    t.existing == s.existing && t.jobs == s.jobs && w in t.pc
  }

  lemma PreparingChange(s: State, w: nat)
    requires w in s.jobs && w in s.pc && Preparing(s, w, s.jobs[w]).Some?
    ensures FinalChange(s, Preparing(s, w, s.jobs[w]).value, w) && Fixed(s, Preparing(s, w, s.jobs[w]).value, w)
    ensures forall v | v != w :: Spares(s, Preparing(s, w, s.jobs[w]).value, v)
  {
    var t := Preparing(s, w, s.jobs[w]).value;
    assert t.final == s.final && t.owner == s.owner;
    forall v | v != w ensures Spares(s, t, v) { PreparingSpares(s, w, v); }
  }

  lemma PreparingSpares(s: State, w: nat, v: nat)
    requires w in s.jobs && w in s.pc && Preparing(s, w, s.jobs[w]).Some? && v != w
    ensures Spares(s, Preparing(s, w, s.jobs[w]).value, v)
  {
  }

  lemma SwappingChange(s: State, w: nat)
    requires w in s.jobs && w in s.pc && Swapping(s, w, s.jobs[w]).Some? && WriterOk(s, w)
    ensures FinalChange(s, Swapping(s, w, s.jobs[w]).value, w) && Fixed(s, Swapping(s, w, s.jobs[w]).value, w)
    ensures forall v | v != w :: Spares(s, Swapping(s, w, s.jobs[w]).value, v)
  {
  }

  lemma ConcludingChange(s: State, w: nat)
    requires w in s.jobs && w in s.pc && Concluding(s, w, s.jobs[w]).Some?
    ensures FinalChange(s, Concluding(s, w, s.jobs[w]).value, w) && Fixed(s, Concluding(s, w, s.jobs[w]).value, w)
    ensures forall v | v != w :: Spares(s, Concluding(s, w, s.jobs[w]).value, v)
  {
    var t := Concluding(s, w, s.jobs[w]).value;
    assert t.final == s.final && t.owner == s.owner;
    forall v | v != w ensures Spares(s, t, v) { ConcludingSpares(s, w, v); }
  }

  lemma ConcludingSpares(s: State, w: nat, v: nat)
    requires w in s.jobs && w in s.pc && Concluding(s, w, s.jobs[w]).Some? && v != w
    ensures Spares(s, Concluding(s, w, s.jobs[w]).value, v)
  {
  }

  lemma RaisingChange(s: State, w: nat, debris: Option<string>)
    requires w in s.jobs && w in s.pc && Raising(s, w, debris).Some?
    ensures FinalChange(s, Raising(s, w, debris).value, w) && Fixed(s, Raising(s, w, debris).value, w)
  {
  }

  lemma RaisingSpares(s: State, w: nat, debris: Option<string>, v: nat)
    requires w in s.jobs && w in s.pc && Raising(s, w, debris).Some? && v != w
    ensures Spares(s, Raising(s, w, debris).value, v)
  {
  }

  lemma StepChange(s: State, w: nat, move: Move)
    requires Step(s, w, move).Some? && WriterOk(s, w)
    ensures FinalChange(s, Step(s, w, move).value, w) && Fixed(s, Step(s, w, move).value, w)
    ensures forall v | v != w :: Spares(s, Step(s, w, move).value, v)
  {
    match move
    case Proceed =>
      if Critical(s.pc[w]) { SwappingChange(s, w); }
      else if Late(s.pc[w]) { ConcludingChange(s, w); }
      else { PreparingChange(s, w); }
    case Raise(debris) =>
      RaisingChange(s, w, debris);
      forall v | v != w ensures Spares(s, Step(s, w, move).value, v) { RaisingSpares(s, w, debris, v); }
    case Exit =>
  }

  lemma FinalOkKept(s: State, t: State, w: nat)
    requires w in s.jobs && FinalOk(s) && FinalChange(s, t, w) && Fixed(s, t, w)
    ensures FinalOk(t)
  {
  }

  lemma OtherKept(s: State, t: State, w: nat, v: nat)
    requires w in s.jobs && v in s.jobs && v in s.pc && v != w
    requires FinalOk(s) && WriterOk(s, v) && FinalChange(s, t, w) && Fixed(s, t, w) && Spares(s, t, v)
    ensures v in t.pc && WriterOk(t, v)
  {
    assert Owns(t, v) <==> Owns(s, v);
  }

  // ----- the writer's own step -----

  lemma PrefixStep(payload: Directory, k: nat)
    requires Complete(payload) && k <= FILES
    ensures k < FILES ==> WriteFile(Prefix(payload, k), k, payload[k]) == Prefix(payload, k + 1)
    ensures Prefix(payload, FILES) == payload
  {
  }

  lemma OwnPreparing(s: State, w: nat)
    requires w in s.jobs && w in s.pc && Preparing(s, w, s.jobs[w]).Some?
    requires Complete(s.jobs[w].payload) && WriterOk(s, w)
    ensures var t := Preparing(s, w, s.jobs[w]).value; w in t.jobs && w in t.pc && WriterOk(t, w)
  {
    if s.pc[w].Writing? { PrefixStep(s.jobs[w].payload, s.pc[w].file); }
  }

  lemma OwnSwapping(s: State, w: nat)
    requires w in s.jobs && w in s.pc && Swapping(s, w, s.jobs[w]).Some? && WriterOk(s, w)
    requires FinalOk(s) && Complete(s.jobs[w].payload)
    ensures var t := Swapping(s, w, s.jobs[w]).value; w in t.jobs && w in t.pc && WriterOk(t, w)
  {
  }

  lemma OwnConcluding(s: State, w: nat)
    requires w in s.jobs && w in s.pc && Concluding(s, w, s.jobs[w]).Some?
    requires WriterOk(s, w) && FinalOk(s)
    ensures var t := Concluding(s, w, s.jobs[w]).value; w in t.jobs && w in t.pc && WriterOk(t, w)
  {
  }

  lemma OwnRaising(s: State, w: nat, debris: Option<string>)
    requires w in s.jobs && w in s.pc && WriterOk(s, w) && Raising(s, w, debris).Some?
    requires Complete(s.jobs[w].payload)
    ensures var t := Raising(s, w, debris).value; w in t.jobs && w in t.pc && WriterOk(t, w)
  {
  }

  lemma OwnKept(s: State, w: nat, move: Move)
    requires Step(s, w, move).Some? && WriterOk(s, w) && FinalOk(s) && Complete(s.jobs[w].payload)
    ensures var t := Step(s, w, move).value; w in t.jobs && w in t.pc && WriterOk(t, w)
  {
    match move
    case Proceed =>
      if Critical(s.pc[w]) { OwnSwapping(s, w); }
      else if Late(s.pc[w]) { OwnConcluding(s, w); }
      else { OwnPreparing(s, w); }
    case Raise(debris) => OwnRaising(s, w, debris);
    case Exit =>
  }

  lemma StepInv(s: State, w: nat, move: Move)
    requires Inv(s) && Step(s, w, move).Some?
    ensures Inv(Step(s, w, move).value)
  {
    var t := Step(s, w, move).value;
    StepChange(s, w, move);
    FinalOkKept(s, t, w);
    OwnKept(s, w, move);
    forall v | v in s.jobs ensures v in t.pc && WriterOk(t, v) {
      if v != w { OtherKept(s, t, w, v); }
    }
  }

  // ----- whole runs -----

  ghost predicate Next(s: State, t: State) {
    exists w, move :: Step(s, w, move) == Some(t)
  }

  /** Any interleaving of any number of writers, each stopping or failing anywhere. */
  ghost predicate IsRun(states: seq<State>) {
    states != [] && Initial(states[0]) && forall i | 0 <= i < |states| - 1 :: Next(states[i], states[i + 1])
  }

  lemma {:induction false} RunInv(states: seq<State>, i: nat)
    requires IsRun(states) && i < |states|
    ensures Inv(states[i]) && states[i].existing == states[0].existing && states[i].jobs == states[0].jobs
  {
    if i == 0 {
      InitialInv(states[0]);
    } else {
      RunInv(states, i - 1);
      assert Next(states[i - 1], states[i]);
      var w, move :| Step(states[i - 1], w, move) == Some(states[i]);
      StepInv(states[i - 1], w, move);
      StepChange(states[i - 1], w, move);
    }
  }

  /**
   In every reachable state, locked or not, a final directory is an untouched
   earlier one or exactly the six payloads of one writer of that run.
   */
  lemma PublishedIsComplete(states: seq<State>, i: nat, run: string)
    requires IsRun(states) && i < |states| && run in states[i].final
    ensures || (run in states[0].existing && states[i].final[run] == states[0].existing[run])
            || exists w | w in states[0].jobs ::
                 && states[0].jobs[w].run == run && states[i].final[run] == states[0].jobs[w].payload
                 && Complete(states[0].jobs[w].payload)
  {
    RunInv(states, i);
    if run in states[i].owner {
      var w := states[i].owner[run];
      assert w in states[0].jobs;
    }
  }

  lemma AtMostOneSuccess(states: seq<State>, i: nat, v: nat, w: nat)
    requires IsRun(states) && i < |states|
    requires v in states[i].jobs && w in states[i].jobs && v in states[i].pc && w in states[i].pc
    requires states[i].pc[v] == Succeeded && states[i].pc[w] == Succeeded
    requires states[i].jobs[v].run == states[i].jobs[w].run
    ensures v == w
  {
    RunInv(states, i);
    assert WriterOk(states[i], v) && WriterOk(states[i], w);
  }

  lemma SuccessStep(s: State, t: State, w: nat)
    requires Inv(s) && Next(s, t) && w in s.jobs && w in s.pc && s.pc[w] == Succeeded
    ensures t.jobs == s.jobs && w in t.pc && t.pc[w] == Succeeded
  {
    var v, move :| Step(s, v, move) == Some(t);
    assert WriterOk(s, v);
    StepChange(s, v, move);
    if v != w { assert Spares(s, t, w); }
  }

  lemma SucceededHolds(s: State, w: nat)
    requires Inv(s) && w in s.jobs && w in s.pc && s.pc[w] == Succeeded
    ensures s.jobs[w].run in s.final && s.final[s.jobs[w].run] == s.jobs[w].payload
  {
    assert WriterOk(s, w);
  }

  predicate At(s: State, w: nat, pc: WriterPc) {
    w in s.jobs && w in s.pc && s.pc[w] == pc
  }

  predicate HasSucceeded(s: State, w: nat) {
    At(s, w, Succeeded)
  }

  lemma SuccessNext(states: seq<State>, k: nat, w: nat)
    requires IsRun(states) && k + 1 < |states|
    ensures HasSucceeded(states[k], w) ==> HasSucceeded(states[k + 1], w) && states[k + 1].jobs == states[k].jobs
  {
    if HasSucceeded(states[k], w) {
      RunInv(states, k);
      SuccessStep(states[k], states[k + 1], w);
    }
  }

  lemma {:induction false} SuccessChain(states: seq<State>, i: nat, j: nat, w: nat)
    requires i <= j < |states| && HasSucceeded(states[i], w)
    requires forall k: nat | k + 1 < |states| ::
               HasSucceeded(states[k], w) ==> HasSucceeded(states[k + 1], w) && states[k + 1].jobs == states[k].jobs
    ensures HasSucceeded(states[j], w) && states[j].jobs == states[i].jobs
    decreases j
  {
    if i < j {
      SuccessChain(states, i, j - 1, w);
      assert (j - 1) + 1 < |states|;
    }
  }

  lemma SuccessPersists(states: seq<State>, i: nat, j: nat, w: nat)
    requires IsRun(states) && i <= j < |states| && HasSucceeded(states[i], w)
    ensures HasSucceeded(states[j], w) && states[j].jobs == states[i].jobs
  {
    forall k: nat | k + 1 < |states|
      ensures HasSucceeded(states[k], w) ==> HasSucceeded(states[k + 1], w) && states[k + 1].jobs == states[k].jobs
    {
      SuccessNext(states, k, w);
    }
    SuccessChain(states, i, j, w);
  }

  /** Once a writer has succeeded, no later step of anyone changes what it published. */
  lemma SuccessIsImmutable(states: seq<State>, i: nat, j: nat, w: nat)
    requires IsRun(states) && i <= j < |states|
    requires HasSucceeded(states[i], w)
    ensures var job := states[i].jobs[w]; job.run in states[j].final && states[j].final[job.run] == job.payload
  {
    SuccessPersists(states, i, j, w);
    RunInv(states, j);
    SucceededHolds(states[j], w);
  }

  /** Runs published before are never touched. */
  lemma EarlierRunsAreImmutable(states: seq<State>, i: nat, run: string)
    requires IsRun(states) && i < |states| && run in states[0].existing
    ensures run in states[i].final && states[i].final[run] == states[0].existing[run]
  {
    RunInv(states, i);
  }

  /**
   A writer that reports failure has left nothing published, except exactly when the
   undoing rename failed, the unlock or the close failed after publishing, or the read-back
   failed; and it has left its staging directory exactly when cleaning it up failed.
   */
  lemma FailureLeavesNothing(states: seq<State>, i: nat, w: nat)
    requires IsRun(states) && i < |states|
    requires w in states[i].jobs && w in states[i].pc && states[i].pc[w].Failed?
    ensures Owns(states[i], w) <==> FailsPublished(states[i].pc[w].reason)
    ensures Owns(states[i], w) ==> states[i].jobs[w].run in states[i].final
                                   && states[i].final[states[i].jobs[w].run] == states[i].jobs[w].payload
    ensures w in states[i].staging <==> states[i].pc[w].reason == CleanupFailed
  {
    RunInv(states, i);
    assert WriterOk(states[i], w);
  }

  // ----- a writer alone -----

  function Last(states: seq<State>): State
    requires states != []
  {
    states[|states| - 1]
  }

  /** One writer proceeds from s to the last state, undisturbed. */
  ghost predicate Path(s: State, w: nat, states: seq<State>) {
    && states != [] && states[0] == s
    && forall i | 0 <= i < |states| - 1 :: Step(states[i], w, Proceed) == Some(states[i + 1])
  }

  lemma PathOnwards(s: State, w: nat, first: seq<State>, second: seq<State>)
    requires Path(s, w, first) && Path(Last(first), w, second)
    ensures Path(s, w, first + second[1..]) && Last(first + second[1..]) == Last(second)
  {
    var joined := first + second[1..];
    forall i | 0 <= i < |joined| - 1 ensures Step(joined[i], w, Proceed) == Some(joined[i + 1]) {
      if i < |first| - 1 {
        assert joined[i] == first[i] && joined[i + 1] == first[i + 1];
      } else {
        assert joined[i] == second[i - |first| + 1] && joined[i + 1] == second[i - |first| + 2];
      }
    }
  }

  lemma PathBefore(s: State, w: nat, m: State, rest: seq<State>)
    requires Step(s, w, Proceed) == Some(m) && Path(m, w, rest)
    ensures Path(s, w, [s] + rest) && Last([s] + rest) == Last(rest)
  {
    var states := [s] + rest;
    forall i | 0 <= i < |states| - 1 ensures Step(states[i], w, Proceed) == Some(states[i + 1]) {
      if i > 0 { assert states[i] == rest[i - 1] && states[i + 1] == rest[i]; }
    }
  }

  lemma {:induction false} WritesAllFiles(s: State, w: nat, k: nat) returns (path: seq<State>)
    requires Inv(s) && At(s, w, Writing(k))
    ensures Path(s, w, path) && Inv(Last(path)) && At(Last(path), w, Opening)
    ensures var t := Last(path); t.lock == s.lock && t.final == s.final && t.jobs == s.jobs
    decreases FILES - k
  {
    assert WriterOk(s, w);
    var m := Step(s, w, Proceed).value;
    StepInv(s, w, Proceed);
    if k == FILES {
      path := [m];
    } else {
      path := WritesAllFiles(m, w, k + 1);
    }
    PathBefore(s, w, m, path);
    path := [s] + path;
  }

  lemma FromBegin(s: State, w: nat) returns (path: seq<State>)
    requires Inv(s) && At(s, w, Begin) && s.jobs[w].run !in s.final
    ensures Path(s, w, path) && Inv(Last(path)) && At(Last(path), w, Writing(0))
    ensures var t := Last(path); t.lock == s.lock && t.final == s.final && t.jobs == s.jobs
  {
    var making := Step(s, w, Proceed).value;
    StepInv(s, w, Proceed);
    var writing := Step(making, w, Proceed).value;
    StepInv(making, w, Proceed);
    path := [s, making, writing];
  }

  lemma FromOpening(s: State, w: nat) returns (path: seq<State>)
    requires Inv(s) && At(s, w, Opening) && s.lock == None
    ensures Path(s, w, path) && Inv(Last(path)) && At(Last(path), w, Checking)
    ensures Last(path).final == s.final && Last(path).jobs == s.jobs
  {
    var locking := Step(s, w, Proceed).value;
    StepInv(s, w, Proceed);
    var checking := Step(locking, w, Proceed).value;
    StepInv(locking, w, Proceed);
    path := [s, locking, checking];
  }

  lemma FromChecking(s: State, w: nat) returns (path: seq<State>)
    requires Inv(s) && At(s, w, Checking) && s.jobs[w].run !in s.final
    ensures Path(s, w, path) && Inv(Last(path)) && At(Last(path), w, SyncingRoot) && Last(path).jobs == s.jobs
  {
    var renaming := Step(s, w, Proceed).value;
    StepInv(s, w, Proceed);
    assert WriterOk(renaming, w);
    var syncing := Step(renaming, w, Proceed).value;
    StepInv(renaming, w, Proceed);
    path := [s, renaming, syncing];
  }

  /** The lock is kept from the check to the unlock, and given back. */
  lemma FromSyncing(s: State, w: nat) returns (path: seq<State>)
    requires Inv(s) && At(s, w, SyncingRoot)
    ensures Path(s, w, path) && Inv(Last(path)) && At(Last(path), w, Succeeded)
    ensures Last(path).lock == None && Last(path).jobs == s.jobs
  {
    assert WriterOk(s, w);
    var unlocking := Step(s, w, Proceed).value;
    StepInv(s, w, Proceed);
    path := FromUnlocking(unlocking, w);
    PathBefore(s, w, unlocking, path);
    path := [s] + path;
  }

  lemma FromUnlocking(s: State, w: nat) returns (path: seq<State>)
    requires Inv(s) && At(s, w, Unlocking(Published)) && s.lock == Some(w)
    ensures Path(s, w, path) && Inv(Last(path)) && At(Last(path), w, Succeeded)
    ensures Last(path).lock == None && Last(path).jobs == s.jobs
  {
    var closing := Step(s, w, Proceed).value;
    StepInv(s, w, Proceed);
    path := FromClosing(closing, w);
    PathBefore(s, w, closing, path);
    path := [s] + path;
  }

  lemma FromClosing(s: State, w: nat) returns (path: seq<State>)
    requires Inv(s) && At(s, w, Closing(Published))
    ensures Path(s, w, path) && Inv(Last(path)) && At(Last(path), w, Succeeded)
    ensures Last(path).lock == s.lock && Last(path).jobs == s.jobs
  {
    var reading := Step(s, w, Proceed).value;
    StepInv(s, w, Proceed);
    path := FromReading(reading, w);
    PathBefore(s, w, reading, path);
    path := [s] + path;
  }

  lemma FromReading(s: State, w: nat) returns (path: seq<State>)
    requires Inv(s) && At(s, w, ReadingBack)
    ensures Path(s, w, path) && Inv(Last(path)) && At(Last(path), w, Succeeded)
    ensures Last(path).lock == s.lock && Last(path).jobs == s.jobs
  {
    assert WriterOk(s, w);
    StepInv(s, w, Proceed);
    path := [s, Step(s, w, Proceed).value];
  }

  lemma ReachesChecking(s: State, w: nat) returns (path: seq<State>)
    requires Inv(s) && At(s, w, Begin) && s.lock == None && s.jobs[w].run !in s.final
    ensures Path(s, w, path) && Inv(Last(path)) && At(Last(path), w, Checking)
    ensures Last(path).final == s.final && Last(path).jobs == s.jobs
  {
    path := FromBegin(s, w);
    var more := WritesAllFiles(Last(path), w, 0);
    PathOnwards(s, w, path, more);
    path := path + more[1..];
    more := FromOpening(Last(path), w);
    PathOnwards(s, w, path, more);
    path := path + more[1..];
  }

  /** A writer that has not begun goes through staging, all its files and the lock, up to the root's sync. */
  lemma ReachesSyncing(s: State, w: nat) returns (path: seq<State>)
    requires Inv(s) && At(s, w, Begin) && s.lock == None && s.jobs[w].run !in s.final
    ensures Path(s, w, path) && Inv(Last(path)) && At(Last(path), w, SyncingRoot) && Last(path).jobs == s.jobs
  {
    path := ReachesChecking(s, w);
    var more := FromChecking(Last(path), w);
    PathOnwards(s, w, path, more);
    path := path + more[1..];
  }

  /** With the lock free and the run unpublished, an undisturbed writer stages, publishes and succeeds. */
  lemma AloneItSucceeds(s: State, w: nat) returns (path: seq<State>)
    requires Inv(s) && At(s, w, Begin) && s.lock == None && s.jobs[w].run !in s.final
    ensures Path(s, w, path)
    ensures var t := Last(path);
            && HasSucceeded(t, w) && t.lock == None
            && s.jobs[w].run in t.final && t.final[s.jobs[w].run] == s.jobs[w].payload
  {
    path := ReachesSyncing(s, w);
    var more := FromSyncing(Last(path), w);
    SucceededHolds(Last(more), w);
    PathOnwards(s, w, path, more);
    path := path + more[1..];
  }

  // ----- a writer that fails with its directory published -----

  lemma RaiseTwice(s: State, w: nat)
    requires w in s.jobs && w in s.pc && s.pc[w] == SyncingRoot
    ensures Step(s, w, Raise(None)) == Some(Goto(s, w, RollingBack))
    ensures var a := Goto(s, w, RollingBack); Step(a, w, Raise(None)) == Some(Goto(a, w, Unlocking(RollbackStuck)))
  {
  }

  lemma UnlockStuck(s: State, w: nat)
    requires w in s.jobs && w in s.pc && s.pc[w] == Unlocking(RollbackStuck)
    ensures Step(s, w, Proceed) == Some(Goto(Unlock(s, w), w, Closing(RollbackStuck)))
    ensures var a := Goto(Unlock(s, w), w, Closing(RollbackStuck));
            Step(a, w, Proceed) == Some(Goto(a, w, Failed(RollbackFailed)))
  {
  }

  /** From the root's sync, two raising calls make the writer fail with its directory published. */
  lemma FailedRollbackStaysPublished(s: State, w: nat) returns (t: State)
    requires Inv(s) && At(s, w, SyncingRoot)
    ensures exists a, b, c :: Step(s, w, Raise(None)) == Some(a) && Step(a, w, Raise(None)) == Some(b)
                              && Step(b, w, Proceed) == Some(c) && Step(c, w, Proceed) == Some(t)
    ensures w in t.pc && t.pc[w] == Failed(RollbackFailed)
    ensures s.jobs[w].run in t.final && t.final[s.jobs[w].run] == s.jobs[w].payload
  {
    assert WriterOk(s, w);
    assert s.jobs[w].run in s.final && s.final[s.jobs[w].run] == s.jobs[w].payload;
    RaiseTwice(s, w);
    var a := Goto(s, w, RollingBack);
    var b := Goto(a, w, Unlocking(RollbackStuck));
    UnlockStuck(b, w);
    var c := Goto(Unlock(b, w), w, Closing(RollbackStuck));
    t := Goto(c, w, Failed(RollbackFailed));
  }

  lemma RunOnwards(states: seq<State>, t: State)
    requires IsRun(states) && Next(Last(states), t)
    ensures IsRun(states + [t])
  {
  }

  /** Steps of one writer alone make a run. */
  lemma RunAlone(s: State, w: nat, path: seq<State>)
    requires Initial(s) && Path(s, w, path)
    ensures IsRun(path)
  {
    forall i | 0 <= i < |path| - 1 ensures Next(path[i], path[i + 1]) {
      assert Step(path[i], w, Proceed) == Some(path[i + 1]);
    }
  }

  lemma InitialBegin(s: State, w: nat)
    requires Initial(s) && w in s.jobs && s.jobs[w].run !in s.existing
    ensures IsRun([s]) && Inv(s) && At(s, w, Begin) && s.lock == None && s.jobs[w].run !in s.final
  {
    InitialInv(s);
  }

  /** From every initial state, every writer of an unpublished run has an execution in which it succeeds. */
  lemma SuccessIsReachable(s: State, w: nat) returns (states: seq<State>)
    requires Initial(s) && w in s.jobs && s.jobs[w].run !in s.existing
    ensures IsRun(states) && states[0] == s
    ensures HasSucceeded(Last(states), w)
  {
    InitialBegin(s, w);
    states := AloneItSucceeds(s, w);
    RunAlone(s, w, states);
  }

  /** And one in which its call fails although the complete directory stays published. */
  lemma FailureCanStayPublished(s: State, w: nat) returns (states: seq<State>)
    requires Initial(s) && w in s.jobs && s.jobs[w].run !in s.existing
    ensures IsRun(states) && states[0] == s
    ensures var t := Last(states);
            && w in t.pc && t.pc[w] == Failed(RollbackFailed)
            && s.jobs[w].run in t.final && t.final[s.jobs[w].run] == s.jobs[w].payload
  {
    InitialBegin(s, w);
    states := ReachesSyncing(s, w);
    RunAlone(s, w, states);
    var t := FailedRollbackStaysPublished(Last(states), w);
    states := RunFourTimes(states, w, Last(states), t);
  }

  lemma RunFourTimes(states: seq<State>, w: nat, s: State, t: State) returns (longer: seq<State>)
    requires IsRun(states) && Last(states) == s
    requires exists a, b, c :: Step(s, w, Raise(None)) == Some(a) && Step(a, w, Raise(None)) == Some(b)
                               && Step(b, w, Proceed) == Some(c) && Step(c, w, Proceed) == Some(t)
    ensures IsRun(longer) && longer[0] == states[0] && Last(longer) == t
  {
    var a, b, c :| Step(s, w, Raise(None)) == Some(a) && Step(a, w, Raise(None)) == Some(b)
                   && Step(b, w, Proceed) == Some(c) && Step(c, w, Proceed) == Some(t);
    assert Next(s, a) && Next(a, b) && Next(b, c) && Next(c, t);
    RunOnwards(states, a);
    RunOnwards(states + [a], b);
    RunOnwards(states + [a] + [b], c);
    RunOnwards(states + [a] + [b] + [c], t);
    longer := states + [a] + [b] + [c] + [t];
  }

  // ----- which failures, by what the writer did -----

  /** Which writer moved at each point of a run, and how. */
  ghost predicate IsTrace(states: seq<State>, moves: seq<(nat, Move)>) {
    && states != [] && Initial(states[0]) && |moves| == |states| - 1
    && forall i | 0 <= i < |moves| :: Step(states[i], moves[i].0, moves[i].1) == Some(states[i + 1])
  }

  /** Calls whose raising leaves the renamed directory where it is. */
  predicate Exposed(pc: WriterPc) {
    pc == RollingBack || pc == Unlocking(Published) || pc == Closing(Published) || pc == ReadingBack
  }

  predicate RaisesExposed(states: seq<State>, moves: seq<(nat, Move)>, w: nat, k: nat)
    requires k < |moves| && |moves| < |states|
  {
    moves[k].0 == w && moves[k].1.Raise? && w in states[k].pc && Exposed(states[k].pc[w])
  }

  predicate Stuck(pc: WriterPc) {
    pc == Unlocking(RollbackStuck) || pc == Closing(RollbackStuck) || (pc.Failed? && FailsPublished(pc.reason))
  }

  /** A writer becomes stuck by raising while exposed and in no other way, and stays so unless it is stopped. */
  predicate SticksBy(pc: WriterPc, next: WriterPc, raised: bool) {
    && (Stuck(next) ==> Stuck(pc) || (raised && Exposed(pc)))
    && (raised && Exposed(pc) ==> Stuck(next))
    && (Stuck(pc) || pc == Stopped ==> Stuck(next) || next == Stopped)
  }

  lemma StuckConcluding(s: State, w: nat)
    requires Inv(s) && w in s.jobs && w in s.pc && Late(s.pc[w]) && Concluding(s, w, s.jobs[w]).Some?
    ensures SticksBy(s.pc[w], Concluding(s, w, s.jobs[w]).value.pc[w], false)
  {
    assert WriterOk(s, w);
  }

  lemma StuckSwapping(s: State, w: nat)
    requires w in s.jobs && w in s.pc && Swapping(s, w, s.jobs[w]).Some?
    ensures SticksBy(s.pc[w], Swapping(s, w, s.jobs[w]).value.pc[w], false)
  {
  }

  lemma StuckPreparing(s: State, w: nat)
    requires w in s.jobs && w in s.pc && Preparing(s, w, s.jobs[w]).Some?
    ensures SticksBy(s.pc[w], Preparing(s, w, s.jobs[w]).value.pc[w], false)
  {
  }

  lemma StuckRaising(s: State, w: nat, debris: Option<string>)
    requires w in s.jobs && w in s.pc && Raising(s, w, debris).Some?
    ensures SticksBy(s.pc[w], Raising(s, w, debris).value.pc[w], true)
  {
  }

  lemma StuckStep(s: State, w: nat, move: Move)
    requires Inv(s) && Step(s, w, move).Some?
    ensures w in Step(s, w, move).value.pc && SticksBy(s.pc[w], Step(s, w, move).value.pc[w], move.Raise?)
  {
    match move
    case Proceed =>
      if Critical(s.pc[w]) { StuckSwapping(s, w); }
      else if Late(s.pc[w]) { StuckConcluding(s, w); }
      else { StuckPreparing(s, w); }
    case Raise(debris) => StuckRaising(s, w, debris);
    case Exit =>
  }

  lemma TraceIsRun(states: seq<State>, moves: seq<(nat, Move)>)
    requires IsTrace(states, moves)
    ensures IsRun(states)
  {
    forall i | 0 <= i < |states| - 1 ensures Next(states[i], states[i + 1]) {
      assert Step(states[i], moves[i].0, moves[i].1) == Some(states[i + 1]);
    }
  }

  lemma TraceOnwards(states: seq<State>, moves: seq<(nat, Move)>, w: nat, move: Move, t: State)
    requires IsTrace(states, moves) && Step(Last(states), w, move) == Some(t)
    ensures IsTrace(states + [t], moves + [(w, move)])
  {
    var more, longer := moves + [(w, move)], states + [t];
    forall i | 0 <= i < |more| ensures Step(longer[i], more[i].0, more[i].1) == Some(longer[i + 1]) {
      if i < |moves| {
        assert more[i] == moves[i] && longer[i] == states[i] && longer[i + 1] == states[i + 1];
      }
    }
  }

  lemma RunShortened(states: seq<State>)
    requires IsRun(states) && |states| > 1
    ensures IsRun(states[..|states| - 1]) && Next(Last(states[..|states| - 1]), Last(states))
  {
    var n := |states| - 1;
    assert Next(states[n - 1], states[n]);
    forall i | 0 <= i < n - 1 ensures Next(states[..n][i], states[..n][i + 1]) {
      assert Next(states[i], states[i + 1]);
    }
  }

  /** Every run is the run of some moves. */
  lemma {:induction false} RunHasTrace(states: seq<State>) returns (moves: seq<(nat, Move)>)
    requires IsRun(states)
    ensures IsTrace(states, moves)
  {
    if |states| == 1 {
      moves := [];
    } else {
      RunShortened(states);
      var before, last := states[..|states| - 1], Last(states);
      moves := RunHasTrace(before);
      var w, move :| Step(Last(before), w, move) == Some(last);
      TraceOnwards(before, moves, w, move, last);
      moves := moves + [(w, move)];
      assert before + [last] == states;
    }
  }

  /** Raised while exposed, at some earlier point. */
  ghost predicate HasRaised(states: seq<State>, moves: seq<(nat, Move)>, w: nat, i: nat)
    requires i <= |moves| && |moves| < |states|
  {
    exists k | 0 <= k < i :: RaisesExposed(states, moves, w, k)
  }

  ghost predicate RaisedKnown(states: seq<State>, moves: seq<(nat, Move)>, w: nat, i: nat)
    requires i <= |moves| && |moves| < |states| && w in states[i].pc
  {
    && (Stuck(states[i].pc[w]) ==> HasRaised(states, moves, w, i))
    && (HasRaised(states, moves, w, i) ==> Stuck(states[i].pc[w]) || states[i].pc[w] == Stopped)
  }

  lemma RaisedNext(states: seq<State>, moves: seq<(nat, Move)>, w: nat, i: nat)
    requires i < |moves| && |moves| < |states|
    ensures HasRaised(states, moves, w, i + 1) <==> HasRaised(states, moves, w, i) || RaisesExposed(states, moves, w, i)
  {
    if HasRaised(states, moves, w, i + 1) {
      var k :| 0 <= k < i + 1 && RaisesExposed(states, moves, w, k);
    }
  }

  lemma {:induction false} RaisedIsKnown(states: seq<State>, moves: seq<(nat, Move)>, w: nat, i: nat)
    requires IsTrace(states, moves) && i <= |moves| && w in states[0].jobs
    ensures w in states[i].pc && RaisedKnown(states, moves, w, i)
  {
    if i > 0 {
      var k := i - 1;
      RaisedIsKnown(states, moves, w, k);
      RaisedNext(states, moves, w, k);
      TraceIsRun(states, moves);
      RunInv(states, k);
      assert Step(states[k], moves[k].0, moves[k].1) == Some(states[i]);
      KnownStep(states[k], moves[k].0, moves[k].1, w);
    }
  }

  /** What one step of anyone says about w. */
  lemma KnownStep(s: State, v: nat, move: Move, w: nat)
    requires Inv(s) && Step(s, v, move).Some? && w in s.pc
    ensures w in Step(s, v, move).value.pc
    ensures SticksBy(s.pc[w], Step(s, v, move).value.pc[w], v == w && move.Raise?)
  {
    assert WriterOk(s, v);
    StepChange(s, v, move);
    if v == w { StuckStep(s, w, move); } else { assert Spares(s, Step(s, v, move).value, w); }
  }

  /**
   A writer that reports failure has left its directory published exactly when it raised while renaming
   back, while unlocking or closing after publishing, or while reading back.
   */
  lemma FailurePublishedIffRaised(states: seq<State>, moves: seq<(nat, Move)>, i: nat, w: nat)
    requires IsTrace(states, moves) && i <= |moves|
    requires w in states[i].jobs && w in states[i].pc && states[i].pc[w].Failed?
    ensures Owns(states[i], w) <==> exists k | 0 <= k < i :: RaisesExposed(states, moves, w, k)
  {
    TraceIsRun(states, moves);
    RunInv(states, i);
    RaisedIsKnown(states, moves, w, i);
    FailureLeavesNothing(states, i, w);
  }

  // ----- who holds the lock -----

  /** From the check under the lock to the unlock. */
  predicate Holding(pc: WriterPc) {
    pc.Checking? || Critical(pc) || pc.Unlocking?
  }

  predicate UnlockRaises(states: seq<State>, moves: seq<(nat, Move)>, w: nat, k: nat)
    requires k < |moves| && |moves| < |states|
  {
    moves[k].0 == w && moves[k].1.Raise? && w in states[k].pc && states[k].pc[w].Unlocking?
  }

  /** Its unlock raised, and its process has not ended since. */
  ghost predicate KeepsLock(states: seq<State>, moves: seq<(nat, Move)>, w: nat, i: nat)
    requires i <= |moves| && |moves| < |states|
  {
    exists k | 0 <= k < i :: UnlockRaises(states, moves, w, k) && forall j | k < j < i :: moves[j] != (w, Exit)
  }

  lemma KeepsLockNow(states: seq<State>, moves: seq<(nat, Move)>, w: nat, i: nat)
    requires i < |moves| && |moves| < |states| && UnlockRaises(states, moves, w, i)
    ensures KeepsLock(states, moves, w, i + 1)
  {
  }

  lemma KeepsLockStill(states: seq<State>, moves: seq<(nat, Move)>, w: nat, i: nat)
    requires i < |moves| && |moves| < |states| && KeepsLock(states, moves, w, i) && moves[i] != (w, Exit)
    ensures KeepsLock(states, moves, w, i + 1)
  {
    var k :| 0 <= k < i && UnlockRaises(states, moves, w, k) && forall j | k < j < i :: moves[j] != (w, Exit);
    assert forall j | k < j < i + 1 :: moves[j] != (w, Exit);
  }

  /** What a writer's own step does to its hold on the lock. */
  predicate LockFollows(s: State, t: State, w: nat, move: Move)
    requires w in s.pc && w in t.pc
  {
    t.lock == Some(w) ==>
      || Holding(t.pc[w])
      || (move.Raise? && s.pc[w].Unlocking?)
      || (s.lock == Some(w) && !Holding(s.pc[w]) && move != Exit)
  }

  lemma PreparingLock(s: State, w: nat)
    requires w in s.jobs && w in s.pc && Preparing(s, w, s.jobs[w]).Some?
    ensures w in Preparing(s, w, s.jobs[w]).value.pc && LockFollows(s, Preparing(s, w, s.jobs[w]).value, w, Proceed)
  {
  }

  lemma SwappingLock(s: State, w: nat)
    requires w in s.jobs && w in s.pc && Swapping(s, w, s.jobs[w]).Some?
    ensures w in Swapping(s, w, s.jobs[w]).value.pc && LockFollows(s, Swapping(s, w, s.jobs[w]).value, w, Proceed)
  {
  }

  lemma ConcludingLock(s: State, w: nat)
    requires w in s.jobs && w in s.pc && Concluding(s, w, s.jobs[w]).Some?
    ensures w in Concluding(s, w, s.jobs[w]).value.pc && LockFollows(s, Concluding(s, w, s.jobs[w]).value, w, Proceed)
  {
  }

  lemma RaisingLock(s: State, w: nat, debris: Option<string>)
    requires w in s.jobs && w in s.pc && Raising(s, w, debris).Some?
    ensures w in Raising(s, w, debris).value.pc && LockFollows(s, Raising(s, w, debris).value, w, Raise(debris))
  {
  }

  lemma OwnLock(s: State, w: nat, move: Move)
    requires Step(s, w, move).Some?
    ensures w in Step(s, w, move).value.pc && LockFollows(s, Step(s, w, move).value, w, move)
  {
    match move
    case Proceed =>
      if Critical(s.pc[w]) { SwappingLock(s, w); }
      else if Late(s.pc[w]) { ConcludingLock(s, w); }
      else { PreparingLock(s, w); }
    case Raise(debris) => RaisingLock(s, w, debris);
    case Exit =>
  }

  /** Nobody hands the lock to another. */
  lemma OtherLock(s: State, v: nat, move: Move, w: nat)
    requires Step(s, v, move).Some? && v != w && Step(s, v, move).value.lock == Some(w)
    ensures s.lock == Some(w)
  {
  }

  ghost predicate LockHeldBy(states: seq<State>, moves: seq<(nat, Move)>, i: nat, w: nat)
    requires i <= |moves| && |moves| < |states|
  {
    && w in states[i].jobs && w in states[i].pc
    && (Holding(states[i].pc[w]) || KeepsLock(states, moves, w, i))
  }

  /** In every reachable state the lock is held only by a writer between its check and its unlock, or one whose unlock raised. */
  lemma {:induction false} LockIsHeld(states: seq<State>, moves: seq<(nat, Move)>, i: nat, w: nat)
    requires IsTrace(states, moves) && i <= |moves| && states[i].lock == Some(w)
    ensures LockHeldBy(states, moves, i, w)
    decreases i, 0
  {
    if i > 0 {
      var k := i - 1;
      var s, v, move := states[k], moves[k].0, moves[k].1;
      TraceIsRun(states, moves);
      RunInv(states, k);
      assert Step(s, v, move) == Some(states[i]);
      StepChange(s, v, move);
      if v == w {
        OwnLock(s, w, move);
        OwnHold(states, moves, k, w);
      } else {
        OtherLock(s, v, move, w);
        LockIsHeld(states, moves, k, w);
        assert Spares(s, states[i], w);
        if KeepsLock(states, moves, w, k) { KeepsLockStill(states, moves, w, k); }
      }
    }
  }

  lemma {:induction false} OwnHold(states: seq<State>, moves: seq<(nat, Move)>, k: nat, w: nat)
    requires IsTrace(states, moves) && k < |moves| && moves[k].0 == w && states[k + 1].lock == Some(w)
    requires w in states[k].jobs && w in states[k].pc && w in states[k + 1].pc && states[k + 1].jobs == states[k].jobs
    requires LockFollows(states[k], states[k + 1], w, moves[k].1)
    ensures LockHeldBy(states, moves, k + 1, w)
    decreases k, 1
  {
    if !Holding(states[k + 1].pc[w]) {
      if moves[k].1.Raise? && states[k].pc[w].Unlocking? {
        KeepsLockNow(states, moves, w, k);
      } else {
        LockIsHeld(states, moves, k, w);
        KeepsLockStill(states, moves, w, k);
      }
    }
  }

  /** So a writer that failed, and whose unlock did not raise, holds no lock. */
  lemma FailedHoldsNoLock(states: seq<State>, moves: seq<(nat, Move)>, i: nat, w: nat)
    requires IsTrace(states, moves) && i <= |moves| && w in states[i].pc && states[i].pc[w].Failed?
    requires forall k | 0 <= k < i :: !UnlockRaises(states, moves, w, k)
    ensures states[i].lock != Some(w)
  {
    if states[i].lock == Some(w) { LockIsHeld(states, moves, i, w); }
  }

  /** A process that has ended holds no lock, however it ended. */
  lemma EndedHoldsNoLock(s: State, w: nat)
    requires Step(s, w, Exit).Some?
    ensures Step(s, w, Exit).value.lock != Some(w)
  {
  }

  /** When no writer is under the lock and no unlock has raised, every writer waiting for the lock can take it. */
  lemma WaitingCanLock(states: seq<State>, moves: seq<(nat, Move)>, i: nat, w: nat)
    requires IsTrace(states, moves) && i <= |moves| && At(states[i], w, Locking)
    requires forall v | v in states[i].pc :: !Holding(states[i].pc[v]) && !KeepsLock(states, moves, v, i)
    ensures Step(states[i], w, Proceed).Some?
    ensures At(Step(states[i], w, Proceed).value, w, Checking) && Step(states[i], w, Proceed).value.lock == Some(w)
  {
    if states[i].lock.Some? { LockIsHeld(states, moves, i, states[i].lock.value); }
  }

  /** And a writer under the lock can always go on, so the lock is never waited for in vain. */
  lemma HolderCanMove(s: State, w: nat)
    requires Inv(s) && w in s.jobs && w in s.pc && Holding(s.pc[w])
    ensures Step(s, w, Proceed).Some?
  {
    assert WriterOk(s, w);
  }

  /** Nor is a writer ever kept from removing its staging directory: all it left there is gone by then. */
  lemma CleanerCanMove(s: State, w: nat)
    requires Inv(s) && w in s.jobs && w in s.pc && s.pc[w].Cleaning?
    ensures Step(s, w, Proceed).Some?
    ensures s.pc[w].file >= FILES ==> w !in Step(s, w, Proceed).value.staging
  {
    assert WriterOk(s, w);
    if s.pc[w].file >= FILES { assert s.staging[w] == map[]; }
  }

  // ----- every failure has its own cause -----

  /** What the writer did, and where, when it failed for this reason. */
  predicate Causes(s: State, w: nat, move: Move, reason: Reason)
    requires w in s.jobs && w in s.pc
  {
    match reason
    case AlreadyExists => s.pc[w] == Begin && move == Proceed && s.jobs[w].run in s.final
    case StagingFailed => s.pc[w] == MakingStaging && move.Raise?
    case Refused => s.pc[w].Cleaning? && move == Proceed
    case CleanupFailed => s.pc[w].Cleaning? && move.Raise?
    case RollbackFailed => s.pc[w] == RollingBack && move.Raise?
    case UnlockFailed => s.pc[w] == Unlocking(Published) && move.Raise?
    case CloseFailed => s.pc[w] == Closing(Published) && move.Raise?
    case ReadbackFailed => s.pc[w] == ReadingBack && move.Raise?
  }

  /** The reason a writer failed for, or is bound to fail for. */
  function Doomed(pc: WriterPc): Option<Reason> {
    match pc
    case Failed(reason) => Some(reason)
    case Unlocking(RollbackStuck) => Some(RollbackFailed)
    case Closing(RollbackStuck) => Some(RollbackFailed)
    case _ => None
  }

  predicate DoomFollows(s: State, t: State, w: nat, move: Move)
    requires w in s.jobs && w in s.pc && w in t.pc
  {
    Doomed(t.pc[w]).Some? ==> Doomed(t.pc[w]) == Doomed(s.pc[w]) || Causes(s, w, move, Doomed(t.pc[w]).value)
  }

  lemma PreparingDoom(s: State, w: nat)
    requires w in s.jobs && w in s.pc && Preparing(s, w, s.jobs[w]).Some?
    ensures w in Preparing(s, w, s.jobs[w]).value.pc && DoomFollows(s, Preparing(s, w, s.jobs[w]).value, w, Proceed)
  {
  }

  lemma SwappingDoom(s: State, w: nat)
    requires w in s.jobs && w in s.pc && Swapping(s, w, s.jobs[w]).Some?
    ensures w in Swapping(s, w, s.jobs[w]).value.pc && DoomFollows(s, Swapping(s, w, s.jobs[w]).value, w, Proceed)
  {
  }

  lemma ConcludingDoom(s: State, w: nat)
    requires Inv(s) && w in s.jobs && w in s.pc && Concluding(s, w, s.jobs[w]).Some?
    ensures w in Concluding(s, w, s.jobs[w]).value.pc && DoomFollows(s, Concluding(s, w, s.jobs[w]).value, w, Proceed)
  {
    assert WriterOk(s, w);
  }

  lemma RaisingDoom(s: State, w: nat, debris: Option<string>)
    requires w in s.jobs && w in s.pc && Raising(s, w, debris).Some?
    ensures w in Raising(s, w, debris).value.pc && DoomFollows(s, Raising(s, w, debris).value, w, Raise(debris))
  {
  }

  lemma OwnDoom(s: State, w: nat, move: Move)
    requires Inv(s) && Step(s, w, move).Some?
    ensures w in Step(s, w, move).value.pc && DoomFollows(s, Step(s, w, move).value, w, move)
  {
    match move
    case Proceed =>
      if Critical(s.pc[w]) { SwappingDoom(s, w); }
      else if Late(s.pc[w]) { ConcludingDoom(s, w); }
      else { PreparingDoom(s, w); }
    case Raise(debris) => RaisingDoom(s, w, debris);
    case Exit =>
  }

  ghost predicate Caused(states: seq<State>, moves: seq<(nat, Move)>, w: nat, k: nat, reason: Reason)
    requires k < |moves| && |moves| < |states|
  {
    moves[k].0 == w && w in states[k].jobs && w in states[k].pc && Causes(states[k], w, moves[k].1, reason)
  }

  lemma {:induction false} DoomIsCaused(states: seq<State>, moves: seq<(nat, Move)>, i: nat, w: nat) returns (k: nat)
    requires IsTrace(states, moves) && i <= |moves|
    requires w in states[i].jobs && w in states[i].pc && Doomed(states[i].pc[w]).Some?
    ensures k < i && Caused(states, moves, w, k, Doomed(states[i].pc[w]).value)
  {
    TraceIsRun(states, moves);
    RunInv(states, i);
    var j := i - 1;
    RunInv(states, j);
    assert Step(states[j], moves[j].0, moves[j].1) == Some(states[i]);
    StepChange(states[j], moves[j].0, moves[j].1);
    if moves[j].0 == w {
      OwnDoom(states[j], w, moves[j].1);
      if Causes(states[j], w, moves[j].1, Doomed(states[i].pc[w]).value) {
        k := j;
        return;
      }
    } else {
      assert Spares(states[j], states[i], w);
    }
    k := DoomIsCaused(states, moves, j, w);
  }

  /** In every run, a writer that reports a failure did earlier what that failure stands for. */
  lemma FailureHasCause(states: seq<State>, moves: seq<(nat, Move)>, i: nat, w: nat)
    requires IsTrace(states, moves) && i <= |moves|
    requires w in states[i].jobs && w in states[i].pc && states[i].pc[w].Failed?
    ensures exists k | 0 <= k < i :: Caused(states, moves, w, k, states[i].pc[w].reason)
  {
    var k := DoomIsCaused(states, moves, i, w);
  }

  // ----- a run that exists already -----

  predicate RefusedAtOnce(s: State, w: nat) {
    w in s.pc && (s.pc[w] == Begin || s.pc[w] == Failed(AlreadyExists) || s.pc[w] == Stopped)
  }

  lemma RefusedStep(s: State, w: nat, move: Move)
    requires Step(s, w, move).Some? && RefusedAtOnce(s, w) && s.jobs[w].run in s.final
    ensures RefusedAtOnce(Step(s, w, move).value, w)
  {
  }

  /** A writer of a run published before stages nothing and takes no lock: it is refused at its first step. */
  lemma {:induction false} ExistingIsRefused(states: seq<State>, i: nat, w: nat)
    requires IsRun(states) && i < |states| && w in states[0].jobs && states[0].jobs[w].run in states[0].existing
    ensures RefusedAtOnce(states[i], w)
  {
    if i > 0 {
      ExistingIsRefused(states, i - 1, w);
      RunInv(states, i - 1);
      EarlierRunsAreImmutable(states, i - 1, states[0].jobs[w].run);
      assert Next(states[i - 1], states[i]);
      var v, move :| Step(states[i - 1], v, move) == Some(states[i]);
      StepChange(states[i - 1], v, move);
      if v == w { RefusedStep(states[i - 1], w, move); } else { assert Spares(states[i - 1], states[i], w); }
    }
  }
}
