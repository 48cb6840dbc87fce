/** The verdict on a recorded run: what the validator accepts, and which executions it accepts. */
module RunVerdict {
  import opened Sequences
  import opened FixedSchedule
  import opened RunRecords
  import opened RecordedExecutor
  import opened RunValidation

  // ----- lane ownership -----

  function Total(levels: seq<nat>): int {
    Sum((level: nat) => level, levels)
  }

  function ExpectedOwners(levels: seq<nat>): set<(nat, nat, nat)> {
    set level: nat, lane: nat | level in levels && lane < level :: (level, lane, lane)
  }

  function ObservedOwners(ownership: seq<Ownership>): set<(nat, nat, nat)> {
    set o | o in ownership :: (o.level, o.lane, o.slot)
  }

  function ThreadIds(ownership: seq<Ownership>, level: nat): set<nat> {
    set o | o in ownership && o.level == level :: o.thread
  }

  /** One record per retained lane, its slot its own, and as many threads per level as lanes. */
  predicate Owned(retained: seq<nat>, ownership: seq<Ownership>) {
    && |ownership| == Total(retained)
    && ObservedOwners(ownership) == ExpectedOwners(retained)
    && forall i | 0 <= i < |retained| :: |ThreadIds(ownership, retained[i])| == retained[i]
  }

  method CheckOwnership(retained: seq<nat>, ownership: seq<Ownership>) returns (issues: seq<RunIssue>)
    ensures issues == [] <==> Owned(retained, ownership)
  {
    issues := [];
    if |ownership| != Total(retained) { issues := issues + [OwnershipCountMismatch]; }
    if ObservedOwners(ownership) != ExpectedOwners(retained) { issues := issues + [ConnectionOwnershipViolation]; }
    ghost var before := issues == [];
    var threads := CollectThreads(ownership);
    for i := 0 to |retained|
      invariant issues == [] <==> before && forall j | 0 <= j < i :: |ThreadIds(ownership, retained[j])| == retained[j]
    {
      var ids := if retained[i] in threads then threads[retained[i]] else {};
      assert ids == ThreadIds(ownership, retained[i]);
      if |ids| != retained[i] { issues := issues + [ThreadOwnershipViolation(retained[i])]; }
    }
  }

  /** The dictionary of thread identities by level; a level without lanes is absent. */
  method CollectThreads(ownership: seq<Ownership>) returns (threads: map<nat, set<nat>>)
    ensures forall level | level in threads :: threads[level] == ThreadIds(ownership, level)
    ensures forall level | level !in threads :: ThreadIds(ownership, level) == {}
  {
    threads := map[];
    for i := 0 to |ownership|
      invariant forall level | level in threads :: threads[level] == ThreadIds(ownership[..i], level)
      invariant forall level | level !in threads :: ThreadIds(ownership[..i], level) == {}
    {
      var o := ownership[i];
      assert ownership[..i + 1] == ownership[..i] + [o];
      forall level ensures ThreadIds(ownership[..i + 1], level)
                        == ThreadIds(ownership[..i], level) + (if o.level == level then {o.thread} else {}) {
      }
      threads := threads[o.level := (if o.level in threads then threads[o.level] else {}) + {o.thread}];
    }
    assert ownership[..|ownership|] == ownership;
  }

  /** The lanes the executor records. */
  predicate IsLane(w: World, levels: seq<nat>, o: Ownership)
    requires |w.threads(o.level)| == o.level
  {
    o.level in levels && o.lane < o.level && o.slot == o.lane && o.thread == w.threads(o.level)[o.lane]
  }

  lemma {:induction false} OwnerMember(w: World, levels: seq<nat>, o: Ownership)
    requires ThreadPerLane(w)
    ensures o in OwnersOf(w, levels) <==> IsLane(w, levels, o)
  {
    if levels != [] {
      var n := |levels| - 1;
      OwnerMember(w, levels[..n], o);
      assert levels == levels[..n] + [levels[n]];
      var lanes := LaneOwners(w, levels[n]);
      if IsLane(w, levels, o) && o.level == levels[n] {
        assert lanes[o.lane] == o;
      }
    }
  }

  lemma {:induction false} OwnerCount(w: World, levels: seq<nat>)
    requires ThreadPerLane(w)
    ensures |OwnersOf(w, levels)| == Total(levels)
  {
    if levels != [] { OwnerCount(w, levels[..|levels| - 1]); }
  }

  lemma OwnersThreads(w: World, levels: seq<nat>, level: nat)
    requires ThreadPerLane(w) && level in levels
    ensures ThreadIds(OwnersOf(w, levels), level) == ToSet(w.threads(level))
  {
    var owners := OwnersOf(w, levels);
    forall t | t in ThreadIds(owners, level) ensures t in w.threads(level) {
      var o :| o in owners && o.level == level && o.thread == t;
      OwnerMember(w, levels, o);
    }
    forall t | t in w.threads(level) ensures t in ThreadIds(owners, level) {
      var lane :| 0 <= lane < level && w.threads(level)[lane] == t;
      OwnerMember(w, levels, Ownership(level, lane, lane, t));
    }
  }

  lemma OwnersObserved(w: World, order: seq<nat>, retained: seq<nat>)
    requires ThreadPerLane(w) && multiset(order) == multiset(retained)
    ensures ObservedOwners(OwnersOf(w, order)) == ExpectedOwners(retained)
  {
    var owners := OwnersOf(w, order);
    forall t | t in ObservedOwners(owners) ensures t in ExpectedOwners(retained) {
      var o :| o in owners && t == (o.level, o.lane, o.slot);
      OwnerMember(w, order, o);
      assert o.level in multiset(order);
      assert o.level in retained;
    }
    forall t | t in ExpectedOwners(retained) ensures t in ObservedOwners(owners) {
      var level, lane :| level in retained && 0 <= lane < level && t == (level, lane, lane);
      assert level in multiset(retained);
      assert level in order;
      OwnerMember(w, order, Ownership(level, lane, lane, w.threads(level)[lane]));
    }
  }

  ghost predicate DistinctThreads(w: World, levels: seq<nat>) {
    forall i | 0 <= i < |levels| :: NoDuplicates(w.threads(levels[i]))
  }

  /** The executor's ownership is accepted exactly when no level's lanes share a thread. */
  lemma ExecutorOwns(w: World, d: Design)
    requires Legal(d) && ThreadPerLane(w)
    ensures Owned(d.retained, OwnersOf(w, d.order)) <==> DistinctThreads(w, d.retained)
  {
    OwnerCount(w, d.order);
    SumPermutation((level: nat) => level, d.order, d.retained);
    OwnersObserved(w, d.order, d.retained);
    forall i | 0 <= i < |d.retained|
      ensures |ThreadIds(OwnersOf(w, d.order), d.retained[i])| == d.retained[i]
              <==> NoDuplicates(w.threads(d.retained[i]))
    {
      var level := d.retained[i];
      assert level in multiset(d.retained);
      assert level in d.order;
      OwnersThreads(w, d.order, level);
      ToSetSize(w.threads(level));
    }
  }

  // ----- the validator -----

  function RunIds(invocations: seq<Invocation>, batches: seq<Batch>): set<string> {
    (set r | r in invocations :: r.runId) + (set b | b in batches :: b.runId)
  }

  /** What a VALID run is: the schedule's own numbering, sound evidence, faithful batches, exact ownership. */
  ghost predicate ValidRun(d: Design, schedule: Schedule, run: Execution) {
    && schedule == ScheduleOf(d)
    && var plans := RecordedOnly(schedule.batches);
       && InvocationsMatch(plans, run.invocations)
       && Acceptable(run.invocations)
       && BatchesMatch(plans, run.batches)
       && BatchesFaithful(plans, run.invocations, run.batches)
       && Owned(d.retained, run.ownership)
       && |RunIds(run.invocations, run.batches)| == 1
  }

  /** Plans are built only over positive worker levels. */
  predicate Constructed(schedule: Schedule) {
    forall i | 0 <= i < |schedule.batches| :: schedule.batches[i].cell.level > 0
  }

  lemma ConstructedRecorded(schedule: Schedule)
    requires Constructed(schedule)
    ensures var plans := RecordedOnly(schedule.batches);
            forall i | 0 <= i < |plans| :: plans[i].cell.level > 0
  {
    var plans := RecordedOnly(schedule.batches);
    forall i | 0 <= i < |plans| ensures plans[i].cell.level > 0 {
      assert plans[i] in plans;
      FlatMapMember((p: BatchPlan) => if p.recorded then [p] else [], schedule.batches, plans[i]);
    }
  }

  /** The run is VALID, that is without an issue, exactly when it is a valid run of its schedule. */
  method ValidateRecordedRun(d: Design, schedule: Schedule, run: Execution) returns (issues: seq<RunIssue>)
    requires Legal(d) && Constructed(schedule)
    ensures issues == [] <==> ValidRun(d, schedule, run)
  {
    var expected := GenerateFixedSchedule(d);
    var canonical: seq<RunIssue> := if schedule != expected then [NonCanonicalSchedule] else [];
    ghost var plans := RecordedOnly(schedule.batches);
    ConstructedRecorded(schedule);
    var plannedInvocations, plannedBatches := NumberPlans(schedule.batches);
    var found, invocationIssues := CheckInvocations(run.invocations, plannedInvocations, plans);
    var batchIssues := CheckBatches(run.batches, plannedBatches, found, run.invocations, plans);
    var ownershipIssues := CheckOwnership(d.retained, run.ownership);
    var runIdIssues: seq<RunIssue> := if |RunIds(run.invocations, run.batches)| != 1 then [RunIdMismatch] else [];
    issues := canonical + Image(x => InvocationFinding(x), invocationIssues)
              + Image(x => BatchFinding(x), batchIssues) + ownershipIssues + runIdIssues;
    if schedule == expected { RecordedPlans(d); }
  }
}
