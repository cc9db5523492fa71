/** The authoritative snapshot: its plan replaces exactly the owned Jobs, its predicted Job count is
    exact, replaying it changes nothing, and where it is not atomic. */
module Snapshots {
  import opened Basics
  import opened Scheduling
  import opened Reconciliation
  import opened Definitions
  import opened JobPolicy
  import opened RemoteJobs
  import opened Agreement

  /** Every Job of the snapshot that would be new has a trigger with a future occurrence. */
  ghost predicate NewTriggersFire(c: Controller, jobs: seq<JobDefinition>) {
    forall d :: d in jobs && d.jobId !in c.owned && d.trigger.Some? ==> Fires(d.trigger.value, c.scheduler.limits)
  }

  /** The snapshot passes every check the controller makes before it asks the Scheduler. */
  ghost predicate Acceptable(c: Controller, jobs: seq<JobDefinition>, env: Surroundings) {
    && FirstInvalid(jobs, {}, c.policy, env.builds).None?
    && FirstMismatch(c, env.order).None?
    && !OwnershipClash(c, jobs)
    && FinalJobCount(c, jobs) <= c.scheduler.limits.maxJobs
    && !RevisionClash(c, jobs)
  }

  /** Everything that is checked before the first change passes, here and in the Scheduler. */
  ghost predicate Passes(c: Controller, revision: nat, jobs: seq<JobDefinition>, env: Surroundings) {
    && revision != 0 && revision >= c.catalogRevision && Acceptable(c, jobs, env)
    && Built(jobs) && Preflight(c.scheduler, PlanFor(c, jobs, env.order)).None?
  }

  /** The snapshot gets past every check and then meets a new trigger without a future occurrence. */
  ghost predicate Sticks(c: Controller, revision: nat, jobs: seq<JobDefinition>, env: Surroundings) {
    Passes(c, revision, jobs, env) && !NewTriggersFire(c, jobs)
  }

  /** The snapshot changes or drops a Job that is owned. */
  ghost predicate Moves(c: Controller, jobs: seq<JobDefinition>) {
    || (exists d :: d in jobs && Changes(c.owned, d))
    || (exists id :: id in c.owned && id !in Elements(Ids(jobs)))
  }

  lemma {:induction false} NoMismatch(c: Controller, order: seq<JobId>)
    ensures FirstMismatch(c, order).None? <==> forall id :: id in order && id in c.owned ==> AgreesOn(c, id)
    decreases |order|
  {
    if order != [] {
      NoMismatch(c, order[1..]);
      assert forall id :: id in order <==> id == order[0] || id in order[1..];
    }
  }

  lemma PlanIsRoomy(c: Controller, jobs: seq<JobDefinition>, order: seq<JobId>)
    requires Inv(c) && Room(c) && Built(jobs)
    ensures Roomy(c.scheduler, PlanFor(c, jobs, order).updates)
  {
    PlanUpdatesMembers(c.owned, jobs);
    forall u | u in PlanFor(c, jobs, order).updates
      ensures u.patch.reschedule.Recalculate?
      ensures (u.id in c.scheduler.jobs ==> c.scheduler.jobs[u.id].version + 2 <= U64_MAX)
    {
      var d :| d in jobs && Changes(c.owned, d) && u == UpdateFor(c.owned, d);
      assert AgreesOn(c, d.jobId);
    }
  }

  lemma PlanFires(c: Controller, jobs: seq<JobDefinition>, order: seq<JobId>)
    requires Built(jobs)
    ensures NewTriggersFire(c, jobs) <==> AllFire(PlanFor(c, jobs, order).additions, c.scheduler.limits)
  {
    PlanAdditionsMembers(c.owned, jobs);
    var additions := PlanFor(c, jobs, order).additions;
    if AllFire(additions, c.scheduler.limits) {
      forall d | d in jobs && d.jobId !in c.owned && d.trigger.Some?
        ensures Fires(d.trigger.value, c.scheduler.limits)
      {
        var i :| 0 <= i < |jobs| && jobs[i] == d;
        assert AdditionFor(d) in additions;
      }
    } else {
      var a :| a in additions && !Fires(a.trigger, c.scheduler.limits);
      var d :| d in jobs && d.jobId !in c.owned && a == AdditionFor(d);
    }
  }

  /** What the Scheduler holds for one Job of an applied snapshot. */
  ghost predicate Settled(c: Controller, d: JobDefinition, after: Scheduler) {
    && d.jobId in after.jobs
    && (d.jobId in c.owned && c.owned[d.jobId].definition == d ==>
          d.jobId in c.scheduler.jobs && after.jobs[d.jobId] == c.scheduler.jobs[d.jobId])
    && (Changes(c.owned, d) || d.jobId !in c.owned ==> (after.jobs[d.jobId].state.Enabled? ==> d.enabled))
    && (Changes(c.owned, d) ==> d.jobId in c.scheduler.jobs
                                && after.jobs[d.jobId].version <= c.scheduler.jobs[d.jobId].version + 2)
    && (d.jobId !in c.owned ==> after.jobs[d.jobId].version == 1)
  }

  lemma UntouchedIds(c: Controller, jobs: seq<JobDefinition>, order: seq<JobId>, id: JobId)
    requires Built(jobs) && Distinct(Ids(jobs)) && Walks(order, c)
    requires id in c.owned ==> exists d :: d in jobs && d.jobId == id && c.owned[id].definition == d
    ensures var plan := PlanFor(c, jobs, order);
            id !in DeletionIds(plan.deletions) && id !in UpdateIds(plan.updates)
  {
    PlanIds(c, jobs, order);
    var plan := PlanFor(c, jobs, order);
    if id in UpdateIds(plan.updates) {
      assert id in Elements(UpdateIds(plan.updates));
      var e :| e in jobs && e.jobId == id && Changes(c.owned, e);
      var d :| d in jobs && d.jobId == id && c.owned[id].definition == d;
      SameJob(jobs, d, e);
    }
    if id in DeletionIds(plan.deletions) {
      assert id in Elements(DeletionIds(plan.deletions));
      var d :| d in jobs && d.jobId == id && c.owned[id].definition == d;
      JobIdListed(jobs, d);
    }
  }

  /** Beside the local Jobs, as they were, the Scheduler holds exactly the snapshot. */
  ghost predicate Stands(c: Controller, jobs: seq<JobDefinition>, after: Scheduler) {
    && after.limits == c.scheduler.limits
    && after.jobs.Keys == Local(c).Keys + Elements(Ids(jobs))
    && (forall id :: id in Local(c) ==> after.jobs[id] == Local(c)[id])
    && (forall d :: d in jobs ==> Settled(c, d, after))
  }

  lemma PlanAlgebra(all: set<JobId>, owned: set<JobId>, ids: set<JobId>)
    requires owned <= all
    ensures all - (owned - ids) + (ids - owned) == (all - owned) + ids
  {
  }

  lemma Partition(all: set<JobId>, owned: set<JobId>)
    requires owned <= all
    ensures (all - owned) + owned == all
  {
  }

  lemma OwnedAreHeld(c: Controller)
    requires Agrees(c)
    ensures c.owned.Keys <= c.scheduler.jobs.Keys && Local(c).Keys == c.scheduler.jobs.Keys - c.owned.Keys
  {
    assert forall id :: id in c.owned ==> AgreesOn(c, id);
  }

  lemma PlanKeys(c: Controller, jobs: seq<JobDefinition>, env: Surroundings)
    requires Inv(c) && Room(c) && Walks(env.order, c) && Built(jobs) && Distinct(Ids(jobs))
    requires NewTriggersFire(c, jobs) && Preflight(c.scheduler, PlanFor(c, jobs, env.order)).None?
    ensures var r := Reconcile(c.scheduler, PlanFor(c, jobs, env.order));
            && r.error.None? && r.scheduler.limits == c.scheduler.limits
            && r.scheduler.jobs.Keys == Local(c).Keys + Elements(Ids(jobs))
  {
    var plan := PlanFor(c, jobs, env.order);
    PlanIsRoomy(c, jobs, env.order);
    PlanFires(c, jobs, env.order);
    ReconcileApplies(c.scheduler, plan);
    PlanIds(c, jobs, env.order);
    OwnedAreHeld(c);
    PlanAlgebra(c.scheduler.jobs.Keys, c.owned.Keys, Elements(Ids(jobs)));
  }

  lemma LocalJobStays(c: Controller, jobs: seq<JobDefinition>, env: Surroundings, id: JobId)
    requires Inv(c) && Room(c) && Walks(env.order, c) && Built(jobs) && Distinct(Ids(jobs)) && id in Local(c)
    requires Preflight(c.scheduler, PlanFor(c, jobs, env.order)).None?
    ensures var after := Reconcile(c.scheduler, PlanFor(c, jobs, env.order)).scheduler;
            id in after.jobs && after.jobs[id] == Local(c)[id]
  {
    PlanIsRoomy(c, jobs, env.order);
    ReconcileCommits(c.scheduler, PlanFor(c, jobs, env.order));
    UntouchedIds(c, jobs, env.order, id);
  }

  /** What the Scheduler makes of a plan it accepts. If the new triggers fire, it keeps the local Jobs and
      leaves exactly the snapshot beside them. If not, it fails after the updates, the deletions and the
      additions before the first trigger that does not fire. */
  lemma PlanEffect(c: Controller, jobs: seq<JobDefinition>, env: Surroundings)
    requires Inv(c) && Room(c) && Walks(env.order, c) && Built(jobs) && Distinct(Ids(jobs))
    requires Preflight(c.scheduler, PlanFor(c, jobs, env.order)).None?
    ensures var plan := PlanFor(c, jobs, env.order);
            var r := Reconcile(c.scheduler, plan);
            && r.error == (if NewTriggersFire(c, jobs) then None else Some(InvalidTrigger))
            && Committed(c.scheduler, plan, FiringPrefix(plan.additions, c.scheduler.limits), r.scheduler)
            && (NewTriggersFire(c, jobs) ==> Stands(c, jobs, r.scheduler))
  {
    var after := Reconcile(c.scheduler, PlanFor(c, jobs, env.order)).scheduler;
    PlanIsRoomy(c, jobs, env.order);
    PlanFires(c, jobs, env.order);
    ReconcileCommits(c.scheduler, PlanFor(c, jobs, env.order));
    if NewTriggersFire(c, jobs) {
      PlanKeys(c, jobs, env);
      forall id | id in Local(c) ensures after.jobs[id] == Local(c)[id] {
        LocalJobStays(c, jobs, env, id);
      }
      WholePrefix(PlanFor(c, jobs, env.order).additions, c.scheduler.limits);
      forall d | d in jobs ensures Settled(c, d, after) {
        SettledJob(c, jobs, env.order, after, d);
      }
    }
  }

  lemma SettledJob(c: Controller, jobs: seq<JobDefinition>, order: seq<JobId>, after: Scheduler, d: JobDefinition)
    requires Inv(c) && Walks(order, c) && Built(jobs) && Distinct(Ids(jobs)) && d in jobs
    requires var plan := PlanFor(c, jobs, order); Committed(c.scheduler, plan, plan.additions, after)
    ensures Settled(c, d, after)
  {
    var plan := PlanFor(c, jobs, order);
    if d.jobId !in c.owned {
      PlanAdditionsMembers(c.owned, jobs);
      assert AdditionFor(d) in plan.additions;
    } else {
      assert AgreesOn(c, d.jobId);
      if c.owned[d.jobId].definition == d {
        UntouchedIds(c, jobs, order, d.jobId);
      } else {
        PlanUpdatesMembers(c.owned, jobs);
        assert UpdateFor(c.owned, d) in plan.updates;
      }
    }
  }

  /** The controller's own count of Jobs after the snapshot is the size of the resulting table. */
  lemma FinalCountExact(c: Controller, jobs: seq<JobDefinition>)
    requires Agrees(c) && !OwnershipClash(c, jobs)
    ensures FinalJobCount(c, jobs) == |Local(c).Keys + Elements(Ids(jobs))|
  {
    OwnedAreHeld(c);
    SubsetSize(c.owned.Keys, c.scheduler.jobs.Keys);
    MapSize(c.scheduler.jobs);
    MapSize(c.owned);
    SnapshotIsNotLocal(c, jobs);
  }

  lemma SnapshotIsNotLocal(c: Controller, jobs: seq<JobDefinition>)
    requires !OwnershipClash(c, jobs)
    ensures Local(c).Keys !! Elements(Ids(jobs))
  {
    forall id | id in Elements(Ids(jobs)) ensures id !in Local(c) {
      var i :| 0 <= i < |Ids(jobs)| && Ids(jobs)[i] == id;
      assert jobs[i].jobId == id;
    }
  }

  /** The controller owns exactly the snapshot, in agreement with the Scheduler and with the policy, and the
      local Jobs are as they were. */
  ghost predicate Replaced(c: Controller, jobs: seq<JobDefinition>, after: Controller) {
    && Inv(after) && Local(after) == Local(c)
    && after.owned.Keys == Elements(Ids(jobs))
    && after.scheduler.jobs.Keys == Local(c).Keys + Elements(Ids(jobs))
    && |after.scheduler.jobs| == FinalJobCount(c, jobs)
  }

  /** Only the Scheduler has changed, as far as the commit got. */
  ghost predicate Stuck(c: Controller, jobs: seq<JobDefinition>, order: seq<JobId>, after: Controller)
    requires Built(jobs)
  {
    var plan := PlanFor(c, jobs, order);
    && after == c.(scheduler := after.scheduler)
    && Committed(c.scheduler, plan, FiringPrefix(plan.additions, c.scheduler.limits), after.scheduler)
  }

  /** An applied snapshot replaces everything owned. One that is refused leaves no trace, unless it sticks;
      that refusal is one that is not remembered. */
  lemma ReplaceAllKeeps(c: Controller, revision: nat, jobs: seq<JobDefinition>, env: Surroundings)
    requires Inv(c) && Room(c) && Walks(env.order, c)
    ensures var o := ApplyReplaceAll(c, revision, jobs, env);
            && (o.verdict.Applied? <==> Passes(c, revision, jobs, env) && NewTriggersFire(c, jobs))
            && (o.verdict.Applied? ==> Replaced(c, jobs, o.controller))
            && (!o.verdict.Applied? && !Sticks(c, revision, jobs, env) ==> o.controller == c)
            && (Sticks(c, revision, jobs, env) ==>
                  o.verdict == Rejected(SchedulerUnavailable) && Stuck(c, jobs, env.order, o.controller))
  {
    if Sticks(c, revision, jobs, env) {
      StickingKeeps(c, revision, jobs, env);
    } else if Passes(c, revision, jobs, env) {
      AppliedKeeps(c, revision, jobs, env);
    } else {
      ReplaceAllRefused(c, revision, jobs, env);
    }
  }

  lemma CommitSticks(c: Controller, jobs: seq<JobDefinition>, env: Surroundings)
    requires Inv(c) && Room(c) && Walks(env.order, c) && Built(jobs) && Distinct(Ids(jobs)) && !NewTriggersFire(c, jobs)
    requires Preflight(c.scheduler, PlanFor(c, jobs, env.order)).None?
    ensures var r := Reconcile(c.scheduler, PlanFor(c, jobs, env.order));
            r.error == Some(InvalidTrigger) && Stuck(c, jobs, env.order, c.(scheduler := r.scheduler))
  {
    PlanEffect(c, jobs, env);
  }

  lemma StickingOutcome(c: Controller, revision: nat, jobs: seq<JobDefinition>, r: Reconciled)
    requires Built(jobs) && r.error == Some(InvalidTrigger)
    ensures SnapshotOutcome(c, revision, jobs, r)
            == Outcome(c.(scheduler := r.scheduler), Rejected(SchedulerUnavailable))
  {
  }

  lemma StickingKeeps(c: Controller, revision: nat, jobs: seq<JobDefinition>, env: Surroundings)
    requires Inv(c) && Room(c) && Walks(env.order, c) && Sticks(c, revision, jobs, env)
    ensures ApplyReplaceAll(c, revision, jobs, env).verdict == Rejected(SchedulerUnavailable)
    ensures Stuck(c, jobs, env.order, ApplyReplaceAll(c, revision, jobs, env).controller)
  {
    var r := Reconcile(c.scheduler, PlanFor(c, jobs, env.order));
    assert r.error == Some(InvalidTrigger) && Stuck(c, jobs, env.order, c.(scheduler := r.scheduler)) by {
      ValidJobs(jobs, {}, c.policy, env.builds);
      CommitSticks(c, jobs, env);
    }
    assert ApplyReplaceAll(c, revision, jobs, env)
           == Outcome(c.(scheduler := r.scheduler), Rejected(SchedulerUnavailable)) by {
      ReplaceAllAsks(c, revision, jobs, env);
      StickingOutcome(c, revision, jobs, r);
    }
  }

  lemma AppliedKeeps(c: Controller, revision: nat, jobs: seq<JobDefinition>, env: Surroundings)
    requires Inv(c) && Room(c) && Walks(env.order, c) && Passes(c, revision, jobs, env) && NewTriggersFire(c, jobs)
    ensures ApplyReplaceAll(c, revision, jobs, env).verdict.Applied?
    ensures Replaced(c, jobs, ApplyReplaceAll(c, revision, jobs, env).controller)
  {
    ReplaceAllAsks(c, revision, jobs, env);
    ValidJobs(jobs, {}, c.policy, env.builds);
    PlanEffect(c, jobs, env);
    FinalCountExact(c, jobs);
    StandsKeeps(c, jobs, env, Reconcile(c.scheduler, PlanFor(c, jobs, env.order)).scheduler,
                ApplyReplaceAll(c, revision, jobs, env).controller);
  }

  lemma ReplaceAllRefused(c: Controller, revision: nat, jobs: seq<JobDefinition>, env: Surroundings)
    requires !Passes(c, revision, jobs, env)
    ensures ApplyReplaceAll(c, revision, jobs, env).controller == c
    ensures !ApplyReplaceAll(c, revision, jobs, env).verdict.Applied?
  {
    if revision != 0 && revision >= c.catalogRevision && Acceptable(c, jobs, env) {
      ValidJobs(jobs, {}, c.policy, env.builds);
    }
  }

  lemma ReplaceAllAsks(c: Controller, revision: nat, jobs: seq<JobDefinition>, env: Surroundings)
    requires revision != 0 && revision >= c.catalogRevision && Acceptable(c, jobs, env) && Built(jobs)
    ensures ApplyReplaceAll(c, revision, jobs, env)
            == SnapshotOutcome(c, revision, jobs, Reconcile(c.scheduler, PlanFor(c, jobs, env.order)))
  {
  }

  lemma StandsKeeps(c: Controller, jobs: seq<JobDefinition>, env: Surroundings, r: Scheduler, after: Controller)
    requires Inv(c) && Built(jobs) && Distinct(Ids(jobs)) && FirstInvalid(jobs, {}, c.policy, env.builds).None?
    requires !OwnershipClash(c, jobs) && Stands(c, jobs, r)
    requires after == c.(scheduler := r, owned := IndexAfter(c, jobs, r), catalogRevision := after.catalogRevision)
    ensures Inv(after) && Local(after) == Local(c) && after.owned.Keys == Elements(Ids(jobs))
    ensures |after.scheduler.jobs| == |Local(c).Keys + Elements(Ids(jobs))|
  {
    IndexAfterFacts(c, jobs, r);
    forall id | id in after.owned ensures MatchedEntry(c.policy, id, after.owned[id], r) {
      SettledEntry(c, jobs, env, r, id);
    }
    MatchedKeeps(c, after);
    SnapshotIsNotLocal(c, jobs);
    LocalKept(c, after, Elements(Ids(jobs)));
    MapSize(r.jobs);
  }

  lemma LocalKept(c: Controller, after: Controller, ids: set<JobId>)
    requires after.owned.Keys == ids && Local(c).Keys !! ids && after.scheduler.jobs.Keys == Local(c).Keys + ids
    requires forall id :: id in Local(c) ==> after.scheduler.jobs[id] == Local(c)[id]
    ensures Local(after) == Local(c)
  {
    assert Local(after).Keys == Local(c).Keys;
  }

  lemma MatchedKeeps(c: Controller, after: Controller)
    requires after.policy == c.policy && forall id :: id in after.owned ==>
              MatchedEntry(c.policy, id, after.owned[id], after.scheduler)
    ensures Inv(after)
  {
  }

  /** One index entry and the Scheduler fit together under the policy. */
  ghost predicate MatchedEntry(policy: RemoteJobPolicy, id: JobId, m: ManagedJob, s: Scheduler) {
    && WellManaged(id, m) && id in s.jobs && s.jobs[id].version == m.generation
    && (DeniesKind(policy, m.taskKind) ==> !s.jobs[id].state.Enabled?)
  }

  lemma SettledEntry(c: Controller, jobs: seq<JobDefinition>, env: Surroundings, r: Scheduler, id: JobId)
    requires Inv(c) && Built(jobs) && Distinct(Ids(jobs)) && FirstInvalid(jobs, {}, c.policy, env.builds).None?
    requires forall d :: d in jobs ==> Settled(c, d, r)
    requires id in IndexAfter(c, jobs, r)
    ensures MatchedEntry(c.policy, id, IndexAfter(c, jobs, r)[id], r)
  {
    ValidJobs(jobs, {}, c.policy, env.builds);
    IndexAfterFacts(c, jobs, r);
    var d := ListedJob(jobs, id);
    assert Settled(c, d, r) && Compiles(d, env.builds) && !DeniesDefinition(c.policy, d);
    if id in c.owned { assert AgreesOn(c, id); }
  }

  /** The controller holds exactly these definitions. */
  ghost predicate Holds(c: Controller, jobs: seq<JobDefinition>) {
    && c.owned.Keys == Elements(Ids(jobs))
    && forall d :: d in jobs ==> d.jobId in c.owned && c.owned[d.jobId].definition == d
  }

  lemma {:induction false} NothingToInstall(owned: map<JobId, ManagedJob>, jobs: seq<JobDefinition>)
    requires Built(jobs) && forall d :: d in jobs ==> d.jobId in owned && owned[d.jobId].definition == d
    ensures PlanUpdates(owned, jobs) == [] && PlanAdditions(owned, jobs) == []
  {
    if jobs != [] {
      assert jobs[0] in jobs && Built(jobs[1..]);
      NothingToInstall(owned, jobs[1..]);
    }
  }

  lemma {:induction false} NothingToDelete(owned: map<JobId, ManagedJob>, keep: set<JobId>, order: seq<JobId>)
    requires owned.Keys <= keep
    ensures PlanDeletions(owned, keep, order) == []
  {
    if order != [] {
      NothingToDelete(owned, keep, order[1..]);
    }
  }

  lemma ReplayPlan(c: Controller, jobs: seq<JobDefinition>, order: seq<JobId>)
    requires Built(jobs) && Holds(c, jobs)
    ensures PlanFor(c, jobs, order) == ReconcilePlan([], [], [])
  {
    NothingToInstall(c.owned, jobs);
    NothingToDelete(c.owned, Elements(Ids(jobs)), order);
  }

  lemma ReplayIndex(c: Controller, jobs: seq<JobDefinition>)
    requires Built(jobs) && Distinct(Ids(jobs)) && Holds(c, jobs) && WellFormed(c)
    ensures IndexAfter(c, jobs, c.scheduler) == c.owned
  {
    IndexAfterFacts(c, jobs, c.scheduler);
    var index := IndexAfter(c, jobs, c.scheduler);
    forall id | id in c.owned ensures index[id] == c.owned[id] {
      var d := ListedJob(jobs, id);
      assert WellManaged(id, c.owned[id]);
    }
  }

  lemma EmptyPlan(s: Scheduler)
    requires |s.jobs| <= s.limits.maxJobs
    ensures Reconcile(s, ReconcilePlan([], [], [])) == Reconciled(s, None)
  {
    assert Elements(DeletionIds([])) == {};
  }

  /** Replaying the snapshot the controller already holds plans nothing and changes nothing, so it
      does not re-enable a Job that the policy or a plugin pause has disabled. */
  lemma ReplayChangesNothing(c: Controller, jobs: seq<JobDefinition>, env: Surroundings)
    requires Inv(c) && Acceptable(c, jobs, env) && c.catalogRevision > 0 && Holds(c, jobs)
    ensures Built(jobs) && PlanFor(c, jobs, env.order) == ReconcilePlan([], [], [])
    ensures ApplyReplaceAll(c, c.catalogRevision, jobs, env) == Outcome(c, Applied)
  {
    ValidJobs(jobs, {}, c.policy, env.builds);
    ReplayPlan(c, jobs, env.order);
    ReplayIndex(c, jobs);
    HeldCount(c, jobs);
    EmptyPlan(c.scheduler);
  }

  lemma HeldCount(c: Controller, jobs: seq<JobDefinition>)
    requires Agrees(c) && !OwnershipClash(c, jobs) && Holds(c, jobs)
    ensures FinalJobCount(c, jobs) == |c.scheduler.jobs|
  {
    FinalCountExact(c, jobs);
    OwnedAreHeld(c);
    Partition(c.scheduler.jobs.Keys, c.owned.Keys);
    MapSize(c.scheduler.jobs);
  }

  // ----- torn snapshots -----

  lemma PlanMoves(c: Controller, jobs: seq<JobDefinition>, order: seq<JobId>)
    requires Built(jobs) && Walks(order, c)
    ensures var plan := PlanFor(c, jobs, order);
            plan.updates != [] || plan.deletions != [] <==> Moves(c, jobs)
  {
    PlanIds(c, jobs, order);
    var plan := PlanFor(c, jobs, order);
    if plan.updates != [] {
      assert UpdateIds(plan.updates)[0] in Elements(UpdateIds(plan.updates));
    }
    if plan.deletions != [] {
      assert DeletionIds(plan.deletions)[0] in Elements(DeletionIds(plan.deletions));
    }
    if Moves(c, jobs) {
      if d :| d in jobs && Changes(c.owned, d) {
        assert d.jobId in Elements(UpdateIds(plan.updates));
      } else {
        var id :| id in c.owned && id !in Elements(Ids(jobs));
        assert id in Elements(DeletionIds(plan.deletions));
      }
    }
  }

  /** The snapshot is refused half way: it sticks, and something comes before the trigger it sticks on. */
  ghost predicate Tears(c: Controller, revision: nat, jobs: seq<JobDefinition>, env: Surroundings) {
    && Sticks(c, revision, jobs, env)
    && var additions := PlanFor(c, jobs, env.order).additions;
    && additions != []
    && (Moves(c, jobs) || Fires(additions[0].trigger, c.scheduler.limits))
  }

  /** The snapshot is not atomic: it is refused and has changed the Scheduler exactly when it tears. */
  lemma ReplaceAllTears(c: Controller, revision: nat, jobs: seq<JobDefinition>, env: Surroundings)
    requires Inv(c) && Room(c) && Walks(env.order, c)
    ensures var o := ApplyReplaceAll(c, revision, jobs, env);
            !o.verdict.Applied? && o.controller != c <==> Tears(c, revision, jobs, env)
  {
    ReplaceAllKeeps(c, revision, jobs, env);
    if Sticks(c, revision, jobs, env) {
      ValidJobs(jobs, {}, c.policy, env.builds);
      PlanIsRoomy(c, jobs, env.order);
      PlanFires(c, jobs, env.order);
      PlanMoves(c, jobs, env.order);
      ReconcileAtomicity(c.scheduler, PlanFor(c, jobs, env.order));
    }
  }

  /** What a stuck snapshot did to one owned Job: dropped, moved on, or left alone. */
  lemma StuckEntry(c: Controller, jobs: seq<JobDefinition>, order: seq<JobId>, after: Controller, id: JobId)
    requires Inv(c) && Walks(order, c) && Built(jobs) && Distinct(Ids(jobs)) && Stuck(c, jobs, order, after)
    requires id in c.owned
    ensures id !in Elements(Ids(jobs)) ==> id !in after.scheduler.jobs
    ensures forall d :: d in jobs && d.jobId == id ==>
              && id in after.scheduler.jobs && id in c.scheduler.jobs
              && if Changes(c.owned, d) then after.scheduler.jobs[id].version > c.owned[id].generation
                 else after.scheduler.jobs[id] == c.scheduler.jobs[id]
  {
    assert AgreesOn(c, id);
    var plan := PlanFor(c, jobs, order);
    PlanIds(c, jobs, order);
    PrefixIds(plan.additions, FiringPrefix(plan.additions, c.scheduler.limits));
    forall d | d in jobs && d.jobId == id
      ensures id in after.scheduler.jobs
      ensures if Changes(c.owned, d) then after.scheduler.jobs[id].version > c.owned[id].generation
              else after.scheduler.jobs[id] == c.scheduler.jobs[id]
    {
      if Changes(c.owned, d) {
        PlanUpdatesMembers(c.owned, jobs);
        assert UpdateFor(c.owned, d) in plan.updates;
      } else {
        UntouchedIds(c, jobs, order, id);
      }
    }
  }

  lemma StuckAgreesIff(c: Controller, jobs: seq<JobDefinition>, order: seq<JobId>, after: Controller)
    requires Inv(c) && Walks(order, c) && Built(jobs) && Distinct(Ids(jobs)) && Stuck(c, jobs, order, after)
    ensures Agrees(after) <==> !Moves(c, jobs)
    ensures Agrees(after) ==> Inv(after)
  {
    if Moves(c, jobs) {
      var id: JobId;
      if d :| d in jobs && Changes(c.owned, d) {
        id := d.jobId;
      } else {
        id :| id in c.owned && id !in Elements(Ids(jobs));
      }
      StuckEntry(c, jobs, order, after, id);
      assert !AgreesOn(after, id);
    } else {
      forall id | id in c.owned ensures MatchedEntry(c.policy, id, after.owned[id], after.scheduler) {
        StuckEntry(c, jobs, order, after, id);
        var d := ListedJob(jobs, id);
        assert !Changes(c.owned, d) && AgreesOn(c, id);
      }
      MatchedKeeps(c, after);
    }
  }

  /** When a snapshot breaks the agreement: exactly when it sticks and changes or drops an owned Job. A
      snapshot that sticks on its additions alone keeps every invariant. */
  lemma ReplaceAllAgreesIff(c: Controller, revision: nat, jobs: seq<JobDefinition>, env: Surroundings)
    requires Inv(c) && Room(c) && Walks(env.order, c)
    ensures var after := ApplyReplaceAll(c, revision, jobs, env).controller;
            && (Agrees(after) <==> !(Sticks(c, revision, jobs, env) && Moves(c, jobs)))
            && (Agrees(after) ==> Inv(after))
  {
    ReplaceAllKeeps(c, revision, jobs, env);
    if Sticks(c, revision, jobs, env) {
      ValidJobs(jobs, {}, c.policy, env.builds);
      StuckAgreesIff(c, jobs, env.order, ApplyReplaceAll(c, revision, jobs, env).controller);
    }
  }
}
