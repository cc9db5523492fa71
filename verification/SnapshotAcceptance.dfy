/** Exactly which authoritative snapshots are applied: the Scheduler's own checks of a plan, told from the fields of
    the snapshot's definitions. */
module SnapshotAcceptance {
  import opened Basics
  import opened Scheduling
  import opened Definitions
  import opened JobPolicy
  import opened RemoteJobs
  import opened Agreement
  import opened Snapshots
  import opened CommandVerdicts
  import opened SafetyLimits
  import opened SnapshotGates

  // ----- the Scheduler's checks, one by one -----

  lemma {:induction false} UpdatesErrorExact(s: Scheduler, updates: seq<Update>, touched: set<JobId>)
    requires Distinct(UpdateIds(updates)) && forall u :: u in updates ==> u.id !in touched
    ensures UpdatesError(s, updates, touched).None? <==>
              forall u :: u in updates ==> UpdateError(s, u.id, u.expected, u.patch).None?
    ensures UpdatesError(s, updates, touched).Some? ==>
              exists u :: u in updates && UpdateError(s, u.id, u.expected, u.patch) == UpdatesError(s, updates, touched)
    decreases |updates|
  {
    if updates != [] {
      var u, rest := updates[0], updates[1..];
      var ids := UpdateIds(updates);
      assert UpdateIds(rest) == ids[1..] && ids[0] == u.id;
      forall v | v in rest ensures v.id !in touched + {u.id} {
        var i :| 0 <= i < |rest| && rest[i] == v;
        assert ids[i + 1] == v.id && v in updates;
      }
      assert u in updates;
      assert forall v :: v in updates <==> v == u || v in rest;
      if UpdateError(s, u.id, u.expected, u.patch).None? { UpdatesErrorExact(s, rest, touched + {u.id}); }
    }
  }

  lemma {:induction false} AdditionsErrorExact(s: Scheduler, additions: seq<Addition>, touched: set<JobId>)
    requires Distinct(AdditionIds(additions)) && forall a :: a in additions ==> a.id !in touched
    ensures AdditionsError(s, additions, touched).None? <==> forall a :: a in additions ==> AdditionError(s, a).None?
    ensures AdditionsError(s, additions, touched).Some? ==>
              exists a :: a in additions && AdditionError(s, a) == AdditionsError(s, additions, touched)
    decreases |additions|
  {
    if additions != [] {
      var a, rest := additions[0], additions[1..];
      var ids := AdditionIds(additions);
      assert AdditionIds(rest) == ids[1..] && ids[0] == a.id;
      forall b | b in rest ensures b.id !in touched + {a.id} {
        var i :| 0 <= i < |rest| && rest[i] == b;
        assert ids[i + 1] == b.id && b in additions;
      }
      assert a in additions;
      assert forall b :: b in additions <==> b == a || b in rest;
      if AdditionError(s, a).None? { AdditionsErrorExact(s, rest, touched + {a.id}); }
    }
  }

  lemma {:induction false} DeletionsErrorExact(s: Scheduler, deletions: seq<Deletion>)
    requires forall x :: x in deletions ==> VersionError(s, x.id, x.expected).None?
    ensures DeletionsError(s, deletions).None?
    decreases |deletions|
  {
    if deletions != [] {
      assert deletions[0] in deletions;
      DeletionsErrorExact(s, deletions[1..]);
    }
  }

  // ----- the plan's ids are distinct -----

  lemma HeadIsNew<T>(xs: seq<T>)
    requires xs != [] && Distinct(xs)
    ensures xs[0] !in xs[1..] && Distinct(xs[1..])
  {
  }

  lemma DistinctWith<T>(x: T, xs: seq<T>)
    requires x !in xs && Distinct(xs)
    ensures Distinct([x] + xs)
  {
  }

  lemma {:induction false} UpdateIdsDistinct(owned: map<JobId, ManagedJob>, jobs: seq<JobDefinition>)
    requires Built(jobs) && Distinct(Ids(jobs))
    ensures Distinct(UpdateIds(PlanUpdates(owned, jobs)))
    ensures forall id :: id in UpdateIds(PlanUpdates(owned, jobs)) ==> id in Ids(jobs)
    decreases |jobs|
  {
    if jobs != [] {
      var d, rest := jobs[0], jobs[1..];
      assert Built(rest) && Ids(rest) == Ids(jobs)[1..] && Ids(jobs) == [d.jobId] + Ids(rest);
      HeadIsNew(Ids(jobs));
      UpdateIdsDistinct(owned, rest);
      var ids := UpdateIds(PlanUpdates(owned, rest));
      if Changes(owned, d) {
        assert UpdateIds(PlanUpdates(owned, jobs)) == [d.jobId] + ids;
        DistinctWith(d.jobId, ids);
      } else {
        assert PlanUpdates(owned, jobs) == PlanUpdates(owned, rest);
      }
    }
  }

  lemma {:induction false} AdditionIdsDistinct(owned: map<JobId, ManagedJob>, jobs: seq<JobDefinition>)
    requires Built(jobs) && Distinct(Ids(jobs))
    ensures Distinct(AdditionIds(PlanAdditions(owned, jobs)))
    ensures forall id :: id in AdditionIds(PlanAdditions(owned, jobs)) ==> id in Ids(jobs)
    decreases |jobs|
  {
    if jobs != [] {
      var d, rest := jobs[0], jobs[1..];
      assert Built(rest) && Ids(rest) == Ids(jobs)[1..] && Ids(jobs) == [d.jobId] + Ids(rest);
      HeadIsNew(Ids(jobs));
      AdditionIdsDistinct(owned, rest);
      var ids := AdditionIds(PlanAdditions(owned, rest));
      if d.jobId !in owned {
        assert AdditionIds(PlanAdditions(owned, jobs)) == [d.jobId] + ids;
        DistinctWith(d.jobId, ids);
      } else {
        assert PlanAdditions(owned, jobs) == PlanAdditions(owned, rest);
      }
    }
  }

  lemma {:induction false} DeletionIdsDistinct(owned: map<JobId, ManagedJob>, keep: set<JobId>, order: seq<JobId>)
    requires Distinct(order)
    ensures Distinct(DeletionIds(PlanDeletions(owned, keep, order)))
    ensures forall id :: id in DeletionIds(PlanDeletions(owned, keep, order)) ==> id in order
    decreases |order|
  {
    if order != [] {
      var id, rest := order[0], order[1..];
      DeletionIdsDistinct(owned, keep, rest);
      var ids := DeletionIds(PlanDeletions(owned, keep, rest));
      if id in owned && id !in keep {
        assert DeletionIds(PlanDeletions(owned, keep, order)) == [id] + ids;
        HeadIsNew(order);
        DistinctWith(id, ids);
      } else {
        assert PlanDeletions(owned, keep, order) == PlanDeletions(owned, keep, rest);
      }
    }
  }

  // ----- the parts of the plan -----

  /** Every definition is complete, with its own id. */
  ghost predicate AllComplete(jobs: seq<JobDefinition>) {
    Built(jobs) && Distinct(Ids(jobs)) && forall d :: d in jobs ==> Complete(d)
  }

  /** The Scheduler can take `d` as an update, or as a new Job. */
  ghost predicate FitsChanged(c: Controller, d: JobDefinition)
    requires Complete(d)
  {
    && d.jobId in c.scheduler.jobs
    && FitsOver(c.scheduler.limits, d, c.scheduler.jobs[d.jobId]) && Occurs(c.scheduler.limits, d)
  }

  lemma ChangedFits(c: Controller, d: JobDefinition)
    requires Agrees(c) && Room(c) && Complete(d) && Changes(c.owned, d)
    ensures KindOf(d).Some?
    ensures var u := UpdateFor(c.owned, d);
            var error := UpdateError(c.scheduler, u.id, u.expected, u.patch);
            && (error.None? <==> FitsChanged(c, d))
            && (error.Some? ==> SchedulerCode(error.value) == SchedulerUnavailable)
  {
    assert AgreesOn(c, d.jobId);
    PatchRefused(c.scheduler, d);
  }

  lemma NewFits(c: Controller, d: JobDefinition)
    requires Complete(d) && d.jobId !in c.scheduler.jobs
    ensures KindOf(d).Some?
    ensures var error := AdditionError(c.scheduler, AdditionFor(d));
            && (error.None? <==> FitsAnew(c.scheduler.limits, d))
            && (error.Some? ==> SchedulerCode(error.value) == SchedulerUnavailable)
  {
    ValidatorsExact(c.scheduler.limits, d.trigger.value, d.options, BindingOf(d));
    TriggerErrorKinds(c.scheduler.limits, d.trigger.value, d.options);
  }

  lemma UpdatesPart(c: Controller, jobs: seq<JobDefinition>, touched: set<JobId>)
    requires Agrees(c) && Room(c) && AllComplete(jobs) && forall d :: d in jobs ==> d.jobId !in touched
    ensures var error := UpdatesError(c.scheduler, PlanUpdates(c.owned, jobs), touched);
            && (error.None? <==> forall d :: d in jobs && Changes(c.owned, d) ==> FitsChanged(c, d))
            && (error.Some? ==> SchedulerCode(error.value) == SchedulerUnavailable)
  {
    var updates := PlanUpdates(c.owned, jobs);
    UpdateIdsDistinct(c.owned, jobs);
    PlanUpdatesMembers(c.owned, jobs);
    UpdatesErrorExact(c.scheduler, updates, touched);
    forall d | d in jobs && Changes(c.owned, d)
      ensures var u := UpdateFor(c.owned, d);
              var error := UpdateError(c.scheduler, u.id, u.expected, u.patch);
              && u in updates
              && (error.None? <==> FitsChanged(c, d))
              && (error.Some? ==> SchedulerCode(error.value) == SchedulerUnavailable)
    {
      ChangedFits(c, d);
    }
  }

  lemma AdditionsPart(c: Controller, jobs: seq<JobDefinition>, touched: set<JobId>)
    requires AllComplete(jobs) && !Foreign(c, jobs)
    requires forall d :: d in jobs && d.jobId !in c.owned ==> d.jobId !in touched
    ensures var error := AdditionsError(c.scheduler, PlanAdditions(c.owned, jobs), touched);
            && (error.None? <==>
                forall d :: d in jobs && d.jobId !in c.owned ==> FitsAnew(c.scheduler.limits, d))
            && (error.Some? ==> SchedulerCode(error.value) == SchedulerUnavailable)
  {
    var additions := PlanAdditions(c.owned, jobs);
    AdditionIdsDistinct(c.owned, jobs);
    PlanAdditionsMembers(c.owned, jobs);
    AdditionsErrorExact(c.scheduler, additions, touched);
    forall d | d in jobs && d.jobId !in c.owned
      ensures var error := AdditionError(c.scheduler, AdditionFor(d));
              && AdditionFor(d) in additions
              && (error.None? <==> FitsAnew(c.scheduler.limits, d))
              && (error.Some? ==> SchedulerCode(error.value) == SchedulerUnavailable)
    {
      NewFits(c, d);
    }
  }

  lemma DeletionsPart(c: Controller, jobs: seq<JobDefinition>, order: seq<JobId>)
    requires Agrees(c)
    ensures DeletionsError(c.scheduler, PlanDeletions(c.owned, Elements(Ids(jobs)), order)).None?
  {
    PlanDeletionsMembers(c.owned, Elements(Ids(jobs)), order);
    assert forall id :: id in c.owned ==> AgreesOn(c, id);
    DeletionsErrorExact(c.scheduler, PlanDeletions(c.owned, Elements(Ids(jobs)), order));
  }

  /** The Scheduler's own count of the Jobs after the batch is the controller's. */
  lemma PlanCount(c: Controller, jobs: seq<JobDefinition>, order: seq<JobId>)
    requires Agrees(c) && Walks(order, c) && AllComplete(jobs) && !Foreign(c, jobs)
    ensures var plan := PlanFor(c, jobs, order);
            && |Elements(DeletionIds(plan.deletions))| == |plan.deletions|
            && SaturatingSub(|c.scheduler.jobs|, |plan.deletions|) + |plan.additions| == FinalJobCount(c, jobs)
  {
    var plan := PlanFor(c, jobs, order);
    var all, owned, ids := c.scheduler.jobs.Keys, c.owned.Keys, Elements(Ids(jobs));
    PlanIds(c, jobs, order);
    DeletionIdsDistinct(c.owned, ids, order);
    DistinctSize(DeletionIds(plan.deletions));
    AdditionIdsDistinct(c.owned, jobs);
    DistinctSize(AdditionIds(plan.additions));
    ClashesExact(c, jobs);
    FinalCountExact(c, jobs);
    OwnedAreHeld(c);
    SubsetSize(owned - ids, all);
    assert (ids - owned) !! all by {
      forall id | id in ids - owned ensures id !in all { var d := ListedJob(jobs, id); }
    }
    PlanAlgebra(all, owned, ids);
    assert |all - (owned - ids) + (ids - owned)| == |all - (owned - ids)| + |ids - owned|;
    MapSize(c.scheduler.jobs);
  }

  /** The Scheduler can take every changed and every new Job of the snapshot. */
  ghost predicate AllFit(c: Controller, jobs: seq<JobDefinition>)
    requires AllComplete(jobs)
  {
    && (forall d :: d in jobs && Changes(c.owned, d) ==> FitsChanged(c, d))
    && (forall d :: d in jobs && d.jobId !in c.owned ==> FitsAnew(c.scheduler.limits, d))
  }

  lemma PreflightExact(c: Controller, jobs: seq<JobDefinition>, order: seq<JobId>)
    requires Agrees(c) && Room(c) && Walks(order, c) && AllComplete(jobs) && !Foreign(c, jobs)
    requires FinalJobCount(c, jobs) <= c.scheduler.limits.maxJobs
    ensures var error := Preflight(c.scheduler, PlanFor(c, jobs, order));
            && (error.None? <==> AllFit(c, jobs))
            && (error.Some? ==> SchedulerCode(error.value) == SchedulerUnavailable)
  {
    var plan := PlanFor(c, jobs, order);
    var deleted, updated := Elements(DeletionIds(plan.deletions)), Elements(UpdateIds(plan.updates));
    PlanCount(c, jobs, order);
    PlanIds(c, jobs, order);
    forall d | d in jobs ensures d.jobId in Elements(Ids(jobs)) { JobIdListed(jobs, d); }
    UpdatesPart(c, jobs, deleted);
    AdditionsPart(c, jobs, deleted + updated);
    DeletionsPart(c, jobs, order);
  }

  // ----- the verdict -----

  /** What the Scheduler asks of one Job of the snapshot: nothing, if its definition is unchanged. */
  ghost predicate Taken(c: Controller, d: JobDefinition) {
    && Complete(d)
    && (Changes(c.owned, d) ==> FitsChanged(c, d))
    && (d.jobId !in c.owned ==> FitsAnew(c.scheduler.limits, d) && Occurs(c.scheduler.limits, d))
  }

  lemma FlawlessIsComplete(jobs: seq<JobDefinition>, policy: RemoteJobPolicy, builds: JobDefinition -> bool)
    requires FirstInvalid(jobs, {}, policy, builds).None?
    ensures AllComplete(jobs)
  {
    ValidJobs(jobs, {}, policy, builds);
    forall d | d in jobs ensures Complete(d) { CompilesExact(d, builds, policy); }
  }

  /** From a state in order: a snapshot is applied exactly when every gate is open and the Scheduler can take each
      changed and each new Job; with every gate open, the only other verdict is that the Scheduler is not available. */
  lemma SnapshotAppliedIff(c: Controller, revision: nat, jobs: seq<JobDefinition>, env: Surroundings)
    requires Inv(c) && Room(c) && Walks(env.order, c)
    ensures var o := ApplyReplaceAll(c, revision, jobs, env);
            && (o.verdict.Applied? <==>
                Admitted(c, revision, jobs, env) && forall d :: d in jobs ==> Taken(c, d))
            && (Admitted(c, revision, jobs, env) && !o.verdict.Applied? ==> o.verdict == Rejected(SchedulerUnavailable))
  {
    GatesDecide(c, revision, jobs, env);
    if Admitted(c, revision, jobs, env) {
      FlawlessIsComplete(jobs, c.policy, env.builds);
      PreflightExact(c, jobs, env.order);
      AdmittedVerdict(c, revision, jobs, env);
    }
  }

  lemma TakenMeans(c: Controller, jobs: seq<JobDefinition>)
    requires AllComplete(jobs)
    ensures AllFit(c, jobs) && NewTriggersFire(c, jobs) <==> forall d :: d in jobs ==> Taken(c, d)
  {
  }

  lemma AdmittedVerdict(c: Controller, revision: nat, jobs: seq<JobDefinition>, env: Surroundings)
    requires Inv(c) && Room(c) && Walks(env.order, c) && AllComplete(jobs)
    requires revision != 0 && revision >= c.catalogRevision && Acceptable(c, jobs, env)
    requires var error := Preflight(c.scheduler, PlanFor(c, jobs, env.order));
             && (error.None? <==> AllFit(c, jobs))
             && (error.Some? ==> SchedulerCode(error.value) == SchedulerUnavailable)
    ensures var v := ApplyReplaceAll(c, revision, jobs, env).verdict;
            && (v.Applied? <==> forall d :: d in jobs ==> Taken(c, d))
            && (!v.Applied? ==> v == Rejected(SchedulerUnavailable))
  {
    ReplaceAllKeeps(c, revision, jobs, env);
    TakenMeans(c, jobs);
  }
}
