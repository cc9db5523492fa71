/** The safety limits: field by field what a Job may ask for, and that no command, batch or policy change ever
    leaves a Job in the Scheduler that asks for more. */
module SafetyLimits {
  import opened Basics
  import opened Scheduling
  import opened Definitions
  import opened JobPolicy
  import opened RemoteJobs
  import opened Runs

  /** A Job with this schedule and these options is within the limits. Catch-up loses no run, so neither may the
      queue; work that cannot be interrupted has no timeout. */
  ghost predicate Within(limits: Limits, trigger: Trigger, maxPending: Option<nat>, coalescing: TriggerCoalescing,
                         capacity: CapacityPolicy, retry: RetryPolicy, blocking: bool) {
    && (maxPending.Some? ==> maxPending.value > 0)
    && (trigger.schedule.Interval? ==> trigger.schedule.every >= limits.minimumInterval)
    && (trigger.schedule.Cron? ==> limits.cronParses(trigger.schedule.expression))
    && (trigger.misfire.CatchUp? ==>
          trigger.misfire.maxRuns <= limits.maximumCatchUp && coalescing == KeepAll && capacity == Backpressure)
    && (retry.Exponential? ==>
          && retry.maxAttempts <= limits.maximumRetryAttempts
          && limits.minimumRetryDelay <= retry.initialDelay <= retry.maxDelay)
    && (blocking ==> trigger.timeout == None)
  }

  ghost predicate Safe(e: JobEntry, limits: Limits) {
    Within(limits, e.trigger, e.maxPending, e.coalescing, e.capacity, e.retry, e.task.blocking)
  }

  ghost predicate SafeTable(s: Scheduler) {
    forall id :: id in s.jobs ==> Safe(s.jobs[id], s.limits)
  }

  /** The two validators together accept exactly what is within the limits; an option left open counts as the
      default of the trigger. */
  lemma ValidatorsExact(limits: Limits, trigger: Trigger, options: JobOptions, task: TaskBinding)
    ensures var lossless := trigger.schedule.Once? || trigger.misfire.CatchUp?;
            TriggerError(trigger, options, limits).None? && CancellationError(trigger, task).None?
            <==> Within(limits, trigger, options.maxPending,
                        if options.coalescing.Some? then options.coalescing.value
                        else if lossless then KeepAll else KeepLatest,
                        if options.capacity.Some? then options.capacity.value
                        else if lossless then Backpressure else ReplaceOldestTrigger,
                        options.retry, task.blocking)
  {
  }

  lemma UpdateIsSafe(s: Scheduler, id: JobId, expected: nat, patch: JobPatch)
    ensures var r := UpdateJob(s, id, expected, patch);
            r.Ok? ==> r.value.limits == s.limits && (SafeTable(s) ==> SafeTable(r.value))
                      && id in r.value.jobs && Safe(r.value.jobs[id], s.limits)
  {
    if UpdateJob(s, id, expected, patch).Ok? {
      var e := PatchedEntry(s.jobs[id], patch);
      ValidatorsExact(s.limits, e.trigger, OptionsOf(e), e.task);
    }
  }

  lemma AddIsSafe(s: Scheduler, id: JobId, enabled: bool, trigger: Trigger, task: TaskBinding, options: JobOptions)
    ensures var r := AddJob(s, id, 1, enabled, trigger, task, options);
            r.Ok? ==> r.value.limits == s.limits && (SafeTable(s) ==> SafeTable(r.value))
                      && id in r.value.jobs && Safe(r.value.jobs[id], s.limits) && |r.value.jobs| <= s.limits.maxJobs
  {
    ValidatorsExact(s.limits, trigger, options, task);
  }

  lemma MoveIsSafe(s: Scheduler, id: JobId, expected: nat)
    requires SafeTable(s)
    ensures var r := EnableJob(s, id, expected); r.Ok? ==> SafeTable(r.value)
    ensures var r := DisableJob(s, id, expected); r.Ok? ==> SafeTable(r.value)
    ensures var r := DeleteJob(s, id, expected); r.Ok? ==> SafeTable(r.value)
  {
  }

  // ----- batches -----

  lemma CommitUpdateIsSafe(s: Scheduler, u: Update)
    requires SafeTable(s)
    ensures SafeTable(CommitUpdate(s, u).scheduler)
  {
    UpdateIsSafe(s, u.id, u.expected, u.patch);
    var updated := UpdateJob(s, u.id, u.expected, u.patch);
    if updated.Ok? { MoveIsSafe(updated.value, u.id, PatchedEntry(s.jobs[u.id], u.patch).version); }
  }

  lemma {:induction false} UpdatesAreSafe(s: Scheduler, updates: seq<Update>)
    requires SafeTable(s)
    ensures SafeTable(CommitUpdates(s, updates).scheduler)
    decreases |updates|
  {
    if updates != [] {
      CommitUpdateIsSafe(s, updates[0]);
      UpdatesAreSafe(CommitUpdate(s, updates[0]).scheduler, updates[1..]);
    }
  }

  lemma {:induction false} DeletionsAreSafe(s: Scheduler, deletions: seq<Deletion>)
    requires SafeTable(s)
    ensures SafeTable(CommitDeletions(s, deletions).scheduler)
    decreases |deletions|
  {
    if deletions != [] {
      var deleted := DeleteJob(s, deletions[0].id, deletions[0].expected);
      if deleted.Ok? { DeletionsAreSafe(deleted.value, deletions[1..]); }
    }
  }

  lemma {:induction false} AdditionsAreSafe(s: Scheduler, additions: seq<Addition>)
    requires SafeTable(s)
    ensures SafeTable(CommitAdditions(s, additions).scheduler)
    decreases |additions|
  {
    if additions != [] {
      var a := additions[0];
      AddIsSafe(s, a.id, a.enabled, a.trigger, a.task, a.options);
      var added := AddJob(s, a.id, 1, a.enabled, a.trigger, a.task, a.options);
      if added.Ok? { AdditionsAreSafe(added.value, additions[1..]); }
    }
  }

  lemma ReconcileIsSafe(s: Scheduler, plan: ReconcilePlan)
    requires SafeTable(s)
    ensures SafeTable(Reconcile(s, plan).scheduler)
  {
    UpdatesAreSafe(s, plan.updates);
    var updated := CommitUpdates(s, plan.updates).scheduler;
    DeletionsAreSafe(updated, plan.deletions);
    AdditionsAreSafe(CommitDeletions(updated, plan.deletions).scheduler, plan.additions);
  }

  // ----- the controller -----

  lemma UpsertIsSafe(c: Controller, d: JobDefinition)
    requires SafeTable(c.scheduler) && d.trigger.Some? && KindOf(d).Some?
    ensures SafeTable(UpsertCompiled(c, d).controller.scheduler)
  {
    var id := d.jobId;
    if id in c.owned {
      UpdateIsSafe(c.scheduler, id, c.owned[id].generation, FullPatch(d));
      var updated := UpdateJob(c.scheduler, id, c.owned[id].generation, FullPatch(d));
      if updated.Ok? { MoveIsSafe(updated.value, id, updated.value.jobs[id].version); }
    } else {
      AddIsSafe(c.scheduler, id, d.enabled, d.trigger.value, BindingOf(d), d.options);
    }
  }

  lemma SnapshotIsSafe(c: Controller, revision: nat, jobs: seq<JobDefinition>, env: Surroundings)
    requires SafeTable(c.scheduler)
    ensures SafeTable(ApplyReplaceAll(c, revision, jobs, env).controller.scheduler)
  {
    if FirstInvalid(jobs, {}, c.policy, env.builds).None? {
      ValidJobs(jobs, {}, c.policy, env.builds);
      var r := Reconcile(c.scheduler, PlanFor(c, jobs, env.order));
      assert SafeTable(r.scheduler) by { ReconcileIsSafe(c.scheduler, PlanFor(c, jobs, env.order)); }
      assert ApplyReplaceAll(c, revision, jobs, env).controller.scheduler in {c.scheduler, r.scheduler};
    }
  }

  lemma ExecuteIsSafe(c: Controller, action: Option<Action>, env: Surroundings)
    requires SafeTable(c.scheduler)
    ensures SafeTable(Execute(c, action, env).controller.scheduler)
  {
    match action {
      case None =>
      case Some(Upsert(revision, job)) =>
        if job.Some? && Compiles(job.value, env.builds) { UpsertIsSafe(c, job.value); }
      case Some(Delete(_, _, _)) =>
      case Some(RunJobNow(jobId, _)) =>
        if jobId in c.owned { UpdateIsSafe(c.scheduler, jobId, c.owned[jobId].generation, RUN_NOW_PATCH); }
      case Some(ReplaceAll(revision, jobs)) =>
        SnapshotIsSafe(c, revision, jobs, env);
    }
  }

  lemma {:induction false} DisableEachIsSafe(c: Controller, ids: seq<JobId>)
    requires SafeTable(c.scheduler)
    ensures SafeTable(DisableEach(c, ids).controller.scheduler)
    decreases |ids|
  {
    if ids != [] {
      if ids[0] !in c.owned {
        DisableEachIsSafe(c, ids[1..]);
      } else {
        MoveIsSafe(c.scheduler, ids[0], c.owned[ids[0]].generation);
        var disabled := DisableJob(c.scheduler, ids[0], c.owned[ids[0]].generation);
        if disabled.Ok? {
          var moved := c.owned[ids[0]].(generation := VersionOf(disabled.value, ids[0]));
          DisableEachIsSafe(c.(scheduler := disabled.value, owned := c.owned[ids[0] := moved]), ids[1..]);
        }
      }
    }
  }

  lemma {:induction false} DeleteEachIsSafe(c: Controller, order: seq<JobId>)
    requires SafeTable(c.scheduler)
    ensures SafeTable(DeleteEach(c, order).controller.scheduler)
    decreases |order|
  {
    if order != [] {
      if order[0] !in c.owned {
        DeleteEachIsSafe(c, order[1..]);
      } else {
        var deleted := DeleteJob(c.scheduler, order[0], c.owned[order[0]].generation);
        if deleted.Ok? {
          DeleteEachIsSafe(c.(scheduler := deleted.value, owned := c.owned - {order[0]}), order[1..]);
        }
      }
    }
  }

  lemma StepIsSafe(c: Controller, e: Event)
    requires SafeTable(c.scheduler) && (e.World? ==> SafeTable(e.scheduler))
    ensures SafeTable(Step(c, e).scheduler)
  {
    match e {
      case Receive(command, env) => ExecuteIsSafe(c, command.action, env);
      case ChangePolicy(change, saved, order) =>
        var applied := ApplyChange(c.policy, change, saved);
        if applied.Ok? {
          var changed := c.(policy := applied.value);
          DisableEachIsSafe(changed, DeniedIds(changed, order));
        }
      case Pause(key, order) => DisableEachIsSafe(c, PluginIds(c, key, order));
      case Resume(_) =>
      case Clear(order) => DeleteEachIsSafe(c, order);
      case World(_) =>
    }
  }

  /** In every state of every run, refused and torn commands included, every Job of the Scheduler is within the
      limits, as long as what happens outside the controller keeps to them. */
  lemma {:induction false} SafeInEveryState(c: Controller, events: seq<Event>)
    requires SafeTable(c.scheduler)
    requires forall i :: 0 <= i < |events| && events[i].World? ==> SafeTable(events[i].scheduler)
    ensures SafeTable(Run(c, events).scheduler)
    decreases |events|
  {
    if events != [] {
      var n := |events| - 1;
      SafeInEveryState(c, events[..n]);
      StepIsSafe(Run(c, events[..n]), events[n]);
    }
  }
}
