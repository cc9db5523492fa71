/** Which verdict a command gets, told from the fields of the command, the index and the Scheduler's table; and
    what follows for the revisions of owned Jobs over whole runs. */
module CommandVerdicts {
  import opened Basics
  import opened Scheduling
  import opened Definitions
  import opened JobPolicy
  import opened RemoteJobs
  import opened Configurations
  import opened SafetyLimits

  // ----- definitions -----

  /** The definition is complete: a UUID, a revision, a trigger and a Task that names all it needs. */
  ghost predicate Complete(d: JobDefinition) {
    && |d.jobId| == 16 && d.revision > 0 && d.trigger.Some? && d.task.Some?
    && match d.task.value {
         case Unset => false
         case Builtin(_, _, _) => true
         case Plugin(id, version, kind, _) => id != [] && version != [] && kind != []
       }
  }

  /** The policy refuses everything, or the kind of the definition's Task. */
  ghost predicate Refuses(policy: RemoteJobPolicy, d: JobDefinition) {
    || policy.denyAll
    || (d.task.Some? && match d.task.value {
          case Unset => false
          case Builtin(kind, _, _) => kind in policy.denied
          case Plugin(_, _, kind, _) => kind != [] && kind in policy.denied
        })
  }

  lemma CompilesExact(d: JobDefinition, builds: JobDefinition -> bool, policy: RemoteJobPolicy)
    ensures Compiles(d, builds) <==> Complete(d) && builds(d)
    ensures DeniesDefinition(policy, d) <==> Refuses(policy, d)
  {
  }

  // ----- upserts -----

  /** With this queue the Job is within the limits. */
  ghost predicate FitsWith(limits: Limits, d: JobDefinition, coalescing: TriggerCoalescing, capacity: CapacityPolicy)
    requires Complete(d)
  {
    Within(limits, d.trigger.value, d.options.maxPending, coalescing, capacity, d.options.retry,
           d.task.value.Builtin? && d.task.value.blocking)
  }

  /** As an update of `present`: what `d` leaves open about the queue stays. */
  ghost predicate FitsOver(limits: Limits, d: JobDefinition, present: JobEntry)
    requires Complete(d)
  {
    FitsWith(limits, d,
             if d.options.coalescing.Some? then d.options.coalescing.value else present.coalescing,
             if d.options.capacity.Some? then d.options.capacity.value else present.capacity)
  }

  /** As a new Job: what `d` leaves open about the queue follows from the trigger. */
  ghost predicate FitsAnew(limits: Limits, d: JobDefinition)
    requires Complete(d)
  {
    var lossless := d.trigger.value.schedule.Once? || d.trigger.value.misfire.CatchUp?;
    FitsWith(limits, d,
             if d.options.coalescing.Some? then d.options.coalescing.value
             else if lossless then KeepAll else KeepLatest,
             if d.options.capacity.Some? then d.options.capacity.value
             else if lossless then Backpressure else ReplaceOldestTrigger)
  }

  /** The schedule has a next occurrence. */
  ghost predicate Occurs(limits: Limits, d: JobDefinition)
    requires Complete(d)
  {
    d.trigger.value.schedule.Cron? ==> limits.cronFires(d.trigger.value.schedule)
  }

  /** The verdict on an upsert of an owned Job. */
  ghost predicate OwnedVerdict(c: Controller, d: JobDefinition, v: Verdict)
    requires d.jobId in c.owned && Complete(d)
  {
    var id, m, s := d.jobId, c.owned[d.jobId], c.scheduler;
    if d.revision <= m.revision then v == Rejected(RevisionConflict)
    else if id !in s.jobs then v == Rejected(NotFound)
    else if s.jobs[id].version != m.generation then v == Rejected(RevisionConflict)
    else
      var steps := if s.jobs[id].state == (if d.enabled then Enabled else Disabled) then 1 else 2;
      v == if FitsOver(s.limits, d, s.jobs[id]) && Occurs(s.limits, d) && m.generation + steps <= U64_MAX then Applied
           else Rejected(SchedulerUnavailable)
  }

  /** The verdict on an upsert of an id that is not owned. */
  ghost predicate NewVerdict(c: Controller, d: JobDefinition, v: Verdict)
    requires Complete(d)
  {
    var s := c.scheduler;
    v == if |s.jobs| >= s.limits.maxJobs then Rejected(CapacityExceeded)
         else if !FitsAnew(s.limits, d) then Rejected(SchedulerUnavailable)
         else if d.jobId in s.jobs then Rejected(OwnershipConflict)
         else if !Occurs(s.limits, d) then Rejected(SchedulerUnavailable)
         else Applied
  }

  /** A patch at the right version, with a version left, is refused exactly when it does not fit. */
  lemma PatchRefused(s: Scheduler, d: JobDefinition)
    requires Complete(d) && d.jobId in s.jobs && s.jobs[d.jobId].version < U64_MAX
    ensures KindOf(d).Some?
    ensures var error := UpdateError(s, d.jobId, s.jobs[d.jobId].version, FullPatch(d));
            && (error.None? <==> FitsOver(s.limits, d, s.jobs[d.jobId]) && Occurs(s.limits, d))
            && (error.Some? ==> SchedulerCode(error.value) == SchedulerUnavailable)
  {
    var e := PatchedEntry(s.jobs[d.jobId], FullPatch(d));
    PatchCarries(s.jobs[d.jobId], d);
    ValidatorsExact(s.limits, e.trigger, OptionsOf(e), e.task);
    TriggerErrorKinds(s.limits, e.trigger, OptionsOf(e));
  }

  lemma OwnedVerdictExact(c: Controller, d: JobDefinition)
    requires d.jobId in c.owned && Complete(d)
    ensures KindOf(d).Some? && OwnedVerdict(c, d, UpsertCompiled(c, d).verdict)
  {
    var id := d.jobId;
    if id in c.scheduler.jobs {
      if c.scheduler.jobs[id].version < U64_MAX {
        PatchRefused(c.scheduler, d);
      } else {
        var e := PatchedEntry(c.scheduler.jobs[id], FullPatch(d));
        TriggerErrorKinds(c.scheduler.limits, e.trigger, OptionsOf(e));
      }
    }
  }

  lemma TriggerErrorKinds(limits: Limits, trigger: Trigger, options: JobOptions)
    ensures var e := TriggerError(trigger, options, limits);
            e.Some? ==> SchedulerCode(e.value) == SchedulerUnavailable
  {
  }

  lemma NewVerdictExact(c: Controller, d: JobDefinition)
    requires d.jobId !in c.owned && Complete(d)
    ensures KindOf(d).Some? && NewVerdict(c, d, UpsertCompiled(c, d).verdict)
  {
    ValidatorsExact(c.scheduler.limits, d.trigger.value, d.options, BindingOf(d));
    TriggerErrorKinds(c.scheduler.limits, d.trigger.value, d.options);
  }

  /** The verdict on an upsert, for every state and every command. */
  lemma UpsertVerdict(c: Controller, revision: nat, job: Option<JobDefinition>, builds: JobDefinition -> bool)
    ensures var v := ApplyUpsert(c, revision, job, builds).verdict;
            if revision != c.catalogRevision + 1 then v == ResyncRequired
            else if job == None then v == Rejected(InvalidJob)
            else if Refuses(c.policy, job.value) then v == Rejected(LocalPolicyDenied)
            else if !Complete(job.value) || !builds(job.value) then v == Rejected(InvalidJob)
            else if job.value.jobId in c.owned then OwnedVerdict(c, job.value, v)
            else NewVerdict(c, job.value, v)
  {
    if job.Some? {
      var d := job.value;
      CompilesExact(d, builds, c.policy);
      if Complete(d) {
        if d.jobId in c.owned { OwnedVerdictExact(c, d); } else { NewVerdictExact(c, d); }
      }
    }
  }

  // ----- deletions and immediate runs -----

  /** The verdict on a deletion, and all that it does. */
  lemma DeleteVerdict(c: Controller, revision: nat, jobId: Bytes, expected: nat)
    ensures var o := ApplyDelete(c, revision, jobId, expected);
            if revision != c.catalogRevision + 1 then o == Outcome(c, ResyncRequired)
            else if |jobId| != 16 then o == Outcome(c, Rejected(InvalidCommand))
            else if jobId !in c.owned then o == Outcome(c, Rejected(NotFound))
            else if c.owned[jobId].revision != expected then o == Outcome(c, Rejected(RevisionConflict))
            else if jobId !in c.scheduler.jobs then o == Outcome(c, Rejected(NotFound))
            else if c.scheduler.jobs[jobId].version != c.owned[jobId].generation then
              o == Outcome(c, Rejected(RevisionConflict))
            else
              && o.verdict == Applied && o.controller.catalogRevision == revision
              && jobId !in o.controller.owned && jobId !in o.controller.scheduler.jobs
              && OnlyJob(c, jobId, o.controller)
  {
    var after := ApplyDelete(c, revision, jobId, expected).controller;
    assert after.owned - {jobId} == c.owned - {jobId} && after.scheduler.jobs - {jobId} == c.scheduler.jobs - {jobId};
  }

  /** The verdict on a request to run a Job at once, and all that it does: one version more, on both sides. */
  lemma RunNowVerdict(c: Controller, jobId: Bytes, expected: nat)
    ensures var o := ApplyRunNow(c, jobId, expected);
            if |jobId| != 16 then o == Outcome(c, Rejected(InvalidCommand))
            else if jobId !in c.owned then o == Outcome(c, Rejected(NotFound))
            else if c.owned[jobId].revision != expected then o == Outcome(c, Rejected(RevisionConflict))
            else if c.policy.denyAll || c.owned[jobId].taskKind in c.policy.denied then
              o == Outcome(c, Rejected(LocalPolicyDenied))
            else if jobId !in c.scheduler.jobs then o == Outcome(c, Rejected(NotFound))
            else if c.scheduler.jobs[jobId].version != c.owned[jobId].generation then
              o == Outcome(c, Rejected(RevisionConflict))
            else if !Safe(c.scheduler.jobs[jobId], c.scheduler.limits) || c.owned[jobId].generation >= U64_MAX then
              o == Outcome(c, Rejected(SchedulerUnavailable))
            else
              var next := c.owned[jobId].generation + 1;
              && o.verdict == Applied && o.controller.catalogRevision == c.catalogRevision
              && jobId in o.controller.owned && o.controller.owned[jobId] == c.owned[jobId].(generation := next)
              && jobId in o.controller.scheduler.jobs
              && o.controller.scheduler.jobs[jobId] == c.scheduler.jobs[jobId].(version := next)
              && OnlyJob(c, jobId, o.controller)
  {
    var after := ApplyRunNow(c, jobId, expected).controller;
    if jobId in c.scheduler.jobs {
      var e := c.scheduler.jobs[jobId];
      assert PatchedEntry(e, RUN_NOW_PATCH) == e.(version := e.version + 1);
      ValidatorsExact(c.scheduler.limits, e.trigger, OptionsOf(e.(version := e.version + 1)), e.task);
      TriggerErrorKinds(c.scheduler.limits, e.trigger, OptionsOf(e.(version := e.version + 1)));
    }
    assert after.owned - {jobId} == c.owned - {jobId} && after.scheduler.jobs - {jobId} == c.scheduler.jobs - {jobId};
  }
}
