/** The controller as the object it is: fields updated in place by methods with loops. Every method is
    tied to the function that specifies it. */
module ControllerObject {
  import opened Basics
  import opened Scheduling
  import opened Definitions
  import opened JobPolicy
  import opened RemoteJobs

  /** The head of the list of refused Jobs, if the Job walked next is one. */
  lemma DeniedNext(c: Controller, order: seq<JobId>, i: nat)
    requires i < |order|
    ensures var rest := DeniedIds(c, order[i + 1..]);
            DeniedIds(c, order[i..])
            == if order[i] in c.owned && DeniesKind(c.policy, c.owned[order[i]].taskKind) then [order[i]] + rest
                else rest
    ensures ([order[i]] + DeniedIds(c, order[i + 1..]))[1..] == DeniedIds(c, order[i + 1..])
  {
    assert order[i..][1..] == order[i + 1..];
  }

  class RemoteJobController {
    var catalogRevision: nat
    var remoteJobs: map<JobId, ManagedJob>
    var cachedResults: map<Bytes, CommandResult>
    var cacheOrder: seq<Bytes>
    var pausedPlugins: set<PluginKey>
    var policy: RemoteJobPolicy
    var scheduler: Scheduler

    ghost function State(): Controller
      reads this
    {
      Controller(catalogRevision, remoteJobs, cachedResults, cacheOrder, pausedPlugins, policy, scheduler)
    }

    constructor (policy: RemoteJobPolicy, scheduler: Scheduler)
      ensures State() == InitialController(policy, scheduler)
    {
      catalogRevision, remoteJobs, cachedResults, cacheOrder, pausedPlugins := 0, map[], map[], [], {};
      this.policy, this.scheduler := policy, scheduler;
    }

    method ApplyCommand(command: Command, env: Surroundings) returns (result: CommandResult)
      modifies this
      ensures Answer(State(), result) == RemoteJobs.ApplyCommand(old(State()), command, env)
    {
      if ParseUuid(command.commandId).None? {
        return CommandResult(command.commandId, Rejected(InvalidCommand), 0);
      }
      if command.commandId in cachedResults {
        return cachedResults[command.commandId];
      }
      var verdict;
      match command.action {
        case None => verdict := Rejected(InvalidCommand);
        case Some(Upsert(revision, job)) => verdict := Upsert(revision, job, env.builds);
        case Some(Delete(revision, jobId, expected)) => verdict := Delete(revision, jobId, expected);
        case Some(RunJobNow(jobId, expected)) => verdict := RunJobNow(jobId, expected);
        case Some(ReplaceAll(revision, jobs)) => verdict := ReplaceAll(revision, jobs, env);
      }
      result := CommandResult(command.commandId, verdict, catalogRevision);
      if ShouldCache(verdict) {
        CacheResult(command.commandId, result);
      }
    }

    method CacheResult(id: Bytes, result: CommandResult)
      modifies this
      ensures State() == Remember(old(State()), id, result)
    {
      cachedResults := cachedResults[id := result];
      cacheOrder := cacheOrder + [id];
      ghost var order, all := cacheOrder, cachedResults;
      ghost var dropped := 0;
      assert Elements(order[..0]) == {};
      while |cacheOrder| > CACHE_CAPACITY
        modifies this`cacheOrder, this`cachedResults
        invariant 0 <= dropped <= SaturatingSub(|order|, CACHE_CAPACITY)
        invariant cacheOrder == order[dropped..]
        invariant cachedResults == all - Elements(order[..dropped])
      {
        assert order[..dropped + 1] == order[..dropped] + [cacheOrder[0]];
        assert Elements(order[..dropped + 1]) == Elements(order[..dropped]) + {cacheOrder[0]};
        cachedResults := cachedResults - {cacheOrder[0]};
        cacheOrder := cacheOrder[1..];
        dropped := dropped + 1;
      }
    }

    method Upsert(revision: nat, job: Option<JobDefinition>, builds: JobDefinition -> bool) returns (verdict: Verdict)
      modifies this
      ensures Outcome(State(), verdict) == ApplyUpsert(old(State()), revision, job, builds)
    {
      if revision != catalogRevision + 1 { return ResyncRequired; }
      if job.None? { return Rejected(InvalidJob); }
      if DeniesDefinition(policy, job.value) { return Rejected(LocalPolicyDenied); }
      if !Compiles(job.value, builds) { return Rejected(InvalidJob); }
      verdict := UpsertDefinition(job.value);
      if verdict.Applied? {
        catalogRevision := revision;
      }
    }

    method UpsertDefinition(d: JobDefinition) returns (verdict: Verdict)
      requires d.trigger.Some? && KindOf(d).Some?
      modifies this
      ensures Outcome(State(), verdict) == UpsertCompiled(old(State()), d)
    {
      var id := d.jobId;
      if id in remoteJobs {
        var current := remoteJobs[id];
        if d.revision <= current.revision { return Rejected(RevisionConflict); }
        var updated := UpdateJob(scheduler, id, current.generation, FullPatch(d));
        if updated.Err? { return Rejected(SchedulerCode(updated.error)); }
        scheduler := updated.value;
        var moved := SetEnabled(scheduler, id, d.enabled);
        if moved.Err? { return Rejected(SchedulerCode(moved.error)); }
        scheduler := moved.value;
      } else {
        var added := AddJob(scheduler, id, 1, d.enabled, d.trigger.value, BindingOf(d), d.options);
        if added.Err? { return Rejected(SchedulerCode(added.error)); }
        scheduler := added.value;
      }
      remoteJobs := remoteJobs[id := Manage(d, VersionOf(scheduler, id))];
      return Applied;
    }

    method Delete(revision: nat, jobId: Bytes, expectedRevision: nat) returns (verdict: Verdict)
      modifies this
      ensures Outcome(State(), verdict) == ApplyDelete(old(State()), revision, jobId, expectedRevision)
    {
      if revision != catalogRevision + 1 { return ResyncRequired; }
      if ParseUuid(jobId).None? { return Rejected(InvalidCommand); }
      if jobId !in remoteJobs { return Rejected(NotFound); }
      if expectedRevision != remoteJobs[jobId].revision { return Rejected(RevisionConflict); }
      var deleted := DeleteJob(scheduler, jobId, remoteJobs[jobId].generation);
      if deleted.Err? { return Rejected(SchedulerCode(deleted.error)); }
      scheduler := deleted.value;
      remoteJobs := remoteJobs - {jobId};
      catalogRevision := revision;
      return Applied;
    }

    method RunJobNow(jobId: Bytes, expectedRevision: nat) returns (verdict: Verdict)
      modifies this
      ensures Outcome(State(), verdict) == ApplyRunNow(old(State()), jobId, expectedRevision)
    {
      if ParseUuid(jobId).None? { return Rejected(InvalidCommand); }
      if jobId !in remoteJobs { return Rejected(NotFound); }
      var current := remoteJobs[jobId];
      if expectedRevision != current.revision { return Rejected(RevisionConflict); }
      if DeniesKind(policy, current.taskKind) { return Rejected(LocalPolicyDenied); }
      var updated := UpdateJob(scheduler, jobId, current.generation, RUN_NOW_PATCH);
      if updated.Err? { return Rejected(SchedulerCode(updated.error)); }
      scheduler := updated.value;
      remoteJobs := remoteJobs[jobId := current.(generation := VersionOf(scheduler, jobId))];
      return Applied;
    }

    // ----- the authoritative snapshot, phase by phase -----

    method ReplaceAll(revision: nat, jobs: seq<JobDefinition>, env: Surroundings) returns (verdict: Verdict)
      modifies this
      ensures Outcome(State(), verdict) == ApplyReplaceAll(old(State()), revision, jobs, env)
    {
      if revision == 0 || revision < catalogRevision { return Rejected(RevisionConflict); }
      var invalid := CheckDefinitions(jobs, env.builds);
      if invalid.Some? { return Rejected(invalid.value); }
      ValidJobs(jobs, {}, policy, env.builds);
      var mismatch := CheckGenerations(env.order);
      if mismatch.Some? { return Rejected(mismatch.value); }
      var clash := ClashesWithLocal(jobs);
      if clash { return Rejected(OwnershipConflict); }
      if SaturatingSub(|scheduler.jobs|, |remoteJobs|) + |Elements(Ids(jobs))| > scheduler.limits.maxJobs {
        return Rejected(CapacityExceeded);
      }
      var plan := BuildPlan(jobs, env.order);
      if plan.None? { return Rejected(RevisionConflict); }
      var reconciled := Reconcile(scheduler, plan.value);
      if reconciled.error.Some? {
        scheduler := reconciled.scheduler;
        return Rejected(SchedulerCode(reconciled.error.value));
      }
      var index := BuildIndex(jobs, reconciled.scheduler);
      scheduler := reconciled.scheduler;
      remoteJobs := index;
      catalogRevision := revision;
      return Applied;
    }

    method CheckDefinitions(jobs: seq<JobDefinition>, builds: JobDefinition -> bool) returns (error: Option<ErrorCode>)
      ensures error == FirstInvalid(jobs, {}, policy, builds)
    {
      var seen: set<JobId> := {};
      var i := 0;
      assert jobs[0..] == jobs;
      while i < |jobs|
        invariant 0 <= i <= |jobs|
        invariant FirstInvalid(jobs, {}, policy, builds) == FirstInvalid(jobs[i..], seen, policy, builds)
      {
        var d := jobs[i];
        assert jobs[i..][1..] == jobs[i + 1..];
        if ParseUuid(d.jobId).None? || d.jobId in seen { return Some(InvalidJob); }
        seen := seen + {d.jobId};
        if DeniesDefinition(policy, d) { return Some(LocalPolicyDenied); }
        if !Compiles(d, builds) { return Some(InvalidJob); }
        i := i + 1;
      }
      return None;
    }

    method CheckGenerations(order: seq<JobId>) returns (error: Option<ErrorCode>)
      ensures error == FirstMismatch(State(), order)
    {
      var i := 0;
      assert order[0..] == order;
      while i < |order|
        invariant 0 <= i <= |order|
        invariant FirstMismatch(State(), order) == FirstMismatch(State(), order[i..])
      {
        var id := order[i];
        assert order[i..][1..] == order[i + 1..];
        if id in remoteJobs {
          if id !in scheduler.jobs { return Some(SchedulerUnavailable); }
          if scheduler.jobs[id].version != remoteJobs[id].generation { return Some(RevisionConflict); }
        }
        i := i + 1;
      }
      return None;
    }

    method ClashesWithLocal(jobs: seq<JobDefinition>) returns (clash: bool)
      ensures clash == OwnershipClash(State(), jobs)
    {
      for i := 0 to |jobs|
        invariant forall j :: 0 <= j < i ==> jobs[j].jobId in remoteJobs || jobs[j].jobId !in scheduler.jobs
      {
        if jobs[i].jobId !in remoteJobs && jobs[i].jobId in scheduler.jobs { return true; }
      }
      return false;
    }

    method BuildPlan(jobs: seq<JobDefinition>, order: seq<JobId>) returns (plan: Option<ReconcilePlan>)
      requires Built(jobs)
      ensures plan == if RevisionClash(State(), jobs) then None else Some(PlanFor(State(), jobs, order))
    {
      var clash := ClashesWithRevisions(jobs);
      if clash { return None; }
      var updates, additions := [], [];
      var i := 0;
      assert jobs[0..] == jobs;
      while i < |jobs|
        invariant 0 <= i <= |jobs| && Built(jobs[i..])
        invariant updates + PlanUpdates(remoteJobs, jobs[i..]) == PlanUpdates(remoteJobs, jobs)
        invariant additions + PlanAdditions(remoteJobs, jobs[i..]) == PlanAdditions(remoteJobs, jobs)
      {
        var d := jobs[i];
        assert jobs[i..][1..] == jobs[i + 1..] && jobs[i..][0] == d;
        if d.jobId !in remoteJobs {
          additions := additions + [AdditionFor(d)];
        } else if d != remoteJobs[d.jobId].definition {
          updates := updates + [UpdateFor(remoteJobs, d)];
        }
        i := i + 1;
      }
      assert jobs[i..] == [];
      assert updates == PlanUpdates(remoteJobs, jobs) && additions == PlanAdditions(remoteJobs, jobs);
      var deletions := BuildDeletions(Elements(Ids(jobs)), order);
      return Some(ReconcilePlan(updates, additions, deletions));
    }

    method ClashesWithRevisions(jobs: seq<JobDefinition>) returns (clash: bool)
      ensures clash == RevisionClash(State(), jobs)
    {
      for i := 0 to |jobs|
        invariant forall j :: 0 <= j < i && jobs[j].jobId in remoteJobs ==>
                    && remoteJobs[jobs[j].jobId].revision <= jobs[j].revision
                    && (jobs[j].revision == remoteJobs[jobs[j].jobId].revision ==>
                        jobs[j] == remoteJobs[jobs[j].jobId].definition)
      {
        if jobs[i].jobId in remoteJobs {
          var current := remoteJobs[jobs[i].jobId];
          if jobs[i].revision < current.revision { return true; }
          if jobs[i].revision == current.revision && jobs[i] != current.definition { return true; }
        }
      }
      return false;
    }

    method BuildDeletions(keep: set<JobId>, order: seq<JobId>) returns (deletions: seq<Deletion>)
      ensures deletions == PlanDeletions(remoteJobs, keep, order)
    {
      deletions := [];
      var i := 0;
      assert order[0..] == order;
      while i < |order|
        invariant 0 <= i <= |order|
        invariant deletions + PlanDeletions(remoteJobs, keep, order[i..]) == PlanDeletions(remoteJobs, keep, order)
      {
        assert order[i..][1..] == order[i + 1..];
        if order[i] in remoteJobs && order[i] !in keep {
          deletions := deletions + [Deletion(order[i], remoteJobs[order[i]].generation)];
        }
        i := i + 1;
      }
    }

    method BuildIndex(jobs: seq<JobDefinition>, after: Scheduler) returns (index: map<JobId, ManagedJob>)
      requires Built(jobs)
      ensures index == IndexAfter(State(), jobs, after)
    {
      index := map[];
      var i := 0;
      while i < |jobs|
        invariant 0 <= i <= |jobs|
        invariant Built(jobs[..i]) && index == IndexAfter(State(), jobs[..i], after)
      {
        var d := jobs[i];
        assert jobs[..i + 1][..i] == jobs[..i];
        var generation := VersionOf(after, d.jobId);
        if d.jobId in remoteJobs && remoteJobs[d.jobId].definition == d {
          generation := remoteJobs[d.jobId].generation;
        }
        index := index[d.jobId := Manage(d, generation)];
        i := i + 1;
      }
      assert jobs[..|jobs|] == jobs;
    }

    // ----- policy, plugins, clearing -----

    method UpdatePolicy(change: PolicyChange, saved: bool, order: seq<JobId>) returns (ok: bool)
      modifies this
      ensures Effect(State(), ok) == RemoteJobs.UpdatePolicy(old(State()), change, saved, order)
    {
      var applied := ApplyChange(policy, change, saved);
      if applied.Err? { return false; }
      if applied.value == policy { return true; }
      policy := applied.value;
      ok := DisableDenied(order);
    }

    /** Disables one owned Job and takes over its new version. `rest` are the Jobs still to come. */
    method DisableOwned(id: JobId, ghost rest: seq<JobId>) returns (ok: bool)
      requires id in remoteJobs
      modifies this`scheduler, this`remoteJobs
      ensures DisableEach(old(State()), [id] + rest) == if ok then DisableEach(State(), rest)
              else Effect(State(), false)
      ensures remoteJobs.Keys == old(remoteJobs).Keys
      ensures forall other :: other in remoteJobs ==> remoteJobs[other].taskKind == old(remoteJobs)[other].taskKind
    {
      assert ([id] + rest)[1..] == rest;
      var disabled := DisableJob(scheduler, id, remoteJobs[id].generation);
      if disabled.Err? { return false; }
      scheduler := disabled.value;
      remoteJobs := remoteJobs[id := remoteJobs[id].(generation := VersionOf(scheduler, id))];
      return true;
    }

    method DisableDenied(order: seq<JobId>) returns (ok: bool)
      modifies this`scheduler, this`remoteJobs
      ensures Effect(State(), ok) == DisableEach(old(State()), DeniedIds(old(State()), order))
    {
      var snapshot := Snapshot(policy);
      var i := 0;
      assert order[0..] == order;
      while i < |order|
        invariant 0 <= i <= |order|
        invariant remoteJobs.Keys == old(remoteJobs).Keys
        invariant forall id :: id in remoteJobs ==> remoteJobs[id].taskKind == old(remoteJobs)[id].taskKind
        invariant DisableEach(old(State()), DeniedIds(old(State()), order))
                  == DisableEach(State(), DeniedIds(old(State()), order[i..]))
      {
        var id := order[i];
        DeniedNext(old(State()), order, i);
        if id in remoteJobs {
          var denied := Denies(snapshot, remoteJobs[id].taskKind, policy);
          if denied {
            var disabled := DisableOwned(id, DeniedIds(old(State()), order[i + 1..]));
            if !disabled { return false; }
          }
        }
        i := i + 1;
      }
      return true;
    }

    method PausePlugin(key: PluginKey, order: seq<JobId>) returns (ok: bool)
      modifies this
      ensures Effect(State(), ok) == RemoteJobs.PausePlugin(old(State()), key, order)
    {
      if key in pausedPlugins { return true; }
      var matching := MatchingJobs(key, order);
      var i := 0;
      assert matching[0..] == matching;
      while i < |matching|
        modifies this`scheduler, this`remoteJobs
        invariant 0 <= i <= |matching|
        invariant DisableEach(old(State()), matching) == DisableEach(State(), matching[i..])
      {
        var id := matching[i];
        assert matching[i..][1..] == matching[i + 1..];
        if id in remoteJobs {
          assert matching[i..] == [id] + matching[i + 1..];
          var disabled := DisableOwned(id, matching[i + 1..]);
          if !disabled { return false; }
        }
        i := i + 1;
      }
      pausedPlugins := pausedPlugins + {key};
      return true;
    }

    method MatchingJobs(key: PluginKey, order: seq<JobId>) returns (matching: seq<JobId>)
      ensures matching == PluginIds(State(), key, order)
    {
      matching := [];
      var i := 0;
      assert order[0..] == order;
      while i < |order|
        invariant 0 <= i <= |order|
        invariant matching + PluginIds(State(), key, order[i..]) == PluginIds(State(), key, order)
      {
        assert order[i..][1..] == order[i + 1..];
        if order[i] in remoteJobs && remoteJobs[order[i]].plugin == Some(key) {
          matching := matching + [order[i]];
        }
        i := i + 1;
      }
    }

    method ResumePlugin(key: PluginKey)
      modifies this
      ensures State() == RemoteJobs.ResumePlugin(old(State()), key)
    {
      pausedPlugins := pausedPlugins - {key};
    }

    method ClearRemoteJobs(order: seq<JobId>) returns (ok: bool)
      modifies this
      ensures Effect(State(), ok) == RemoteJobs.ClearRemoteJobs(old(State()), order)
    {
      var i := 0;
      assert order[0..] == order;
      while i < |order|
        modifies this`scheduler, this`remoteJobs
        invariant 0 <= i <= |order|
        invariant DeleteEach(old(State()), order) == DeleteEach(State(), order[i..])
      {
        assert order[i..][1..] == order[i + 1..];
        if order[i] in remoteJobs {
          var deleted := DeleteJob(scheduler, order[i], remoteJobs[order[i]].generation);
          if deleted.Err? { return false; }
          scheduler := deleted.value;
          remoteJobs := remoteJobs - {order[i]};
        }
        i := i + 1;
      }
      catalogRevision := 0;
      return true;
    }
  }
}
