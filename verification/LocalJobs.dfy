/** Jobs the controller does not own. No operation of the controller changes one, in agreement or not,
    whatever the Server sends. */
module LocalJobs {
  import opened Basics
  import opened Scheduling
  import opened Definitions
  import opened JobPolicy
  import opened RemoteJobs
  import opened Agreement
  import opened Runs

  /** `id` is in the table and not owned. */
  ghost predicate IsLocal(c: Controller, id: JobId) {
    id in c.scheduler.jobs && id !in c.owned
  }

  /** Still there, still not owned, and the same entry. */
  ghost predicate Untouched(c: Controller, id: JobId, after: Controller) {
    IsLocal(c, id) && IsLocal(after, id) && after.scheduler.jobs[id] == c.scheduler.jobs[id]
  }

  // ----- the Scheduler's batch -----

  ghost predicate KeepsEntry(s: Scheduler, id: JobId, after: Scheduler) {
    id in s.jobs && id in after.jobs && after.jobs[id] == s.jobs[id]
  }

  lemma {:induction false} UpdatesFrame(s: Scheduler, updates: seq<Update>, id: JobId)
    requires id in s.jobs && forall u :: u in updates ==> u.id != id
    ensures KeepsEntry(s, id, CommitUpdates(s, updates).scheduler)
    decreases |updates|
  {
    if updates != [] {
      assert updates[0] in updates;
      var first := CommitUpdate(s, updates[0]);
      assert KeepsEntry(s, id, first.scheduler);
      if first.error.None? {
        UpdatesFrame(first.scheduler, updates[1..], id);
      }
    }
  }

  lemma {:induction false} DeletionsFrame(s: Scheduler, deletions: seq<Deletion>, id: JobId)
    requires id in s.jobs && forall d :: d in deletions ==> d.id != id
    ensures KeepsEntry(s, id, CommitDeletions(s, deletions).scheduler)
    decreases |deletions|
  {
    if deletions != [] {
      assert deletions[0] in deletions;
      var deleted := DeleteJob(s, deletions[0].id, deletions[0].expected);
      if deleted.Ok? {
        DeletionsFrame(deleted.value, deletions[1..], id);
      }
    }
  }

  lemma {:induction false} AdditionsFrame(s: Scheduler, additions: seq<Addition>, id: JobId)
    requires id in s.jobs
    ensures KeepsEntry(s, id, CommitAdditions(s, additions).scheduler)
    decreases |additions|
  {
    if additions != [] {
      var a := additions[0];
      var added := AddJob(s, a.id, 1, a.enabled, a.trigger, a.task, a.options);
      if added.Ok? {
        AdditionsFrame(added.value, additions[1..], id);
      }
    }
  }

  lemma ReconcileFrame(s: Scheduler, plan: ReconcilePlan, id: JobId)
    requires id in s.jobs && (forall u :: u in plan.updates ==> u.id != id)
    requires (forall d :: d in plan.deletions ==> d.id != id)
    ensures KeepsEntry(s, id, Reconcile(s, plan).scheduler)
  {
    UpdatesFrame(s, plan.updates, id);
    var updated := CommitUpdates(s, plan.updates).scheduler;
    DeletionsFrame(updated, plan.deletions, id);
    AdditionsFrame(CommitDeletions(updated, plan.deletions).scheduler, plan.additions, id);
  }

  // ----- the controller's operations -----

  lemma PlanSparesLocal(c: Controller, jobs: seq<JobDefinition>, order: seq<JobId>, id: JobId)
    requires Built(jobs) && IsLocal(c, id)
    ensures KeepsEntry(c.scheduler, id, Reconcile(c.scheduler, PlanFor(c, jobs, order)).scheduler)
  {
    PlanUpdatesMembers(c.owned, jobs);
    PlanDeletionsMembers(c.owned, Elements(Ids(jobs)), order);
    var plan := PlanFor(c, jobs, order);
    forall u | u in plan.updates ensures u.id != id {
      var d :| d in jobs && Changes(c.owned, d) && u == UpdateFor(c.owned, d);
    }
    ReconcileFrame(c.scheduler, plan, id);
  }

  lemma IndexSparesLocal(c: Controller, jobs: seq<JobDefinition>, after: Scheduler, id: JobId)
    requires Built(jobs) && Distinct(Ids(jobs)) && !OwnershipClash(c, jobs) && IsLocal(c, id)
    ensures id !in IndexAfter(c, jobs, after)
  {
    IndexAfterFacts(c, jobs, after);
    assert forall i :: 0 <= i < |jobs| ==> Ids(jobs)[i] == jobs[i].jobId;
  }

  lemma ReplaceAllSparesLocal(c: Controller, revision: nat, jobs: seq<JobDefinition>, env: Surroundings, id: JobId)
    requires IsLocal(c, id)
    ensures Untouched(c, id, ApplyReplaceAll(c, revision, jobs, env).controller)
  {
    if FirstInvalid(jobs, {}, c.policy, env.builds).None? && !OwnershipClash(c, jobs) {
      ValidJobs(jobs, {}, c.policy, env.builds);
      PlanSparesLocal(c, jobs, env.order, id);
      IndexSparesLocal(c, jobs, Reconcile(c.scheduler, PlanFor(c, jobs, env.order)).scheduler, id);
    }
  }

  lemma UpsertSparesLocal(c: Controller, revision: nat, job: Option<JobDefinition>, builds: JobDefinition -> bool,
                          id: JobId)
    requires IsLocal(c, id)
    ensures Untouched(c, id, ApplyUpsert(c, revision, job, builds).controller)
  {
  }

  lemma ExecuteSparesLocal(c: Controller, action: Option<Action>, env: Surroundings, id: JobId)
    requires IsLocal(c, id)
    ensures Untouched(c, id, Execute(c, action, env).controller)
  {
    match action {
      case None =>
      case Some(Upsert(revision, job)) => UpsertSparesLocal(c, revision, job, env.builds, id);
      case Some(Delete(_, _, _)) =>
      case Some(RunJobNow(_, _)) =>
      case Some(ReplaceAll(revision, jobs)) => ReplaceAllSparesLocal(c, revision, jobs, env, id);
    }
  }

  lemma {:induction false} DisableEachSparesLocal(c: Controller, ids: seq<JobId>, id: JobId)
    requires IsLocal(c, id)
    ensures Untouched(c, id, DisableEach(c, ids).controller)
    decreases |ids|
  {
    if ids != [] {
      if ids[0] !in c.owned {
        DisableEachSparesLocal(c, ids[1..], id);
      } else {
        var disabled := DisableJob(c.scheduler, ids[0], c.owned[ids[0]].generation);
        if disabled.Ok? {
          var m := c.owned[ids[0]].(generation := VersionOf(disabled.value, ids[0]));
          DisableEachSparesLocal(c.(scheduler := disabled.value, owned := c.owned[ids[0] := m]), ids[1..], id);
        }
      }
    }
  }

  lemma {:induction false} DeleteEachSparesLocal(c: Controller, order: seq<JobId>, id: JobId)
    requires IsLocal(c, id)
    ensures Untouched(c, id, DeleteEach(c, order).controller)
    decreases |order|
  {
    if order != [] {
      if order[0] !in c.owned {
        DeleteEachSparesLocal(c, order[1..], id);
      } else {
        var deleted := DeleteJob(c.scheduler, order[0], c.owned[order[0]].generation);
        if deleted.Ok? {
          DeleteEachSparesLocal(c.(scheduler := deleted.value, owned := c.owned - {order[0]}), order[1..], id);
        }
      }
    }
  }

  lemma StepSparesLocal(c: Controller, e: Event, id: JobId)
    requires IsLocal(c, id) && !e.World?
    ensures Untouched(c, id, Step(c, e))
  {
    match e {
      case Receive(command, env) => ExecuteSparesLocal(c, command.action, env, id);
      case ChangePolicy(change, saved, order) =>
        var applied := ApplyChange(c.policy, change, saved);
        if applied.Ok? {
          var changed := c.(policy := applied.value);
          DisableEachSparesLocal(changed, DeniedIds(changed, order), id);
        }
      case Pause(key, order) => DisableEachSparesLocal(c, PluginIds(c, key, order), id);
      case Resume(_) =>
      case Clear(order) => DeleteEachSparesLocal(c, order, id);
    }
  }

  /** Over every run of controller operations, from any state and with nothing assumed, a Job that is not
      owned stays as it is and is never taken over. */
  lemma {:induction false} LocalJobsUntouched(c: Controller, events: seq<Event>, id: JobId)
    requires IsLocal(c, id) && forall e :: e in events ==> !e.World?
    ensures Untouched(c, id, Run(c, events))
    decreases |events|
  {
    if events != [] {
      var n := |events| - 1;
      LocalJobsUntouched(c, events[..n], id);
      assert events[n] in events;
      StepSparesLocal(Run(c, events[..n]), events[n], id);
    }
  }
}
