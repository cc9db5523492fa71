/** What happens when an owned Job gets out of step with the index. The Scheduler disables a failing Job and
    raises its version, or a torn snapshot has moved or dropped it; the controller never learns of it. */
module Drift {
  import opened Basics
  import opened Scheduling
  import opened Definitions
  import opened JobPolicy
  import opened RemoteJobs
  import opened Agreement
  import opened Maintenance
  import opened Enforcement
  import opened Snapshots
  import opened Runs

  /** The Scheduler holds `id` at a later version than the index remembers, or not at all. */
  ghost predicate Drifted(c: Controller, id: JobId) {
    id in c.owned && (id in c.scheduler.jobs ==> c.scheduler.jobs[id].version > c.owned[id].generation)
  }

  /** The table after the Scheduler disables a failing Job by itself. */
  function AutoDisabled(s: Scheduler, id: JobId): Scheduler
    requires id in s.jobs
  {
    s.(jobs := s.jobs[id := s.jobs[id].(version := s.jobs[id].version + 1, state := Disabled)])
  }

  /** By itself the Scheduler neither lowers the version of an owned Job nor creates one under its id. */
  ghost predicate Forward(c: Controller, s: Scheduler) {
    forall id :: id in c.owned && id in s.jobs ==>
      id in c.scheduler.jobs && s.jobs[id].version >= c.scheduler.jobs[id].version
  }

  ghost predicate Possible(c: Controller, e: Event) {
    match e
    case Receive(_, env) => Walks(env.order, c)
    case ChangePolicy(_, _, order) => Walks(order, c)
    case Pause(_, order) => Walks(order, c)
    case Resume(_) => true
    case Clear(order) => Walks(order, c)
    case World(scheduler) => Forward(c, scheduler)
  }

  ghost predicate PossibleRun(c: Controller, events: seq<Event>) {
    forall i :: 0 <= i < |events| ==> Possible(Run(c, events[..i]), events[i])
  }

  /** Index entry and Scheduler entry of `id` are as before. */
  ghost predicate Frozen(c: Controller, id: JobId, after: Controller) {
    && id in c.owned && id in after.owned && after.owned[id] == c.owned[id]
    && (id in c.scheduler.jobs <==> id in after.scheduler.jobs)
    && (id in c.scheduler.jobs ==> after.scheduler.jobs[id] == c.scheduler.jobs[id])
  }

  /** No snapshot is ever accepted again. */
  lemma SnapshotRefused(c: Controller, id: JobId, revision: nat, jobs: seq<JobDefinition>, env: Surroundings)
    requires Drifted(c, id) && Walks(env.order, c)
    ensures ApplyReplaceAll(c, revision, jobs, env).controller == c
    ensures !ApplyReplaceAll(c, revision, jobs, env).verdict.Applied?
  {
    NoMismatch(c, env.order);
    assert id in Elements(env.order) && !AgreesOn(c, id);
  }

  lemma UpsertFreezes(c: Controller, id: JobId, d: JobDefinition)
    requires Drifted(c, id) && d.trigger.Some? && KindOf(d).Some?
    ensures Frozen(c, id, UpsertCompiled(c, d).controller)
    ensures d.jobId == id ==> UpsertCompiled(c, d).controller == c && !UpsertCompiled(c, d).verdict.Applied?
  {
  }

  lemma ExecuteFreezes(c: Controller, id: JobId, action: Option<Action>, env: Surroundings)
    requires Drifted(c, id) && Walks(env.order, c)
    ensures Frozen(c, id, Execute(c, action, env).controller)
  {
    match action {
      case None =>
      case Some(Upsert(revision, job)) =>
        if job.Some? && Compiles(job.value, env.builds) { UpsertFreezes(c, id, job.value); }
      case Some(Delete(_, _, _)) =>
      case Some(RunJobNow(_, _)) =>
      case Some(ReplaceAll(revision, jobs)) => SnapshotRefused(c, id, revision, jobs, env);
    }
  }

  lemma {:induction false} DisableEachFreezes(c: Controller, id: JobId, ids: seq<JobId>)
    requires Drifted(c, id)
    ensures Frozen(c, id, DisableEach(c, ids).controller)
    decreases |ids|
  {
    if ids != [] {
      if ids[0] !in c.owned {
        DisableEachFreezes(c, id, ids[1..]);
      } else {
        var other := ids[0];
        var disabled := DisableJob(c.scheduler, other, c.owned[other].generation);
        if disabled.Ok? {
          assert other != id;
          var moved := c.owned[other].(generation := VersionOf(disabled.value, other));
          DisableEachFreezes(c.(scheduler := disabled.value, owned := c.owned[other := moved]), id, ids[1..]);
        }
      }
    }
  }

  lemma {:induction false} DeleteEachFreezes(c: Controller, id: JobId, order: seq<JobId>)
    requires Drifted(c, id)
    ensures Frozen(c, id, DeleteEach(c, order).controller)
    ensures id in order ==> !DeleteEach(c, order).ok
    decreases |order|
  {
    if order != [] {
      if order[0] !in c.owned {
        DeleteEachFreezes(c, id, order[1..]);
      } else {
        var deleted := DeleteJob(c.scheduler, order[0], c.owned[order[0]].generation);
        if deleted.Ok? {
          assert order[0] != id;
          DeleteEachFreezes(c.(scheduler := deleted.value, owned := c.owned - {order[0]}), id, order[1..]);
        }
      }
    }
  }

  /** A snapshot that is not a repeated command. */
  predicate NewSnapshot(c: Controller, e: Event) {
    && e.Receive? && e.command.action.Some? && e.command.action.value.ReplaceAll?
    && e.command.commandId !in c.cached
  }

  lemma StepStaysDrifted(c: Controller, id: JobId, e: Event)
    requires Drifted(c, id) && Possible(c, e)
    ensures Drifted(Step(c, e), id)
    ensures NewSnapshot(c, e) ==> !ApplyCommand(c, e.command, e.env).result.verdict.Applied?
    ensures e.Clear? ==> !ClearRemoteJobs(c, e.order).ok
  {
    match e {
      case Receive(command, env) =>
        ExecuteFreezes(c, id, command.action, env);
        if command.action.Some? && command.action.value.ReplaceAll? {
          SnapshotRefused(c, id, command.action.value.catalogRevision, command.action.value.jobs, env);
        }
      case ChangePolicy(change, saved, order) =>
        var applied := ApplyChange(c.policy, change, saved);
        if applied.Ok? {
          var changed := c.(policy := applied.value);
          DisableEachFreezes(changed, id, DeniedIds(changed, order));
        }
      case Pause(key, order) => DisableEachFreezes(c, id, PluginIds(c, key, order));
      case Resume(_) =>
      case Clear(order) =>
        assert id in Elements(order);
        DeleteEachFreezes(c, id, order);
      case World(_) =>
    }
  }

  /** Getting out of step is final. Once an owned Job has been moved or dropped behind the controller's back,
      then after any further events the Job is still out of step, no new snapshot is applied and no clear succeeds: only
      a restart of the Agent recovers. */
  lemma {:induction false} DriftIsForever(c: Controller, id: JobId, events: seq<Event>)
    requires Drifted(c, id) && PossibleRun(c, events)
    ensures Drifted(Run(c, events), id)
    ensures forall revision: nat, jobs: seq<JobDefinition>, env: Surroundings :: Walks(env.order, Run(c, events)) ==>
              !ApplyReplaceAll(Run(c, events), revision, jobs, env).verdict.Applied?
    ensures forall order :: Walks(order, Run(c, events)) ==> !ClearRemoteJobs(Run(c, events), order).ok
    decreases |events|
  {
    if events != [] {
      var n := |events| - 1;
      var before := events[..n];
      assert forall i :: 0 <= i < n ==> before[..i] == events[..i];
      DriftIsForever(c, id, before);
      assert Possible(Run(c, before), events[n]);
      StepStaysDrifted(Run(c, before), id, events[n]);
    }
    var now := Run(c, events);
    forall revision: nat, jobs: seq<JobDefinition>, env: Surroundings | Walks(env.order, now)
      ensures !ApplyReplaceAll(now, revision, jobs, env).verdict.Applied?
    {
      SnapshotRefused(now, id, revision, jobs, env);
    }
    forall order | Walks(order, now) ensures !ClearRemoteJobs(now, order).ok {
      assert id in Elements(order);
      DeleteEachFreezes(now, id, order);
    }
  }

  /** An automatic disable of an owned Job, from a state in which everything agreed, starts the drift. */
  lemma AutoDisableDrifts(c: Controller, id: JobId)
    requires Inv(c) && id in c.owned
    ensures id in c.scheduler.jobs && Drifted(Step(c, World(AutoDisabled(c.scheduler, id))), id)
  {
    assert AgreesOn(c, id);
  }

  /** A drifted Job shields the others, wherever it comes in the walk: a change that refuses it is saved,
      reported as failed, and leaves every refused Job walked after it as it was. */
  lemma DriftBreaksPolicy(c: Controller, change: PolicyChange, order: seq<JobId>, i: nat, j: nat)
    requires Walks(order, c) && i < j < |order| && Drifted(c, order[i]) && order[j] in c.owned
    requires c.policy.revision < U64_MAX && Changed(c.policy, change) != c.policy
    requires DeniesKind(Changed(c.policy, change), c.owned[order[i]].taskKind)
    requires DeniesKind(Changed(c.policy, change), c.owned[order[j]].taskKind)
    ensures var e := UpdatePolicy(c, change, true, order);
            && !e.ok && e.controller.policy != c.policy && Frozen(c, order[j], e.controller)
            && (order[j] in c.scheduler.jobs && c.scheduler.jobs[order[j]].state.Enabled? ==>
                !PolicyHolds(e.controller))
  {
    var policy := Changed(c.policy, change).(revision := c.policy.revision + 1);
    assert !CanDisable(c, order[i]);
    RefusedJobShields(c, policy, order, i, j);
    var changed := c.(policy := policy);
    assert UpdatePolicy(c, change, true, order) == DisableEach(changed, DeniedIds(changed, order));
  }
}
