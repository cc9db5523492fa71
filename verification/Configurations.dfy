/** The Scheduler runs what the Server asked for. Field by field: what an upsert and a snapshot write into the
    Scheduler's table, and that in every state of every run an owned Job that is at its recorded generation
    carries the configuration of its definition. */
module Configurations {
  import opened Basics
  import opened Scheduling
  import opened Reconciliation
  import opened Batches
  import opened Definitions
  import opened JobPolicy
  import opened RemoteJobs
  import opened Agreement
  import opened Runs

  /** The Task that runs is the one defined: its kind, its settings, the revision it reports, and whether it can
      be interrupted. A plugin Task always can. */
  ghost predicate RunsTask(e: JobEntry, d: JobDefinition) {
    && d.task.Some? && !d.task.value.Unset?
    && e.task.configuration == d.task.value.settings
    && e.task.revision == d.revision
    && match d.task.value {
         case Unset => false
         case Builtin(kind, blocking, _) => e.task.kind == kind && e.task.blocking == blocking
         case Plugin(_, _, kind, _) => e.task.kind == kind && !e.task.blocking
       }
  }

  /** The entry carries the configuration `d` asks for; a queue policy `d` leaves open may be any. */
  ghost predicate Carries(e: JobEntry, d: JobDefinition) {
    && RunsTask(e, d)
    && d.trigger == Some(e.trigger)
    && e.concurrency == d.options.concurrency
    && e.maxPending == d.options.maxPending
    && e.priority == d.options.priority
    && e.retry == d.options.retry
    && e.failure == d.options.failure
    && (d.options.coalescing.Some? ==> e.coalescing == d.options.coalescing.value)
    && (d.options.capacity.Some? ==> e.capacity == d.options.capacity.value)
  }

  /** A queue policy that `d` leaves open stays what it was. */
  ghost predicate KeepsQueue(before: JobEntry, after: JobEntry, d: JobDefinition) {
    && (d.options.coalescing.None? ==> after.coalescing == before.coalescing)
    && (d.options.capacity.None? ==> after.capacity == before.capacity)
  }

  /** For a new Job it follows from the trigger: a one-shot and a catch-up Job lose no run. */
  ghost predicate DefaultQueue(e: JobEntry, d: JobDefinition) {
    var lossless := e.trigger.schedule.Once? || e.trigger.misfire.CatchUp?;
    && (d.options.coalescing.None? ==> e.coalescing == if lossless then KeepAll else KeepLatest)
    && (d.options.capacity.None? ==> e.capacity == if lossless then Backpressure else ReplaceOldestTrigger)
  }

  /** What the index records about a Job with definition `d`. */
  ghost predicate Records(m: ManagedJob, d: JobDefinition, generation: nat) {
    && m.definition == d && m.revision == d.revision && m.generation == generation
    && d.task.Some? && !d.task.value.Unset?
    && match d.task.value {
         case Unset => false
         case Builtin(kind, _, _) => m.taskKind == kind && m.plugin == None
         case Plugin(id, version, kind, _) => m.taskKind == kind && m.plugin == Some((id, version))
       }
  }

  // ----- one upsert -----

  /** The Scheduler holds `d` as it was asked for: `d`'s own queue policies, else the old ones of an owned Job,
      else those of the trigger. */
  ghost predicate Installs(c: Controller, d: JobDefinition, after: Scheduler) {
    && d.jobId in after.jobs
    && Carries(after.jobs[d.jobId], d)
    && (d.jobId in c.owned ==>
          d.jobId in c.scheduler.jobs && KeepsQueue(c.scheduler.jobs[d.jobId], after.jobs[d.jobId], d))
    && (d.jobId !in c.owned ==> DefaultQueue(after.jobs[d.jobId], d) && after.jobs[d.jobId].version == 1)
  }

  lemma PatchCarries(e: JobEntry, d: JobDefinition)
    requires d.trigger.Some? && KindOf(d).Some?
    ensures Carries(PatchedEntry(e, FullPatch(d)), d) && KeepsQueue(e, PatchedEntry(e, FullPatch(d)), d)
  {
  }

  lemma FreshCarries(generation: nat, d: JobDefinition)
    requires d.trigger.Some? && KindOf(d).Some?
    ensures var e := FreshEntry(generation, d.enabled, d.trigger.value, BindingOf(d), d.options);
            Carries(e, d) && DefaultQueue(e, d)
  {
  }

  /** Lifecycle state and version are no part of the configuration. */
  lemma MovedCarries(e: JobEntry, d: JobDefinition, version: nat, state: JobState)
    ensures Carries(e.(version := version, state := state), d) == Carries(e, d)
  {
  }

  /** Everything else is as it was. */
  ghost predicate OnlyJob(c: Controller, id: JobId, after: Controller) {
    && after.owned - {id} == c.owned - {id} && after.scheduler.jobs - {id} == c.scheduler.jobs - {id}
    && after.scheduler.limits == c.scheduler.limits
    && after.policy == c.policy && after.paused == c.paused
  }

  /** `after` is `c` with `d` installed and recorded, and nothing else changed. */
  ghost predicate Upserted(c: Controller, d: JobDefinition, after: Controller) {
    && Installs(c, d, after.scheduler)
    && after.scheduler.jobs[d.jobId].state == (if d.enabled then Enabled else Disabled)
    && d.jobId in after.owned && Records(after.owned[d.jobId], d, after.scheduler.jobs[d.jobId].version)
    && OnlyJob(c, d.jobId, after)
  }

  lemma OwnedUpsert(c: Controller, d: JobDefinition)
    requires d.trigger.Some? && KindOf(d).Some? && d.jobId in c.owned && UpsertCompiled(c, d).verdict.Applied?
    ensures Upserted(c, d, UpsertCompiled(c, d).controller)
    ensures d.revision > c.owned[d.jobId].revision
  {
    var id := d.jobId;
    var patched := UpdateJob(c.scheduler, id, c.owned[id].generation, FullPatch(d)).value;
    var entry := SetEnabled(patched, id, d.enabled).value.jobs[id];
    assert Carries(entry, d) && KeepsQueue(c.scheduler.jobs[id], entry, d) by {
      PatchCarries(c.scheduler.jobs[id], d);
      MovedCarries(patched.jobs[id], d, entry.version, entry.state);
    }
    var after := UpsertCompiled(c, d).controller;
    assert after.owned - {id} == c.owned - {id};
    assert after.scheduler.jobs - {id} == c.scheduler.jobs - {id};
  }

  lemma NewUpsert(c: Controller, d: JobDefinition)
    requires d.trigger.Some? && KindOf(d).Some? && d.jobId !in c.owned && UpsertCompiled(c, d).verdict.Applied?
    ensures Upserted(c, d, UpsertCompiled(c, d).controller)
  {
    FreshCarries(1, d);
    var after := UpsertCompiled(c, d).controller;
    assert after.owned - {d.jobId} == c.owned - {d.jobId};
    assert after.scheduler.jobs - {d.jobId} == c.scheduler.jobs - {d.jobId};
  }

  /** An applied upsert puts exactly the definition it carries into the Scheduler and the index. */
  lemma UpsertInstalls(c: Controller, revision: nat, job: Option<JobDefinition>, builds: JobDefinition -> bool)
    ensures var o := ApplyUpsert(c, revision, job, builds);
            o.verdict.Applied? ==>
              && job.Some? && Upserted(c, job.value, o.controller)
              && (job.value.jobId in c.owned ==> job.value.revision > c.owned[job.value.jobId].revision)
              && revision == c.catalogRevision + 1 == o.controller.catalogRevision
  {
    if ApplyUpsert(c, revision, job, builds).verdict.Applied? {
      if job.value.jobId in c.owned { OwnedUpsert(c, job.value); } else { NewUpsert(c, job.value); }
    }
  }

  // ----- one snapshot -----

  /** Lifecycle state and version after a batch update: a Job that is to rest and is not running stays as it is,
      and each request the Scheduler carries out is one version. */
  ghost predicate Stepped(before: JobEntry, after: JobEntry, enabled: bool) {
    && after.state == (if enabled then Enabled else if before.state.Enabled? then Disabled else before.state)
    && after.version == before.version + (if after.state == before.state then 1 else 2)
  }

  /** What an applied snapshot leaves for one of its Jobs. An unchanged definition leaves the Job alone, whatever
      the Scheduler has made of it; any other is installed. */
  ghost predicate Placed(c: Controller, d: JobDefinition, after: Controller) {
    && d.jobId in after.owned
    && if d.jobId in c.owned && c.owned[d.jobId].definition == d then
         && Records(after.owned[d.jobId], d, c.owned[d.jobId].generation)
         && (d.jobId in c.scheduler.jobs ==>
               d.jobId in after.scheduler.jobs && after.scheduler.jobs[d.jobId] == c.scheduler.jobs[d.jobId])
       else
         && Installs(c, d, after.scheduler)
         && Records(after.owned[d.jobId], d, after.scheduler.jobs[d.jobId].version)
         && (d.jobId in c.owned ==> Stepped(c.scheduler.jobs[d.jobId], after.scheduler.jobs[d.jobId], d.enabled))
         && (d.jobId !in c.owned ==>
               after.scheduler.jobs[d.jobId].state == if d.enabled then Enabled else Disabled)
  }

  lemma UpdateCarries(owned: map<JobId, ManagedJob>, e: JobEntry, d: JobDefinition)
    requires d.jobId in owned && d.trigger.Some? && KindOf(d).Some?
    ensures var after := EntryAfter(e, UpdateFor(owned, d));
            Carries(after, d) && KeepsQueue(e, after, d) && Stepped(e, after, d.enabled)
  {
    PatchCarries(e, d);
    var after := EntryAfter(e, UpdateFor(owned, d));
    MovedCarries(PatchedEntry(e, FullPatch(d)), d, after.version, after.state);
  }

  lemma AdditionCarries(d: JobDefinition)
    requires d.trigger.Some? && KindOf(d).Some?
    ensures var e := Installed(AdditionFor(d));
            && Carries(e, d) && DefaultQueue(e, d)
            && e.version == 1 && e.state == if d.enabled then Enabled else Disabled
  {
    FreshCarries(1, d);
  }

  /** The plan neither updates nor deletes an unchanged Job. */
  lemma UnchangedIsUntouched(c: Controller, jobs: seq<JobDefinition>, order: seq<JobId>, d: JobDefinition)
    requires Built(jobs) && Distinct(Ids(jobs)) && d in jobs
    requires d.jobId in c.owned && c.owned[d.jobId].definition == d
    ensures var plan := PlanFor(c, jobs, order);
            d.jobId !in UpdateIds(plan.updates) && d.jobId !in DeletionIds(plan.deletions)
  {
    var plan := PlanFor(c, jobs, order);
    JobIdListed(jobs, d);
    PlanUpdatesMembers(c.owned, jobs);
    PlanDeletionsMembers(c.owned, Elements(Ids(jobs)), order);
    forall i | 0 <= i < |plan.updates| ensures UpdateIds(plan.updates)[i] != d.jobId {
      assert plan.updates[i] in plan.updates;
      var e :| e in jobs && Changes(c.owned, e) && plan.updates[i] == UpdateFor(c.owned, e);
      if e.jobId == d.jobId { SameJob(jobs, d, e); }
    }
    forall i | 0 <= i < |plan.deletions| ensures DeletionIds(plan.deletions)[i] != d.jobId {
      assert plan.deletions[i] in plan.deletions;
    }
  }

  /** What a batch that succeeds leaves for one Job of the snapshot. */
  lemma PlacedInTable(c: Controller, jobs: seq<JobDefinition>, order: seq<JobId>, after: Scheduler, d: JobDefinition)
    requires Built(jobs) && Distinct(Ids(jobs)) && d in jobs
    requires var plan := PlanFor(c, jobs, order); Committed(c.scheduler, plan, plan.additions, after)
    requires !(d.jobId in c.owned && c.owned[d.jobId].definition == d)
    ensures Installs(c, d, after)
    ensures d.jobId in c.owned ==> Stepped(c.scheduler.jobs[d.jobId], after.jobs[d.jobId], d.enabled)
    ensures d.jobId !in c.owned ==> after.jobs[d.jobId].state == if d.enabled then Enabled else Disabled
  {
    var plan := PlanFor(c, jobs, order);
    var i :| 0 <= i < |jobs| && jobs[i] == d;
    if d.jobId in c.owned {
      PlanUpdatesMembers(c.owned, jobs);
      assert Changes(c.owned, d);
      assert UpdateFor(c.owned, d) in plan.updates;
      UpdateCarries(c.owned, c.scheduler.jobs[d.jobId], d);
    } else {
      PlanAdditionsMembers(c.owned, jobs);
      assert AdditionFor(d) in plan.additions;
      AdditionCarries(d);
    }
  }

  lemma IndexRecords(c: Controller, jobs: seq<JobDefinition>, after: Scheduler, d: JobDefinition)
    requires Built(jobs) && Distinct(Ids(jobs)) && d in jobs
    ensures var index := IndexAfter(c, jobs, after);
            d.jobId in index && Records(index[d.jobId], d, GenerationAfter(c, d, after))
  {
    IndexAfterFacts(c, jobs, after);
    assert IndexedAs(IndexAfter(c, jobs, after), c, d, after);
  }

  /** A snapshot that is applied has passed its checks and the batch succeeded. */
  lemma AppliedSnapshot(c: Controller, revision: nat, jobs: seq<JobDefinition>, env: Surroundings)
    requires ApplyReplaceAll(c, revision, jobs, env).verdict.Applied?
    ensures Built(jobs) && Distinct(Ids(jobs))
    ensures var r := Reconcile(c.scheduler, PlanFor(c, jobs, env.order));
            && r.error.None?
            && ApplyReplaceAll(c, revision, jobs, env).controller
               == c.(scheduler := r.scheduler, owned := IndexAfter(c, jobs, r.scheduler), catalogRevision := revision)
  {
    ValidJobs(jobs, {}, c.policy, env.builds);
  }

  lemma PlacedJob(c: Controller, revision: nat, jobs: seq<JobDefinition>, env: Surroundings, d: JobDefinition)
    requires ApplyReplaceAll(c, revision, jobs, env).verdict.Applied? && d in jobs
    ensures Placed(c, d, ApplyReplaceAll(c, revision, jobs, env).controller)
  {
    AppliedSnapshot(c, revision, jobs, env);
    var plan := PlanFor(c, jobs, env.order);
    var after := Reconcile(c.scheduler, plan).scheduler;
    ReconcileDone(c.scheduler, plan);
    IndexRecords(c, jobs, after, d);
    if d.jobId in c.owned && c.owned[d.jobId].definition == d {
      UnchangedIsUntouched(c, jobs, env.order, d);
    } else {
      PlacedInTable(c, jobs, env.order, after, d);
    }
  }

  /** Jobs that are neither owned nor in the snapshot are as they were. */
  ghost predicate LeavesLocal(c: Controller, jobs: seq<JobDefinition>, after: Scheduler) {
    && (forall id :: id !in c.owned && id !in Ids(jobs) ==> (id in after.jobs <==> id in c.scheduler.jobs))
    && (forall id :: id !in c.owned && id !in Ids(jobs) && id in after.jobs ==>
          after.jobs[id] == c.scheduler.jobs[id])
  }

  lemma LocalLeft(c: Controller, jobs: seq<JobDefinition>, order: seq<JobId>)
    requires Built(jobs) && Reconcile(c.scheduler, PlanFor(c, jobs, order)).error.None?
    ensures LeavesLocal(c, jobs, Reconcile(c.scheduler, PlanFor(c, jobs, order)).scheduler)
  {
    var plan := PlanFor(c, jobs, order);
    ReconcileDone(c.scheduler, plan);
    forall id | id !in c.owned && id !in Ids(jobs)
      ensures id !in UpdateIds(plan.updates) && id !in DeletionIds(plan.deletions)
      ensures id !in Elements(DeletionIds(plan.deletions)) && id !in Elements(AdditionIds(plan.additions))
    {
      NotPlanned(c, jobs, order, id);
    }
  }

  lemma NotPlanned(c: Controller, jobs: seq<JobDefinition>, order: seq<JobId>, id: JobId)
    requires Built(jobs) && id !in c.owned && id !in Ids(jobs)
    ensures var plan := PlanFor(c, jobs, order);
            && id !in UpdateIds(plan.updates) && id !in DeletionIds(plan.deletions)
            && id !in AdditionIds(plan.additions)
  {
    var plan := PlanFor(c, jobs, order);
    PlanUpdatesMembers(c.owned, jobs);
    PlanAdditionsMembers(c.owned, jobs);
    PlanDeletionsMembers(c.owned, Elements(Ids(jobs)), order);
    forall i | 0 <= i < |plan.updates| ensures UpdateIds(plan.updates)[i] != id {
      assert plan.updates[i] in plan.updates;
    }
    forall i | 0 <= i < |plan.deletions| ensures DeletionIds(plan.deletions)[i] != id {
      assert plan.deletions[i] in plan.deletions;
    }
    forall i | 0 <= i < |plan.additions| ensures AdditionIds(plan.additions)[i] != id {
      assert plan.additions[i] in plan.additions;
      var d :| d in jobs && d.jobId !in c.owned && plan.additions[i] == AdditionFor(d);
      JobIdListed(jobs, d);
    }
  }

  /** An applied snapshot puts exactly the definitions it carries into the Scheduler and the index. */
  lemma SnapshotInstalls(c: Controller, revision: nat, jobs: seq<JobDefinition>, env: Surroundings)
    ensures var o := ApplyReplaceAll(c, revision, jobs, env);
            o.verdict.Applied? ==>
              && o.controller.catalogRevision == revision
              && o.controller.owned.Keys == Elements(Ids(jobs))
              && (forall d :: d in jobs ==> Placed(c, d, o.controller))
              && LeavesLocal(c, jobs, o.controller.scheduler)
              && o.controller.policy == c.policy && o.controller.paused == c.paused
  {
    var o := ApplyReplaceAll(c, revision, jobs, env);
    if o.verdict.Applied? {
      AppliedSnapshot(c, revision, jobs, env);
      IndexAfterFacts(c, jobs, o.controller.scheduler);
      forall d | d in jobs ensures Placed(c, d, o.controller) {
        PlacedJob(c, revision, jobs, env, d);
      }
      LocalLeft(c, jobs, env.order);
    }
  }

  // ----- every run -----

  /** An owned Job is never behind its recorded generation, and at that generation it carries its definition. */
  ghost predicate FaithfulOn(c: Controller, id: JobId) {
    id in c.owned && id in c.scheduler.jobs ==>
      && c.scheduler.jobs[id].version >= c.owned[id].generation
      && (c.scheduler.jobs[id].version == c.owned[id].generation ==>
            Carries(c.scheduler.jobs[id], c.owned[id].definition))
  }

  ghost predicate Faithful(c: Controller) {
    forall id :: id in c.owned ==> FaithfulOn(c, id)
  }

  /** On its own the Scheduler may change anything about an owned Job, but whatever it changes besides the
      lifecycle state it does under a higher version; and it creates no Job under an owned id. */
  ghost predicate Truthful(c: Controller, s: Scheduler) {
    forall id :: id in c.owned && id in s.jobs ==>
      && id in c.scheduler.jobs
      && (|| s.jobs[id].version > c.scheduler.jobs[id].version
          || s.jobs[id] == c.scheduler.jobs[id].(state := s.jobs[id].state))
  }

  lemma ConfiguredUpsertStays(c: Controller, d: JobDefinition, id: JobId)
    requires FaithfulOn(c, id) && d.trigger.Some? && KindOf(d).Some?
    ensures FaithfulOn(UpsertCompiled(c, d).controller, id)
  {
    var o := UpsertCompiled(c, d);
    if o.verdict.Applied? && d.jobId == id {
      if id in c.owned { OwnedUpsert(c, d); } else { NewUpsert(c, d); }
    }
  }

  /** An owned id that the snapshot does not install fresh stays faithful, whatever happens to the batch. */
  lemma TornStays(c: Controller, jobs: seq<JobDefinition>, order: seq<JobId>, id: JobId)
    requires FaithfulOn(c, id) && Built(jobs)
    ensures FaithfulOn(c.(scheduler := Reconcile(c.scheduler, PlanFor(c, jobs, order)).scheduler), id)
  {
    if id in c.owned {
      OwnedIsNotAdded(c, jobs, id);
      ReconcileAdvances(c.scheduler, PlanFor(c, jobs, order), id);
    }
  }

  lemma OwnedIsNotAdded(c: Controller, jobs: seq<JobDefinition>, id: JobId)
    requires Built(jobs) && id in c.owned
    ensures id !in AdditionIds(PlanAdditions(c.owned, jobs))
  {
    var additions := PlanAdditions(c.owned, jobs);
    PlanAdditionsMembers(c.owned, jobs);
    forall i | 0 <= i < |additions| ensures AdditionIds(additions)[i] != id {
      assert additions[i] in additions;
    }
  }

  lemma SnapshotStays(c: Controller, revision: nat, jobs: seq<JobDefinition>, env: Surroundings, id: JobId)
    requires FaithfulOn(c, id)
    ensures FaithfulOn(ApplyReplaceAll(c, revision, jobs, env).controller, id)
  {
    var o := ApplyReplaceAll(c, revision, jobs, env);
    if o.verdict.Applied? {
      AppliedStays(c, revision, jobs, env, id);
    } else if o.controller != c {
      ValidJobs(jobs, {}, c.policy, env.builds);
      TornStays(c, jobs, env.order, id);
    }
  }

  lemma AppliedStays(c: Controller, revision: nat, jobs: seq<JobDefinition>, env: Surroundings, id: JobId)
    requires FaithfulOn(c, id) && ApplyReplaceAll(c, revision, jobs, env).verdict.Applied?
    ensures FaithfulOn(ApplyReplaceAll(c, revision, jobs, env).controller, id)
  {
    var after := ApplyReplaceAll(c, revision, jobs, env).controller;
    if id in after.owned {
      SnapshotInstalls(c, revision, jobs, env);
      var d := ListedJob(jobs, id);
      assert Placed(c, d, after);
      if id in c.owned && c.owned[id].definition == d {
        AppliedSnapshot(c, revision, jobs, env);
        OwnedIsNotAdded(c, jobs, id);
        ReconcileAdvances(c.scheduler, PlanFor(c, jobs, env.order), id);
      }
    }
  }

  lemma ExecuteStays(c: Controller, action: Option<Action>, env: Surroundings, id: JobId)
    requires FaithfulOn(c, id)
    ensures FaithfulOn(Execute(c, action, env).controller, id)
  {
    match action {
      case None =>
      case Some(Upsert(revision, job)) =>
        if job.Some? && Compiles(job.value, env.builds) { ConfiguredUpsertStays(c, job.value, id); }
      case Some(Delete(_, _, _)) =>
      case Some(RunJobNow(_, _)) =>
      case Some(ReplaceAll(revision, jobs)) => SnapshotStays(c, revision, jobs, env, id);
    }
  }

  lemma {:induction false} DisableEachStays(c: Controller, ids: seq<JobId>, id: JobId)
    requires FaithfulOn(c, id)
    ensures FaithfulOn(DisableEach(c, ids).controller, id)
    decreases |ids|
  {
    if ids != [] {
      var other := ids[0];
      if other !in c.owned {
        DisableEachStays(c, ids[1..], id);
      } else {
        var disabled := DisableJob(c.scheduler, other, c.owned[other].generation);
        if disabled.Ok? {
          var moved := c.owned[other].(generation := VersionOf(disabled.value, other));
          DisableEachStays(c.(scheduler := disabled.value, owned := c.owned[other := moved]), ids[1..], id);
        }
      }
    }
  }

  lemma {:induction false} DeleteEachStays(c: Controller, order: seq<JobId>, id: JobId)
    requires FaithfulOn(c, id)
    ensures FaithfulOn(DeleteEach(c, order).controller, id)
    decreases |order|
  {
    if order != [] {
      if order[0] !in c.owned {
        DeleteEachStays(c, order[1..], id);
      } else {
        var deleted := DeleteJob(c.scheduler, order[0], c.owned[order[0]].generation);
        if deleted.Ok? {
          DeleteEachStays(c.(scheduler := deleted.value, owned := c.owned - {order[0]}), order[1..], id);
        }
      }
    }
  }

  lemma StepStays(c: Controller, e: Event, id: JobId)
    requires FaithfulOn(c, id) && (e.World? ==> Truthful(c, e.scheduler))
    ensures FaithfulOn(Step(c, e), id)
  {
    match e {
      case Receive(command, env) => ExecuteStays(c, command.action, env, id);
      case ChangePolicy(change, saved, order) =>
        var applied := ApplyChange(c.policy, change, saved);
        if applied.Ok? {
          var changed := c.(policy := applied.value);
          DisableEachStays(changed, DeniedIds(changed, order), id);
        }
      case Pause(key, order) => DisableEachStays(c, PluginIds(c, key, order), id);
      case Resume(_) =>
      case Clear(order) => DeleteEachStays(c, order, id);
      case World(_) =>
    }
  }

  ghost predicate TruthfulRun(c: Controller, events: seq<Event>) {
    forall i :: 0 <= i < |events| && events[i].World? ==> Truthful(Run(c, events[..i]), events[i].scheduler)
  }

  lemma StepsFaithful(c: Controller, e: Event)
    requires Faithful(c) && (e.World? ==> Truthful(c, e.scheduler))
    ensures Faithful(Step(c, e))
  {
    forall id ensures FaithfulOn(Step(c, e), id) { StepStays(c, e, id); }
  }

  /** In every state of every run, torn snapshots and half-done upserts included: an owned Job that is at its
      recorded generation carries the configuration of its definition, and none is behind it. */
  lemma {:induction false} FaithfulInEveryState(policy: RemoteJobPolicy, scheduler: Scheduler, events: seq<Event>)
    requires TruthfulRun(InitialController(policy, scheduler), events)
    ensures Faithful(Run(InitialController(policy, scheduler), events))
    decreases |events|
  {
    var start := InitialController(policy, scheduler);
    if events != [] {
      var n := |events| - 1;
      var before := events[..n];
      assert forall i :: 0 <= i < n ==> before[..i] == events[..i];
      FaithfulInEveryState(policy, scheduler, before);
      StepsFaithful(Run(start, before), events[n]);
    }
  }

  /** A quiet Scheduler is truthful. */
  lemma QuietIsTruthful(c: Controller, s: Scheduler)
    requires Agrees(c) && Quiet(c, s)
    ensures Truthful(c, s)
  {
    assert forall id :: id in c.owned ==> AgreesOn(c, id);
  }

  lemma AdmissibleIsTruthful(policy: RemoteJobPolicy, scheduler: Scheduler, events: seq<Event>)
    requires AdmissibleRun(InitialController(policy, scheduler), events)
    requires 2 * |events| + 2 <= U64_MAX
    ensures TruthfulRun(InitialController(policy, scheduler), events)
  {
    var start := InitialController(policy, scheduler);
    forall i | 0 <= i < |events| && events[i].World?
      ensures Truthful(Run(start, events[..i]), events[i].scheduler)
    {
      var before := events[..i];
      assert forall j :: 0 <= j < i ==> before[..j] == events[..j];
      AgreementInEveryState(policy, scheduler, before);
      assert Admissible(Run(start, before), events[i]);
      QuietIsTruthful(Run(start, before), events[i].scheduler);
    }
  }

  /** Every owned Job is in the Scheduler and carries its definition. */
  ghost predicate AllCarried(c: Controller) {
    forall id :: id in c.owned ==> id in c.scheduler.jobs && Carries(c.scheduler.jobs[id], c.owned[id].definition)
  }

  lemma FaithfulAndAgreed(c: Controller)
    requires Faithful(c) && Agrees(c)
    ensures AllCarried(c)
  {
    assert forall id :: id in c.owned ==> AgreesOn(c, id) && FaithfulOn(c, id);
  }

  /** Where the Scheduler is quiet and no snapshot is torn, the Scheduler runs every owned Job as defined. */
  lemma ConfiguredInEveryState(policy: RemoteJobPolicy, scheduler: Scheduler, events: seq<Event>)
    requires AdmissibleRun(InitialController(policy, scheduler), events)
    requires 2 * |events| + 2 <= U64_MAX
    ensures AllCarried(Run(InitialController(policy, scheduler), events))
  {
    AdmissibleIsTruthful(policy, scheduler, events);
    FaithfulInEveryState(policy, scheduler, events);
    AgreementInEveryState(policy, scheduler, events);
    FaithfulAndAgreed(Run(InitialController(policy, scheduler), events));
  }
}
