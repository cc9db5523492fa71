/** The remote Job controller as functions on its state: what each Server command, policy change,
    plugin pause and clear does to the catalog, the ownership index and the Scheduler. */
module RemoteJobs {
  import opened Basics
  import opened Scheduling
  import opened Definitions
  import opened JobPolicy

  const CACHE_CAPACITY: nat := 1024

  datatype ManagedJob = ManagedJob(
    definition: JobDefinition,
    revision: nat,
    generation: nat,
    taskKind: Text,
    plugin: Option<PluginKey>)

  datatype Action =
    | Upsert(catalogRevision: nat, job: Option<JobDefinition>)
    | Delete(catalogRevision: nat, jobId: Bytes, expectedRevision: nat)
    | RunJobNow(jobId: Bytes, expectedRevision: nat)
    | ReplaceAll(catalogRevision: nat, jobs: seq<JobDefinition>)

  datatype Command = Command(commandId: Bytes, action: Option<Action>)

  datatype ErrorCode =
    | InvalidCommand | InvalidJob | NotFound | RevisionConflict | OwnershipConflict
    | CapacityExceeded | SchedulerUnavailable | LocalPolicyDenied

  datatype Verdict = Applied | Rejected(code: ErrorCode) | ResyncRequired

  datatype CommandResult = CommandResult(commandId: Bytes, verdict: Verdict, catalogRevision: nat)

  datatype Controller = Controller(
    catalogRevision: nat,
    owned: map<JobId, ManagedJob>,
    cached: map<Bytes, CommandResult>,
    cacheOrder: seq<Bytes>,
    paused: set<PluginKey>,
    policy: RemoteJobPolicy,
    scheduler: Scheduler)

  /** What a step depends on besides the state: the Task factory of the moment, and the order in
      which the hash map of owned Jobs happens to be walked. */
  datatype Surroundings = Surroundings(builds: JobDefinition -> bool, order: seq<JobId>)

  datatype Outcome = Outcome(controller: Controller, verdict: Verdict)

  function InitialController(policy: RemoteJobPolicy, scheduler: Scheduler): Controller {
    Controller(0, map[], map[], [], {}, policy, scheduler)
  }

  function SchedulerCode(error: SchedulerError): ErrorCode {
    match error
    case JobNotFound => NotFound
    case JobAlreadyExists => OwnershipConflict
    case VersionConflict => RevisionConflict
    case MaximumJobsReached => CapacityExceeded
    case _ => SchedulerUnavailable
  }

  function Manage(d: JobDefinition, generation: nat): ManagedJob
    requires KindOf(d).Some?
  {
    ManagedJob(d, d.revision, generation, KindOf(d).value, PluginOf(d))
  }

  // ----- increments -----

  /** Move a Job to the wanted lifecycle state; a Completed Job counts as neither. */
  function SetEnabled(s: Scheduler, id: JobId, enabled: bool): Result<Scheduler, SchedulerError>
    requires id in s.jobs
  {
    if (enabled && s.jobs[id].state.Enabled?) || (!enabled && s.jobs[id].state.Disabled?) then Ok(s)
    else if enabled then EnableJob(s, id, s.jobs[id].version)
    else DisableJob(s, id, s.jobs[id].version)
  }

  /** An owned Job is patched and then moved; the two Scheduler requests are separate, so the second
      may fail after the first took effect. Any other id is installed at version 1. */
  function UpsertCompiled(c: Controller, d: JobDefinition): Outcome
    requires d.trigger.Some? && KindOf(d).Some?
  {
    var id := d.jobId;
    if id in c.owned then
      var current := c.owned[id];
      if d.revision <= current.revision then Outcome(c, Rejected(RevisionConflict))
      else
        match UpdateJob(c.scheduler, id, current.generation, FullPatch(d))
        case Err(error) => Outcome(c, Rejected(SchedulerCode(error)))
        case Ok(patched) =>
          match SetEnabled(patched, id, d.enabled)
          case Err(error) => Outcome(c.(scheduler := patched), Rejected(SchedulerCode(error)))
          case Ok(moved) =>
            Outcome(c.(scheduler := moved, owned := c.owned[id := Manage(d, VersionOf(moved, id))]), Applied)
    else
      match AddJob(c.scheduler, id, 1, d.enabled, d.trigger.value, BindingOf(d), d.options)
      case Err(error) => Outcome(c, Rejected(SchedulerCode(error)))
      case Ok(after) =>
        Outcome(c.(scheduler := after, owned := c.owned[id := Manage(d, VersionOf(after, id))]), Applied)
  }

  function VersionOf(s: Scheduler, id: JobId): nat {
    if id in s.jobs then s.jobs[id].version else 0
  }

  function ApplyUpsert(c: Controller, revision: nat, job: Option<JobDefinition>,
                       builds: JobDefinition -> bool): Outcome {
    if revision != c.catalogRevision + 1 then Outcome(c, ResyncRequired)
    else if job.None? then Outcome(c, Rejected(InvalidJob))
    else if DeniesDefinition(c.policy, job.value) then Outcome(c, Rejected(LocalPolicyDenied))
    else if !Compiles(job.value, builds) then Outcome(c, Rejected(InvalidJob))
    else
      var o := UpsertCompiled(c, job.value);
      if o.verdict.Applied? then o.(controller := o.controller.(catalogRevision := revision)) else o
  }

  function ApplyDelete(c: Controller, revision: nat, jobId: Bytes, expectedRevision: nat): Outcome {
    if revision != c.catalogRevision + 1 then Outcome(c, ResyncRequired)
    else if ParseUuid(jobId).None? then Outcome(c, Rejected(InvalidCommand))
    else if jobId !in c.owned then Outcome(c, Rejected(NotFound))
    else if expectedRevision != c.owned[jobId].revision then Outcome(c, Rejected(RevisionConflict))
    else
      match DeleteJob(c.scheduler, jobId, c.owned[jobId].generation)
      case Err(error) => Outcome(c, Rejected(SchedulerCode(error)))
      case Ok(after) =>
        Outcome(c.(scheduler := after, owned := c.owned - {jobId}, catalogRevision := revision), Applied)
  }

  function ApplyRunNow(c: Controller, jobId: Bytes, expectedRevision: nat): Outcome {
    if ParseUuid(jobId).None? then Outcome(c, Rejected(InvalidCommand))
    else if jobId !in c.owned then Outcome(c, Rejected(NotFound))
    else
      var current := c.owned[jobId];
      if expectedRevision != current.revision then Outcome(c, Rejected(RevisionConflict))
      else if DeniesKind(c.policy, current.taskKind) then Outcome(c, Rejected(LocalPolicyDenied))
      else
        match UpdateJob(c.scheduler, jobId, current.generation, RUN_NOW_PATCH)
        case Err(error) => Outcome(c, Rejected(SchedulerCode(error)))
        case Ok(after) =>
          Outcome(c.(scheduler := after,
                     owned := c.owned[jobId := current.(generation := VersionOf(after, jobId))]), Applied)
  }

  // ----- the authoritative snapshot -----

  function Ids(jobs: seq<JobDefinition>): seq<JobId> {
    seq(|jobs|, i requires 0 <= i < |jobs| => jobs[i].jobId)
  }

  /** The first definition the snapshot is refused for, checked one by one before any change. */
  function FirstInvalid(jobs: seq<JobDefinition>, seen: set<JobId>, policy: RemoteJobPolicy,
                        builds: JobDefinition -> bool): Option<ErrorCode>
  {
    if jobs == [] then None
    else
      var d := jobs[0];
      if ParseUuid(d.jobId).None? || d.jobId in seen then Some(InvalidJob)
      else if DeniesDefinition(policy, d) then Some(LocalPolicyDenied)
      else if !Compiles(d, builds) then Some(InvalidJob)
      else FirstInvalid(jobs[1..], seen + {d.jobId}, policy, builds)
  }

  /** The first owned Job, in walking order, that the Scheduler no longer holds at its generation. */
  function FirstMismatch(c: Controller, order: seq<JobId>): Option<ErrorCode> {
    if order == [] then None
    else if order[0] in c.owned && order[0] !in c.scheduler.jobs then Some(SchedulerUnavailable)
    else if order[0] in c.owned && c.scheduler.jobs[order[0]].version != c.owned[order[0]].generation then
      Some(RevisionConflict)
    else FirstMismatch(c, order[1..])
  }

  predicate OwnershipClash(c: Controller, jobs: seq<JobDefinition>) {
    exists i :: 0 <= i < |jobs| && jobs[i].jobId !in c.owned && jobs[i].jobId in c.scheduler.jobs
  }

  /** A Job revision may not go back, nor stay while its content changes. */
  predicate RevisionClash(c: Controller, jobs: seq<JobDefinition>) {
    exists i :: 0 <= i < |jobs| && jobs[i].jobId in c.owned &&
      var current := c.owned[jobs[i].jobId];
      jobs[i].revision < current.revision || (jobs[i].revision == current.revision && jobs[i] != current.definition)
  }

  function UpdateFor(owned: map<JobId, ManagedJob>, d: JobDefinition): Update
    requires d.jobId in owned && d.trigger.Some? && KindOf(d).Some?
  {
    Update(d.jobId, owned[d.jobId].generation, FullPatch(d), d.enabled)
  }

  function AdditionFor(d: JobDefinition): Addition
    requires d.trigger.Some? && KindOf(d).Some?
  {
    Addition(d.jobId, d.enabled, d.trigger.value, BindingOf(d), d.options)
  }

  predicate Built(jobs: seq<JobDefinition>) {
    forall i :: 0 <= i < |jobs| ==> jobs[i].trigger.Some? && KindOf(jobs[i]).Some?
  }

  /** An unchanged definition produces no plan entry at all. */
  function PlanUpdates(owned: map<JobId, ManagedJob>, jobs: seq<JobDefinition>): seq<Update>
    requires Built(jobs)
  {
    if jobs == [] then []
    else
      var d := jobs[0];
      (if d.jobId in owned && owned[d.jobId].definition != d then [UpdateFor(owned, d)] else [])
      + PlanUpdates(owned, jobs[1..])
  }

  function PlanAdditions(owned: map<JobId, ManagedJob>, jobs: seq<JobDefinition>): seq<Addition>
    requires Built(jobs)
  {
    if jobs == [] then []
    else (if jobs[0].jobId !in owned then [AdditionFor(jobs[0])] else []) + PlanAdditions(owned, jobs[1..])
  }

  function PlanDeletions(owned: map<JobId, ManagedJob>, keep: set<JobId>, order: seq<JobId>): seq<Deletion> {
    if order == [] then []
    else
      (if order[0] in owned && order[0] !in keep then [Deletion(order[0], owned[order[0]].generation)] else [])
      + PlanDeletions(owned, keep, order[1..])
  }

  function PlanFor(c: Controller, jobs: seq<JobDefinition>, order: seq<JobId>): ReconcilePlan
    requires Built(jobs)
  {
    ReconcilePlan(PlanUpdates(c.owned, jobs), PlanAdditions(c.owned, jobs),
                  PlanDeletions(c.owned, Elements(Ids(jobs)), order))
  }

  /** Unchanged Jobs keep their generation, the others take the version the Scheduler reports. */
  function IndexAfter(c: Controller, jobs: seq<JobDefinition>, after: Scheduler): map<JobId, ManagedJob>
    requires Built(jobs)
  {
    if jobs == [] then map[]
    else
      var d := jobs[|jobs| - 1];
      var generation :=
        if d.jobId in c.owned && c.owned[d.jobId].definition == d then c.owned[d.jobId].generation
        else VersionOf(after, d.jobId);
      IndexAfter(c, jobs[..|jobs| - 1], after)[d.jobId := Manage(d, generation)]
  }

  /** How many Jobs the controller expects after the snapshot. */
  function FinalJobCount(c: Controller, jobs: seq<JobDefinition>): nat {
    SaturatingSub(|c.scheduler.jobs|, |c.owned|) + |Elements(Ids(jobs))|
  }

  lemma {:induction false} ValidJobs(jobs: seq<JobDefinition>, seen: set<JobId>, policy: RemoteJobPolicy,
                                     builds: JobDefinition -> bool)
    requires FirstInvalid(jobs, seen, policy, builds).None?
    ensures Built(jobs) && Distinct(Ids(jobs))
    ensures forall d :: d in jobs ==> d.jobId !in seen && Compiles(d, builds) && !DeniesDefinition(policy, d)
    decreases |jobs|
  {
    if jobs != [] {
      var rest := jobs[1..];
      ValidJobs(rest, seen + {jobs[0].jobId}, policy, builds);
      forall i | 0 <= i < |jobs| ensures jobs[i].trigger.Some? && KindOf(jobs[i]).Some? {
        if i > 0 { assert jobs[i] == rest[i - 1]; }
      }
      var ids := Ids(jobs);
      forall i, j | 0 <= i < j < |ids| ensures ids[i] != ids[j] {
        assert jobs[j] == rest[j - 1] && rest[j - 1] in rest;
        if i > 0 { assert Ids(rest)[i - 1] == ids[i] && Ids(rest)[j - 1] == ids[j]; }
      }
    }
  }

  /** What the controller makes of the Scheduler's answer. */
  function SnapshotOutcome(c: Controller, revision: nat, jobs: seq<JobDefinition>, r: Reconciled): Outcome
    requires Built(jobs)
  {
    if r.error.Some? then Outcome(c.(scheduler := r.scheduler), Rejected(SchedulerCode(r.error.value)))
    else Outcome(c.(scheduler := r.scheduler, owned := IndexAfter(c, jobs, r.scheduler), catalogRevision := revision),
                 Applied)
  }

  function ApplyReplaceAll(c: Controller, revision: nat, jobs: seq<JobDefinition>, env: Surroundings): Outcome {
    if revision == 0 || revision < c.catalogRevision then Outcome(c, Rejected(RevisionConflict))
    else if FirstInvalid(jobs, {}, c.policy, env.builds).Some? then
      Outcome(c, Rejected(FirstInvalid(jobs, {}, c.policy, env.builds).value))
    else if FirstMismatch(c, env.order).Some? then Outcome(c, Rejected(FirstMismatch(c, env.order).value))
    else if OwnershipClash(c, jobs) then Outcome(c, Rejected(OwnershipConflict))
    else if FinalJobCount(c, jobs) > c.scheduler.limits.maxJobs then Outcome(c, Rejected(CapacityExceeded))
    else if RevisionClash(c, jobs) then Outcome(c, Rejected(RevisionConflict))
    else
      ValidJobs(jobs, {}, c.policy, env.builds);
      SnapshotOutcome(c, revision, jobs, Reconcile(c.scheduler, PlanFor(c, jobs, env.order)))
  }

  // ----- commands with their idempotency cache -----

  function Execute(c: Controller, action: Option<Action>, env: Surroundings): Outcome {
    match action
    case None => Outcome(c, Rejected(InvalidCommand))
    case Some(Upsert(revision, job)) => ApplyUpsert(c, revision, job, env.builds)
    case Some(Delete(revision, jobId, expected)) => ApplyDelete(c, revision, jobId, expected)
    case Some(RunJobNow(jobId, expected)) => ApplyRunNow(c, jobId, expected)
    case Some(ReplaceAll(revision, jobs)) => ApplyReplaceAll(c, revision, jobs, env)
  }

  /** Failures that may pass with time are not remembered. */
  predicate ShouldCache(verdict: Verdict) {
    verdict != Rejected(SchedulerUnavailable) && verdict != Rejected(CapacityExceeded)
  }

  /** Remember a result and forget the oldest ones beyond the capacity. */
  function Remember(c: Controller, id: Bytes, result: CommandResult): Controller {
    var order := c.cacheOrder + [id];
    var excess := SaturatingSub(|order|, CACHE_CAPACITY);
    c.(cached := c.cached[id := result] - Elements(order[..excess]), cacheOrder := order[excess..])
  }

  datatype Answer = Answer(controller: Controller, result: CommandResult)

  function ApplyCommand(c: Controller, command: Command, env: Surroundings): Answer {
    if ParseUuid(command.commandId).None? then
      Answer(c, CommandResult(command.commandId, Rejected(InvalidCommand), 0))
    else if command.commandId in c.cached then Answer(c, c.cached[command.commandId])
    else
      var o := Execute(c, command.action, env);
      var result := CommandResult(command.commandId, o.verdict, o.controller.catalogRevision);
      if ShouldCache(o.verdict) then Answer(Remember(o.controller, command.commandId, result), result)
      else Answer(o.controller, result)
  }

  // ----- policy, plugins, clearing -----

  /** A step that can stop half way: `ok` tells whether it went through. */
  datatype Effect = Effect(controller: Controller, ok: bool)

  /** Disable the listed owned Jobs one by one, recording each new version; stop at the first refusal. */
  function DisableEach(c: Controller, ids: seq<JobId>): Effect
    decreases |ids|
  {
    if ids == [] then Effect(c, true)
    else if ids[0] !in c.owned then DisableEach(c, ids[1..])
    else
      var id := ids[0];
      match DisableJob(c.scheduler, id, c.owned[id].generation)
      case Err(_) => Effect(c, false)
      case Ok(after) =>
        DisableEach(c.(scheduler := after, owned := c.owned[id := c.owned[id].(generation := VersionOf(after, id))]),
                    ids[1..])
  }

  function DeniedIds(c: Controller, order: seq<JobId>): seq<JobId> {
    if order == [] then []
    else (if order[0] in c.owned && DeniesKind(c.policy, c.owned[order[0]].taskKind) then [order[0]] else [])
         + DeniedIds(c, order[1..])
  }

  /** Save the changed policy, then disable every owned Job it refuses. */
  function UpdatePolicy(c: Controller, change: PolicyChange, saved: bool, order: seq<JobId>): Effect {
    match ApplyChange(c.policy, change, saved)
    case Err(_) => Effect(c, false)
    case Ok(policy) =>
      if policy == c.policy then Effect(c, true)
      else
        var changed := c.(policy := policy);
        DisableEach(changed, DeniedIds(changed, order))
  }

  function PluginIds(c: Controller, key: PluginKey, order: seq<JobId>): seq<JobId> {
    if order == [] then []
    else (if order[0] in c.owned && c.owned[order[0]].plugin == Some(key) then [order[0]] else [])
         + PluginIds(c, key, order[1..])
  }

  /** Disable a plugin's Jobs once; the mark is set only when all of them were disabled. */
  function PausePlugin(c: Controller, key: PluginKey, order: seq<JobId>): Effect {
    if key in c.paused then Effect(c, true)
    else
      var e := DisableEach(c, PluginIds(c, key, order));
      if e.ok then Effect(e.controller.(paused := e.controller.paused + {key}), true) else e
  }

  function ResumePlugin(c: Controller, key: PluginKey): Controller {
    c.(paused := c.paused - {key})
  }

  /** Delete the owned Jobs one by one; the catalog revision is reset only when all are gone. */
  function DeleteEach(c: Controller, order: seq<JobId>): Effect
    decreases |order|
  {
    if order == [] then Effect(c, true)
    else if order[0] !in c.owned then DeleteEach(c, order[1..])
    else
      match DeleteJob(c.scheduler, order[0], c.owned[order[0]].generation)
      case Err(_) => Effect(c, false)
      case Ok(after) => DeleteEach(c.(scheduler := after, owned := c.owned - {order[0]}), order[1..])
  }

  function ClearRemoteJobs(c: Controller, order: seq<JobId>): Effect {
    var e := DeleteEach(c, order);
    if e.ok then Effect(e.controller.(catalogRevision := 0), true) else e
  }
}
