/** The Scheduler as its clients see it: a table of Jobs under optimistic versions, with the
    install, update, enable, disable, delete and batch-reconcile commands of the Scheduler Actor.
    Each command is a function from the table before to the table after. */
module Scheduling {
  import opened Basics

  datatype Schedule =
    | Once(at: int)
    | Interval(every: nat, startAt: Option<int>)
    | Cron(expression: Text, timezone: Text)

  datatype MisfirePolicy = Skip | FireOnce | CatchUp(maxRuns: nat)

  datatype Trigger = Trigger(schedule: Schedule, misfire: MisfirePolicy, timeout: Option<nat>)

  datatype TriggerCoalescing = KeepAll | KeepLatest

  datatype CapacityPolicy = Backpressure | SkipNewest | ReplaceOldestTrigger

  datatype RetryPolicy =
    | NoRetry
    | Exponential(maxAttempts: nat, initialDelay: nat, maxDelay: nat,
                  onTransient: bool, onTimeout: bool, onPanic: bool)

  datatype FailurePolicy = FailurePolicy(disableAfter: Option<nat>, countTimeout: bool, countPanic: bool)

  datatype JobOptions = JobOptions(
    concurrency: Option<nat>,
    maxPending: Option<nat>,
    priority: nat,
    coalescing: Option<TriggerCoalescing>,
    capacity: Option<CapacityPolicy>,
    retry: RetryPolicy,
    failure: FailurePolicy)

  /** A Task bound to the business revision it reports; `blocking` work cannot be interrupted. */
  datatype TaskBinding = TaskBinding(kind: Text, configuration: Bytes, revision: nat, blocking: bool)

  datatype JobState = Enabled | Completed | Disabled

  datatype JobEntry = JobEntry(
    version: nat,
    task: TaskBinding,
    trigger: Trigger,
    concurrency: Option<nat>,
    maxPending: Option<nat>,
    priority: nat,
    coalescing: TriggerCoalescing,
    capacity: CapacityPolicy,
    retry: RetryPolicy,
    failure: FailurePolicy,
    state: JobState)

  /** Safety limits, plus what the cron library answers now: whether an expression parses and
      whether a schedule has a future occurrence. */
  datatype Limits = Limits(
    maxJobs: nat,
    minimumInterval: nat,
    minimumRetryDelay: nat,
    maximumCatchUp: nat,
    maximumRetryAttempts: nat,
    cronParses: Text -> bool,
    cronFires: Schedule -> bool)

  datatype Scheduler = Scheduler(jobs: map<JobId, JobEntry>, limits: Limits)

  datatype SchedulerError =
    | JobNotFound
    | JobAlreadyExists
    | VersionConflict
    | MaximumJobsReached
    | InvalidTrigger
    | InvalidRetry
    | VersionOverflow
    | Actor

  datatype PatchValue<T> = Keep | Set(value: T) | Inherit

  datatype RescheduleMode = Recalculate | RunNow

  datatype JobPatch = JobPatch(
    task: Option<TaskBinding>,
    trigger: Option<Trigger>,
    concurrency: PatchValue<nat>,
    maxPending: PatchValue<nat>,
    priority: Option<nat>,
    coalescing: Option<TriggerCoalescing>,
    capacity: Option<CapacityPolicy>,
    retry: Option<RetryPolicy>,
    failure: Option<FailurePolicy>,
    reschedule: RescheduleMode)

  const RUN_NOW_PATCH: JobPatch :=
    JobPatch(None, None, Keep, Keep, None, None, None, None, None, RunNow)

  // ----- validation -----

  /** Once and catch-up triggers must not lose occurrences. */
  predicate Lossless(trigger: Trigger) {
    trigger.schedule.Once? || trigger.misfire.CatchUp?
  }

  function DefaultCoalescing(trigger: Trigger): TriggerCoalescing {
    if Lossless(trigger) then KeepAll else KeepLatest
  }

  function DefaultCapacity(trigger: Trigger): CapacityPolicy {
    if Lossless(trigger) then Backpressure else ReplaceOldestTrigger
  }

  function ValueOr<T>(o: Option<T>, default: T): T {
    if o.Some? then o.value else default
  }

  function TriggerError(trigger: Trigger, options: JobOptions, limits: Limits): Option<SchedulerError> {
    if options.maxPending == Some(0) then Some(InvalidTrigger)
    else if trigger.schedule.Interval? && trigger.schedule.every < limits.minimumInterval then Some(InvalidTrigger)
    else if trigger.schedule.Cron? && !limits.cronParses(trigger.schedule.expression) then Some(InvalidTrigger)
    else if trigger.misfire.CatchUp?
         && (trigger.misfire.maxRuns > limits.maximumCatchUp
             || ValueOr(options.coalescing, DefaultCoalescing(trigger)) != KeepAll
             || ValueOr(options.capacity, DefaultCapacity(trigger)) != Backpressure) then Some(InvalidTrigger)
    else if options.retry.Exponential?
         && (options.retry.maxAttempts > limits.maximumRetryAttempts
             || options.retry.initialDelay < limits.minimumRetryDelay
             || options.retry.maxDelay < options.retry.initialDelay) then Some(InvalidRetry)
    else None
  }

  /** Work that cannot be interrupted must not carry a Scheduler timeout. */
  function CancellationError(trigger: Trigger, task: TaskBinding): Option<SchedulerError> {
    if task.blocking && trigger.timeout.Some? then Some(InvalidTrigger) else None
  }

  /** Whether a first run time can be computed. */
  predicate Fires(trigger: Trigger, limits: Limits) {
    trigger.schedule.Cron? ==> limits.cronFires(trigger.schedule)
  }

  // ----- commands -----

  function FreshEntry(generation: nat, enabled: bool, trigger: Trigger, task: TaskBinding,
                      options: JobOptions): JobEntry {
    JobEntry(generation, task, trigger, options.concurrency, options.maxPending, options.priority,
             ValueOr(options.coalescing, DefaultCoalescing(trigger)),
             ValueOr(options.capacity, DefaultCapacity(trigger)),
             options.retry, options.failure, if enabled then Enabled else Disabled)
  }

  function AddJob(s: Scheduler, id: JobId, generation: nat, enabled: bool,
                  trigger: Trigger, task: TaskBinding, options: JobOptions): Result<Scheduler, SchedulerError>
  {
    if |s.jobs| >= s.limits.maxJobs then Err(MaximumJobsReached)
    else if TriggerError(trigger, options, s.limits).Some? then Err(TriggerError(trigger, options, s.limits).value)
    else if CancellationError(trigger, task).Some? then Err(CancellationError(trigger, task).value)
    else if id in s.jobs then Err(JobAlreadyExists)
    else if !Fires(trigger, s.limits) then Err(InvalidTrigger)
    else Ok(s.(jobs := s.jobs[id := FreshEntry(generation, enabled, trigger, task, options)]))
  }

  function Patched<T>(current: Option<T>, patch: PatchValue<T>): Option<T> {
    match patch
    case Keep => current
    case Set(value) => Some(value)
    case Inherit => None
  }

  /** The entry after a patch; the lifecycle state is not touched. */
  function PatchedEntry(job: JobEntry, patch: JobPatch): JobEntry {
    JobEntry(job.version + 1,
             ValueOr(patch.task, job.task),
             ValueOr(patch.trigger, job.trigger),
             Patched(job.concurrency, patch.concurrency),
             Patched(job.maxPending, patch.maxPending),
             ValueOr(patch.priority, job.priority),
             ValueOr(patch.coalescing, job.coalescing),
             ValueOr(patch.capacity, job.capacity),
             ValueOr(patch.retry, job.retry),
             ValueOr(patch.failure, job.failure),
             job.state)
  }

  function OptionsOf(job: JobEntry): JobOptions {
    JobOptions(job.concurrency, job.maxPending, job.priority, Some(job.coalescing), Some(job.capacity),
               job.retry, job.failure)
  }

  /** Everything that can refuse an update, checked before anything changes. */
  function UpdateError(s: Scheduler, id: JobId, expected: nat, patch: JobPatch): Option<SchedulerError> {
    if id !in s.jobs then Some(JobNotFound)
    else if s.jobs[id].version != expected then Some(VersionConflict)
    else
      var candidate := PatchedEntry(s.jobs[id], patch);
      if TriggerError(candidate.trigger, OptionsOf(candidate), s.limits).Some? then
        TriggerError(candidate.trigger, OptionsOf(candidate), s.limits)
      else if CancellationError(candidate.trigger, candidate.task).Some? then
        CancellationError(candidate.trigger, candidate.task)
      else if expected >= U64_MAX then Some(VersionOverflow)
      else if patch.reschedule.Recalculate? && !Fires(candidate.trigger, s.limits) then Some(InvalidTrigger)
      else None
  }

  function UpdateJob(s: Scheduler, id: JobId, expected: nat, patch: JobPatch): Result<Scheduler, SchedulerError> {
    var error := UpdateError(s, id, expected, patch);
    if error.Some? then Err(error.value)
    else Ok(s.(jobs := s.jobs[id := PatchedEntry(s.jobs[id], patch)]))
  }

  function VersionError(s: Scheduler, id: JobId, expected: nat): Option<SchedulerError> {
    if id !in s.jobs then Some(JobNotFound)
    else if s.jobs[id].version != expected then Some(VersionConflict)
    else None
  }

  /** Enabling an enabled Job changes nothing, not even its version. */
  function EnableJob(s: Scheduler, id: JobId, expected: nat): Result<Scheduler, SchedulerError> {
    var error := VersionError(s, id, expected);
    if error.Some? then Err(error.value)
    else if s.jobs[id].state.Enabled? then Ok(s)
    else if !Fires(s.jobs[id].trigger, s.limits) then Err(InvalidTrigger)
    else if expected >= U64_MAX then Err(VersionOverflow)
    else Ok(s.(jobs := s.jobs[id := s.jobs[id].(version := expected + 1, state := Enabled)]))
  }

  /** Disabling always raises the version. */
  function DisableJob(s: Scheduler, id: JobId, expected: nat): Result<Scheduler, SchedulerError> {
    var error := VersionError(s, id, expected);
    if error.Some? then Err(error.value)
    else if expected >= U64_MAX then Err(VersionOverflow)
    else Ok(s.(jobs := s.jobs[id := s.jobs[id].(version := expected + 1, state := Disabled)]))
  }

  function DeleteJob(s: Scheduler, id: JobId, expected: nat): Result<Scheduler, SchedulerError> {
    var error := VersionError(s, id, expected);
    if error.Some? then Err(error.value)
    else Ok(s.(jobs := s.jobs - {id}))
  }

  // ----- batch reconciliation -----

  datatype Update = Update(id: JobId, expected: nat, patch: JobPatch, enabled: bool)

  datatype Addition = Addition(id: JobId, enabled: bool, trigger: Trigger, task: TaskBinding, options: JobOptions)

  datatype Deletion = Deletion(id: JobId, expected: nat)

  datatype ReconcilePlan = ReconcilePlan(updates: seq<Update>, additions: seq<Addition>, deletions: seq<Deletion>)

  /** A batch may fail after it has changed the table, so the table is returned with the error. */
  datatype Reconciled = Reconciled(scheduler: Scheduler, error: Option<SchedulerError>)

  function UpdateIds(updates: seq<Update>): seq<JobId> {
    seq(|updates|, i requires 0 <= i < |updates| => updates[i].id)
  }

  function AdditionIds(additions: seq<Addition>): seq<JobId> {
    seq(|additions|, i requires 0 <= i < |additions| => additions[i].id)
  }

  function DeletionIds(deletions: seq<Deletion>): seq<JobId> {
    seq(|deletions|, i requires 0 <= i < |deletions| => deletions[i].id)
  }

  /** The first reason to refuse the updates, given the ids already used by the plan. */
  function UpdatesError(s: Scheduler, updates: seq<Update>, touched: set<JobId>): Option<SchedulerError> {
    if updates == [] then None
    else
      var u := updates[0];
      if u.id in touched then Some(Actor)
      else if UpdateError(s, u.id, u.expected, u.patch).Some? then UpdateError(s, u.id, u.expected, u.patch)
      else UpdatesError(s, updates[1..], touched + {u.id})
  }

  function AdditionError(s: Scheduler, a: Addition): Option<SchedulerError> {
    if a.id in s.jobs then Some(JobAlreadyExists)
    else if TriggerError(a.trigger, a.options, s.limits).Some? then TriggerError(a.trigger, a.options, s.limits)
    else CancellationError(a.trigger, a.task)
  }

  function AdditionsError(s: Scheduler, additions: seq<Addition>, touched: set<JobId>): Option<SchedulerError> {
    if additions == [] then None
    else
      var a := additions[0];
      if a.id in touched then Some(JobAlreadyExists)
      else if AdditionError(s, a).Some? then AdditionError(s, a)
      else AdditionsError(s, additions[1..], touched + {a.id})
  }

  function DeletionsError(s: Scheduler, deletions: seq<Deletion>): Option<SchedulerError> {
    if deletions == [] then None
    else if VersionError(s, deletions[0].id, deletions[0].expected).Some? then
      VersionError(s, deletions[0].id, deletions[0].expected)
    else DeletionsError(s, deletions[1..])
  }

  function SaturatingSub(a: nat, b: nat): nat {
    if a < b then 0 else a - b
  }

  /** Every check the Actor makes before it starts changing Jobs. */
  function Preflight(s: Scheduler, plan: ReconcilePlan): Option<SchedulerError> {
    var deleted := Elements(DeletionIds(plan.deletions));
    if |deleted| != |plan.deletions| then Some(Actor)
    else
      var updatesError := UpdatesError(s, plan.updates, deleted);
      if updatesError.Some? then updatesError
      else
        var touched := deleted + Elements(UpdateIds(plan.updates));
        var additionsError := AdditionsError(s, plan.additions, touched);
        if additionsError.Some? then additionsError
        else if SaturatingSub(|s.jobs|, |plan.deletions|) + |plan.additions| > s.limits.maxJobs then
          Some(MaximumJobsReached)
        else DeletionsError(s, plan.deletions)
  }

  /** One update of the batch: patch, then move to the requested lifecycle state. */
  function CommitUpdate(s: Scheduler, u: Update): Reconciled {
    match UpdateJob(s, u.id, u.expected, u.patch)
    case Err(error) => Reconciled(s, Some(error))
    case Ok(patched) =>
      var entry := PatchedEntry(s.jobs[u.id], u.patch);
      var moved :=
        if u.enabled && !entry.state.Enabled? then EnableJob(patched, u.id, entry.version)
        else if !u.enabled && entry.state.Enabled? then DisableJob(patched, u.id, entry.version)
        else Ok(patched);
      match moved
      case Err(error) => Reconciled(patched, Some(error))
      case Ok(after) => Reconciled(after, None)
  }

  function CommitUpdates(s: Scheduler, updates: seq<Update>): Reconciled
    decreases |updates|
  {
    if updates == [] then Reconciled(s, None)
    else
      var first := CommitUpdate(s, updates[0]);
      if first.error.Some? then first else CommitUpdates(first.scheduler, updates[1..])
  }

  function CommitDeletions(s: Scheduler, deletions: seq<Deletion>): Reconciled
    decreases |deletions|
  {
    if deletions == [] then Reconciled(s, None)
    else
      match DeleteJob(s, deletions[0].id, deletions[0].expected)
      case Err(error) => Reconciled(s, Some(error))
      case Ok(after) => CommitDeletions(after, deletions[1..])
  }

  function CommitAdditions(s: Scheduler, additions: seq<Addition>): Reconciled
    decreases |additions|
  {
    if additions == [] then Reconciled(s, None)
    else
      var a := additions[0];
      match AddJob(s, a.id, 1, a.enabled, a.trigger, a.task, a.options)
      case Err(error) => Reconciled(s, Some(error))
      case Ok(after) => CommitAdditions(after, additions[1..])
  }

  /** The Actor's reconcile command: check everything, then update, delete and add in that order. */
  function Reconcile(s: Scheduler, plan: ReconcilePlan): Reconciled {
    var error := Preflight(s, plan);
    if error.Some? then Reconciled(s, error)
    else
      var updated := CommitUpdates(s, plan.updates);
      if updated.error.Some? then updated
      else
        var deleted := CommitDeletions(updated.scheduler, plan.deletions);
        if deleted.error.Some? then deleted
        else CommitAdditions(deleted.scheduler, plan.additions)
  }
}
