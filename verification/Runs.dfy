/** Whole runs of the controller: every command, policy change, pause, clear and Scheduler move in any
    order. Agreement and the policy hold in every state that quiet surroundings can reach. */
module Runs {
  import opened Basics
  import opened Scheduling
  import opened Definitions
  import opened JobPolicy
  import opened RemoteJobs
  import opened Agreement
  import opened Snapshots
  import opened Maintenance

  datatype Event =
    | Receive(command: Command, env: Surroundings)
    | ChangePolicy(change: PolicyChange, saved: bool, order: seq<JobId>)
    | Pause(key: PluginKey, order: seq<JobId>)
    | Resume(key: PluginKey)
    | Clear(order: seq<JobId>)
    | World(scheduler: Scheduler)

  function Step(c: Controller, e: Event): Controller {
    match e
    case Receive(command, env) => ApplyCommand(c, command, env).controller
    case ChangePolicy(change, saved, order) => UpdatePolicy(c, change, saved, order).controller
    case Pause(key, order) => PausePlugin(c, key, order).controller
    case Resume(key) => ResumePlugin(c, key)
    case Clear(order) => ClearRemoteJobs(c, order).controller
    case World(scheduler) => c.(scheduler := scheduler)
  }

  /** The state after all of `events`. */
  function Run(c: Controller, events: seq<Event>): Controller
    decreases |events|
  {
    if events == [] then c
    else Step(Run(c, events[..|events| - 1]), events[|events| - 1])
  }

  /** On its own the Scheduler may change local Jobs and limits and complete a one-shot Job; it leaves
      the version of every owned Job alone. */
  ghost predicate Quiet(c: Controller, s: Scheduler) {
    forall id :: id in c.owned && id in c.scheduler.jobs ==>
      && id in s.jobs
      && (s.jobs[id] == c.scheduler.jobs[id]
          || (c.scheduler.jobs[id].state.Enabled? && s.jobs[id] == c.scheduler.jobs[id].(state := Completed)))
  }

  /** The command reaches the controller's logic: its id is valid and not remembered. */
  predicate Executes(c: Controller, command: Command) {
    ParseUuid(command.commandId).Some? && command.commandId !in c.cached
  }

  /** The action is a snapshot that is refused half way. */
  ghost predicate TornAction(c: Controller, action: Option<Action>, env: Surroundings) {
    action.Some? && action.value.ReplaceAll? && Tears(c, action.value.catalogRevision, action.value.jobs, env)
  }

  /** The action is a snapshot that is refused after it changed or dropped an owned Job. */
  ghost predicate BreakingAction(c: Controller, action: Option<Action>, env: Surroundings) {
    && action.Some? && action.value.ReplaceAll?
    && Sticks(c, action.value.catalogRevision, action.value.jobs, env) && Moves(c, action.value.jobs)
  }

  /** Walking orders are orders of the owned Jobs, no snapshot is torn after it moved an owned Job, and the
      Scheduler is quiet. Commands themselves are unrestricted. */
  ghost predicate Admissible(c: Controller, e: Event) {
    match e
    case Receive(command, env) =>
      Walks(env.order, c) && !(Executes(c, command) && BreakingAction(c, command.action, env))
    case ChangePolicy(_, _, order) => Walks(order, c)
    case Pause(_, order) => Walks(order, c)
    case Resume(_) => true
    case Clear(order) => Walks(order, c)
    case World(scheduler) => Quiet(c, scheduler)
  }

  ghost predicate AdmissibleRun(c: Controller, events: seq<Event>) {
    forall i :: 0 <= i < |events| ==> Admissible(Run(c, events[..i]), events[i])
  }

  /** What the cache cannot influence. */
  ghost predicate SameCore(c: Controller, d: Controller) {
    d == c.(cached := d.cached, cacheOrder := d.cacheOrder)
  }

  lemma SameCoreKeeps(c: Controller, d: Controller)
    requires SameCore(c, d)
    ensures Inv(d) == Inv(c) && Local(d) == Local(c) && Agrees(d) == Agrees(c)
  {
    assert forall id :: AgreesOn(c, id) == AgreesOn(d, id);
  }

  ghost predicate SameCache(c: Controller, d: Controller) {
    d.cached == c.cached && d.cacheOrder == c.cacheOrder
  }

  lemma UpsertSameCache(c: Controller, revision: nat, job: Option<JobDefinition>, builds: JobDefinition -> bool)
    ensures SameCache(c, ApplyUpsert(c, revision, job, builds).controller)
  {
  }

  lemma ReplaceAllSameCache(c: Controller, revision: nat, jobs: seq<JobDefinition>, env: Surroundings)
    ensures SameCache(c, ApplyReplaceAll(c, revision, jobs, env).controller)
  {
  }

  lemma ExecuteSameCache(c: Controller, action: Option<Action>, env: Surroundings)
    ensures SameCache(c, Execute(c, action, env).controller)
  {
    match action
    case Some(Upsert(revision, job)) => UpsertSameCache(c, revision, job, env.builds);
    case Some(ReplaceAll(revision, jobs)) => ReplaceAllSameCache(c, revision, jobs, env);
    case _ =>
  }

  /** What executing an action does to a controller in order, given whether the action breaks that order and
      whether it is torn: a refusal changes nothing unless it is torn. */
  ghost predicate Sound(c: Controller, breaks: bool, torn: bool, o: Outcome) {
    && (Inv(o.controller) <==> !breaks)
    && (!o.verdict.Applied? ==> (o.controller == c <==> !torn))
    && (torn ==> o.verdict == Rejected(SchedulerUnavailable))
    && (!torn ==> Local(o.controller) == Local(c))
  }

  lemma ReplaceAllSound(c: Controller, revision: nat, jobs: seq<JobDefinition>, env: Surroundings)
    requires Inv(c) && Room(c) && Walks(env.order, c)
    ensures Sound(c, Sticks(c, revision, jobs, env) && Moves(c, jobs), Tears(c, revision, jobs, env),
                  ApplyReplaceAll(c, revision, jobs, env))
  {
    ReplaceAllKeeps(c, revision, jobs, env);
    ReplaceAllTears(c, revision, jobs, env);
    ReplaceAllAgreesIff(c, revision, jobs, env);
    SoundBy(c, Sticks(c, revision, jobs, env), Moves(c, jobs), Tears(c, revision, jobs, env), jobs,
            ApplyReplaceAll(c, revision, jobs, env));
  }

  lemma SoundBy(c: Controller, sticks: bool, moves: bool, torn: bool, jobs: seq<JobDefinition>, o: Outcome)
    requires Inv(c) && (o.verdict.Applied? ==> Replaced(c, jobs, o.controller))
    requires !o.verdict.Applied? && !sticks ==> o.controller == c
    requires sticks ==> o.verdict == Rejected(SchedulerUnavailable)
    requires !o.verdict.Applied? && o.controller != c <==> torn
    requires (Agrees(o.controller) <==> !(sticks && moves)) && (Agrees(o.controller) ==> Inv(o.controller))
    ensures Sound(c, sticks && moves, torn, o)
  {
  }

  lemma UpsertSound(c: Controller, revision: nat, job: Option<JobDefinition>, builds: JobDefinition -> bool)
    requires Inv(c) && Room(c)
    ensures Sound(c, false, false, ApplyUpsert(c, revision, job, builds))
  {
    UpsertKeeps(c, revision, job, builds);
  }

  lemma DeleteSound(c: Controller, revision: nat, jobId: Bytes, expected: nat)
    requires Inv(c)
    ensures Sound(c, false, false, ApplyDelete(c, revision, jobId, expected))
  {
    DeleteKeeps(c, revision, jobId, expected);
  }

  lemma RunNowSound(c: Controller, jobId: Bytes, expected: nat)
    requires Inv(c)
    ensures Sound(c, false, false, ApplyRunNow(c, jobId, expected))
  {
    RunNowKeeps(c, jobId, expected);
  }

  lemma ExecuteKeeps(c: Controller, action: Option<Action>, env: Surroundings)
    requires Inv(c) && Room(c) && Walks(env.order, c)
    ensures Sound(c, BreakingAction(c, action, env), TornAction(c, action, env), Execute(c, action, env))
  {
    match action {
      case None =>
      case Some(Upsert(revision, job)) => UpsertSound(c, revision, job, env.builds);
      case Some(Delete(revision, jobId, expected)) => DeleteSound(c, revision, jobId, expected);
      case Some(RunJobNow(jobId, expected)) => RunNowSound(c, jobId, expected);
      case Some(ReplaceAll(revision, jobs)) => ReplaceAllSound(c, revision, jobs, env);
    }
  }

  /** What a command does to a controller in order. */
  ghost predicate SoundAnswer(c: Controller, executes: bool, breaks: bool, torn: bool, command: Command, a: Answer) {
    && (Inv(a.controller) <==> !breaks)
    && (!torn ==> Local(a.controller) == Local(c))
    && (!a.result.verdict.Applied? ==> (SameCore(c, a.controller) <==> !torn))
    && (torn ==> a.result.verdict == Rejected(SchedulerUnavailable) && command.commandId !in a.controller.cached)
    && (executes && !ShouldCache(a.result.verdict) ==> (a.controller == c <==> !torn))
  }

  /** A command that is not applied changes neither catalog, index, policy nor Scheduler, with exactly one
      exception: a torn snapshot. That one is never remembered, so every remembered failure, and every
      other failure that is not remembered, has changed nothing. */
  lemma CommandKeeps(c: Controller, command: Command, env: Surroundings)
    requires Inv(c) && Room(c) && Walks(env.order, c)
    ensures var executes := Executes(c, command);
            SoundAnswer(c, executes, executes && BreakingAction(c, command.action, env),
                        executes && TornAction(c, command.action, env), command, ApplyCommand(c, command, env))
  {
    if Executes(c, command) {
      var o := Execute(c, command.action, env);
      ExecuteKeeps(c, command.action, env);
      ExecuteSameCache(c, command.action, env);
      AnswerKeeps(c, BreakingAction(c, command.action, env), TornAction(c, command.action, env), command, o);
      assert ApplyCommand(c, command, env) == AnswerOf(command, o);
    }
  }

  function AnswerOf(command: Command, o: Outcome): Answer {
    var result := CommandResult(command.commandId, o.verdict, o.controller.catalogRevision);
    if ShouldCache(o.verdict) then Answer(Remember(o.controller, command.commandId, result), result)
    else Answer(o.controller, result)
  }

  lemma AnswerKeeps(c: Controller, breaks: bool, torn: bool, command: Command, o: Outcome)
    requires Sound(c, breaks, torn, o) && Executes(c, command) && SameCache(c, o.controller)
    ensures SoundAnswer(c, true, breaks, torn, command, AnswerOf(command, o))
  {
    SameCoreKeeps(o.controller, AnswerOf(command, o).controller);
  }

  lemma StepKeeps(c: Controller, e: Event)
    requires Inv(c) && Room(c) && Admissible(c, e)
    ensures Inv(Step(c, e))
    ensures !e.World? && !(e.Receive? && TornAction(c, e.command.action, e.env)) ==> Local(Step(c, e)) == Local(c)
  {
    match e {
      case Receive(command, env) => CommandKeeps(c, command, env);
      case ChangePolicy(change, saved, order) => UpdatePolicyKeeps(c, change, saved, order);
      case Pause(key, order) => PausePluginKeeps(c, key, order);
      case Resume(key) => assert forall id :: AgreesOn(c, id) == AgreesOn(Step(c, e), id);
      case Clear(order) => ClearKeeps(c, order);
      case World(scheduler) =>
        forall id | id in c.owned ensures AgreesOn(Step(c, e), id) { assert AgreesOn(c, id); }
    }
  }

  // ----- how fast generations grow -----

  ghost predicate Bounded(c: Controller, limit: nat) {
    forall id :: id in c.owned ==> c.owned[id].generation <= limit
  }

  lemma ExecuteGrows(c: Controller, action: Option<Action>, env: Surroundings, limit: nat)
    requires Inv(c) && Room(c) && Walks(env.order, c) && Bounded(c, limit)
    ensures Bounded(Execute(c, action, env).controller, limit + 2)
  {
    match action {
      case None =>
      case Some(Upsert(revision, job)) =>
        if job.Some? && Compiles(job.value, env.builds) {
          if job.value.jobId in c.owned {
            var _ := UpsertOwned(c, job.value);
          } else {
            var _ := UpsertNew(c, job.value);
          }
        }
      case Some(Delete(revision, jobId, expected)) =>
      case Some(RunJobNow(jobId, expected)) =>
      case Some(ReplaceAll(revision, jobs)) => ReplaceAllGrows(c, revision, jobs, env, limit);
    }
  }

  lemma ReplaceAllGrows(c: Controller, revision: nat, jobs: seq<JobDefinition>, env: Surroundings, limit: nat)
    requires Inv(c) && Room(c) && Walks(env.order, c) && Bounded(c, limit)
    ensures Bounded(ApplyReplaceAll(c, revision, jobs, env).controller, limit + 2)
  {
    ReplaceAllKeeps(c, revision, jobs, env);
    if Passes(c, revision, jobs, env) && NewTriggersFire(c, jobs) {
      AppliedGrows(c, revision, jobs, env, limit);
    }
  }

  lemma AppliedGrows(c: Controller, revision: nat, jobs: seq<JobDefinition>, env: Surroundings, limit: nat)
    requires Inv(c) && Room(c) && Walks(env.order, c) && Bounded(c, limit)
    requires Passes(c, revision, jobs, env) && NewTriggersFire(c, jobs)
    ensures Bounded(ApplyReplaceAll(c, revision, jobs, env).controller, limit + 2)
  {
    var r := Reconcile(c.scheduler, PlanFor(c, jobs, env.order));
    assert Distinct(Ids(jobs)) && r.error.None? && Stands(c, jobs, r.scheduler) by {
      ValidJobs(jobs, {}, c.policy, env.builds);
      PlanEffect(c, jobs, env);
    }
    IndexGrows(c, jobs, r.scheduler, limit);
    ReplaceAllAsks(c, revision, jobs, env);
  }

  lemma IndexGrows(c: Controller, jobs: seq<JobDefinition>, after: Scheduler, limit: nat)
    requires Inv(c) && Bounded(c, limit) && Built(jobs) && Distinct(Ids(jobs)) && Stands(c, jobs, after)
    ensures forall id :: id in IndexAfter(c, jobs, after) ==> IndexAfter(c, jobs, after)[id].generation <= limit + 2
  {
    IndexAfterFacts(c, jobs, after);
    forall id | id in IndexAfter(c, jobs, after) ensures IndexAfter(c, jobs, after)[id].generation <= limit + 2 {
      var d := ListedJob(jobs, id);
      assert Settled(c, d, after);
      if id in c.owned { assert AgreesOn(c, id); }
    }
  }

  lemma {:induction false} DisableEachGrows(c: Controller, ids: seq<JobId>, limit: nat)
    requires Agrees(c) && Distinct(ids) && Elements(ids) <= c.owned.Keys && Room(c) && Bounded(c, limit)
    ensures Bounded(DisableEach(c, ids).controller, limit + 1)
  {
    forall id | id in ids ensures c.owned[id].generation < U64_MAX { assert id in Elements(ids); }
    DisableEachGoesThrough(c, ids);
  }

  lemma StepGrows(c: Controller, e: Event, limit: nat)
    requires Inv(c) && Room(c) && Admissible(c, e) && Bounded(c, limit)
    ensures Bounded(Step(c, e), limit + 2)
  {
    match e {
      case Receive(command, env) => ExecuteGrows(c, command.action, env, limit);
      case ChangePolicy(change, saved, order) =>
        var applied := ApplyChange(c.policy, change, saved);
        if applied.Ok? {
          var changed := c.(policy := applied.value);
          DeniedIdsFacts(changed, order);
          assert forall id :: AgreesOn(c, id) == AgreesOn(changed, id);
          DisableEachGrows(changed, DeniedIds(changed, order), limit);
        }
      case Pause(key, order) =>
        PluginIdsFacts(c, key, order);
        DisableEachGrows(c, PluginIds(c, key, order), limit);
      case Resume(_) =>
      case Clear(order) => ClearKeeps(c, order);
      case World(_) =>
    }
  }

  /** Agreement and policy in every reachable state: from an empty controller, whatever the commands,
      policy changes, pauses and clears, every owned Job is in the Scheduler at its recorded generation
      and none that the policy refuses is enabled. The length bound only keeps 64-bit versions from
      running out: no generation exceeds twice the number of steps. */
  lemma {:induction false} AgreementInEveryState(policy: RemoteJobPolicy, scheduler: Scheduler, events: seq<Event>)
    requires AdmissibleRun(InitialController(policy, scheduler), events)
    requires 2 * |events| + 2 <= U64_MAX
    ensures var c := Run(InitialController(policy, scheduler), events);
            Inv(c) && Bounded(c, 2 * |events|)
    decreases |events|
  {
    var start := InitialController(policy, scheduler);
    if events != [] {
      var n := |events| - 1;
      var before := events[..n];
      assert forall i :: 0 <= i < n ==> before[..i] == events[..i];
      assert AdmissibleRun(start, before);
      AgreementInEveryState(policy, scheduler, before);
      var c := Run(start, before);
      assert Admissible(c, events[n]);
      StepKeeps(c, events[n]);
      StepGrows(c, events[n], 2 * n);
    }
  }
}
