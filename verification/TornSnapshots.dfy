/** What a torn snapshot leaves behind: Jobs out of step for good, and Jobs nobody owns. */
module TornSnapshots {
  import opened Basics
  import opened Scheduling
  import opened Reconciliation
  import opened Definitions
  import opened JobPolicy
  import opened RemoteJobs
  import opened Agreement
  import opened Snapshots
  import opened Runs
  import opened LocalJobs
  import opened Drift

  /** An owned Job that a stuck snapshot changed or dropped is out of step: it was moved on or removed, and
      the index still has the old generation. */
  lemma TearDrifts(c: Controller, revision: nat, jobs: seq<JobDefinition>, env: Surroundings, id: JobId)
    requires Inv(c) && Room(c) && Walks(env.order, c) && Sticks(c, revision, jobs, env) && id in c.owned
    ensures Drifted(ApplyReplaceAll(c, revision, jobs, env).controller, id) <==>
              id !in Elements(Ids(jobs)) || exists d :: d in jobs && d.jobId == id && Changes(c.owned, d)
  {
    ReplaceAllKeeps(c, revision, jobs, env);
    var after := ApplyReplaceAll(c, revision, jobs, env).controller;
    assert Distinct(Ids(jobs)) by { ValidJobs(jobs, {}, c.policy, env.builds); }
    StuckEntry(c, jobs, env.order, after, id);
    assert AgreesOn(c, id);
    if id in Elements(Ids(jobs)) {
      var d := ListedJob(jobs, id);
      forall e | e in jobs && e.jobId == id ensures e == d { SameJob(jobs, d, e); }
    }
  }

  /** So a tear that moved anything is final: after any further events no snapshot is applied and no clear
      succeeds. */
  lemma TearIsFinal(c: Controller, revision: nat, jobs: seq<JobDefinition>, env: Surroundings, events: seq<Event>)
    requires Inv(c) && Room(c) && Walks(env.order, c) && Sticks(c, revision, jobs, env) && Moves(c, jobs)
    requires PossibleRun(ApplyReplaceAll(c, revision, jobs, env).controller, events)
    ensures var now := Run(ApplyReplaceAll(c, revision, jobs, env).controller, events);
            && (forall r: nat, js: seq<JobDefinition>, e: Surroundings :: Walks(e.order, now) ==>
                  !ApplyReplaceAll(now, r, js, e).verdict.Applied?)
            && (forall order :: Walks(order, now) ==> !ClearRemoteJobs(now, order).ok)
  {
    var id: JobId;
    if d :| d in jobs && Changes(c.owned, d) {
      id := d.jobId;
    } else {
      id :| id in c.owned && id !in Elements(Ids(jobs));
    }
    TearDrifts(c, revision, jobs, env, id);
    DriftIsForever(ApplyReplaceAll(c, revision, jobs, env).controller, id, events);
  }

  /** A Job that was installed before the commit stuck belongs to nobody. */
  lemma TearOrphans(c: Controller, revision: nat, jobs: seq<JobDefinition>, env: Surroundings, a: Addition)
    requires Inv(c) && Room(c) && Walks(env.order, c) && Sticks(c, revision, jobs, env)
    requires a in FiringPrefix(PlanFor(c, jobs, env.order).additions, c.scheduler.limits)
    ensures var after := ApplyReplaceAll(c, revision, jobs, env).controller;
            IsLocal(after, a.id) && after.scheduler.jobs[a.id] == Installed(a) && !IsLocal(c, a.id)
  {
    ReplaceAllKeeps(c, revision, jobs, env);
    var plan := PlanFor(c, jobs, env.order);
    PlanAdditionsMembers(c.owned, jobs);
    assert a in plan.additions;
    var d :| d in jobs && d.jobId !in c.owned && a == AdditionFor(d);
    var i :| 0 <= i < |jobs| && jobs[i] == d;
  }

  /** A snapshot or an upsert that names a Job nobody owns is refused and changes nothing. */
  lemma OrphanRefuses(c: Controller, id: JobId, revision: nat, jobs: seq<JobDefinition>, env: Surroundings)
    requires IsLocal(c, id)
    ensures id in Ids(jobs) ==>
              && !ApplyReplaceAll(c, revision, jobs, env).verdict.Applied?
              && ApplyReplaceAll(c, revision, jobs, env).controller == c
    ensures forall d: JobDefinition :: d.jobId == id ==>
              && !ApplyUpsert(c, revision, Some(d), env.builds).verdict.Applied?
              && ApplyUpsert(c, revision, Some(d), env.builds).controller == c
  {
    if id in Ids(jobs) {
      var i :| 0 <= i < |Ids(jobs)| && Ids(jobs)[i] == id;
      assert jobs[i].jobId == id;
      assert OwnershipClash(c, jobs);
    }
  }

  /** And it stays that way: after any further events of the controller, every snapshot that lists the Job is
      refused, so the Server cannot get the catalog it wants. */
  lemma OrphanBlocks(c: Controller, revision: nat, jobs: seq<JobDefinition>, env: Surroundings, a: Addition,
                     events: seq<Event>)
    requires Inv(c) && Room(c) && Walks(env.order, c) && Sticks(c, revision, jobs, env)
    requires a in FiringPrefix(PlanFor(c, jobs, env.order).additions, c.scheduler.limits)
    requires forall e :: e in events ==> !e.World?
    ensures var now := Run(ApplyReplaceAll(c, revision, jobs, env).controller, events);
            forall r: nat, js: seq<JobDefinition>, e: Surroundings :: a.id in Ids(js) ==>
              !ApplyReplaceAll(now, r, js, e).verdict.Applied? && ApplyReplaceAll(now, r, js, e).controller == now
  {
    TearOrphans(c, revision, jobs, env, a);
    var after := ApplyReplaceAll(c, revision, jobs, env).controller;
    LocalJobsUntouched(after, events, a.id);
    var now := Run(after, events);
    forall r: nat, js: seq<JobDefinition>, e: Surroundings | a.id in Ids(js)
      ensures !ApplyReplaceAll(now, r, js, e).verdict.Applied? && ApplyReplaceAll(now, r, js, e).controller == now
    {
      OrphanRefuses(now, a.id, r, js, e);
    }
  }

  // ----- one torn snapshot, written out -----

  function SampleId(b: byte): JobId {
    seq(16, _ => b)
  }

  function SampleJob(id: JobId, schedule: Schedule): JobDefinition {
    JobDefinition(id, 1, true, Some(Trigger(schedule, Skip, None)),
                  JobOptions(None, None, 0, None, None, NoRetry, FailurePolicy(None, false, false)),
                  Some(Builtin([1], false, [])))
  }

  /** A cron expression that parses and never comes round. */
  const SAMPLE_LIMITS: Limits := Limits(8, 0, 0, 0, 0, _ => true, _ => false)
  const SAMPLE_KEPT: JobDefinition := SampleJob(SampleId(1), Once(0))
  const SAMPLE_NEW: JobDefinition := SampleJob(SampleId(2), Cron([], []))

  function SampleEnv(order: seq<JobId>): Surroundings {
    Surroundings(_ => true, order)
  }

  function SampleStart(): Controller {
    InitialController(RemoteJobPolicy(0, false, {}), Scheduler(map[], SAMPLE_LIMITS))
  }

  /** The controller after the Server has installed the first Job. */
  function SampleController(): Controller {
    var id := SampleId(1);
    SampleStart().(catalogRevision := 1, owned := map[id := Manage(SAMPLE_KEPT, 1)],
                   scheduler := Scheduler(map[id := Installed(AdditionFor(SAMPLE_KEPT))], SAMPLE_LIMITS))
  }

  lemma SampleReached()
    ensures Execute(SampleStart(), Some(Upsert(1, Some(SAMPLE_KEPT))), SampleEnv([])).controller == SampleController()
  {
    assert ParseUuid(SampleId(1)).Some?;
    assert TriggerError(SAMPLE_KEPT.trigger.value, SAMPLE_KEPT.options, SAMPLE_LIMITS).None?;
  }

  lemma SampleInOrder()
    ensures Inv(SampleController()) && Room(SampleController()) && Walks([SampleId(1)], SampleController())
  {
  }

  lemma SamplePlan()
    ensures Built([SAMPLE_NEW]) && Elements(Ids([SAMPLE_NEW])) == {SampleId(2)} && SampleId(1) != SampleId(2)
    ensures PlanFor(SampleController(), [SAMPLE_NEW], [SampleId(1)])
            == ReconcilePlan([], [AdditionFor(SAMPLE_NEW)], [Deletion(SampleId(1), 1)])
  {
    assert SampleId(1)[0] != SampleId(2)[0];
    var owned, jobs, order := SampleController().owned, [SAMPLE_NEW], [SampleId(1)];
    assert Ids(jobs) == [SampleId(2)];
    assert Elements(Ids(jobs)) == {SampleId(2)};
    assert jobs[1..] == [] && order[1..] == [];
    assert PlanUpdates(owned, jobs) == [] && PlanAdditions(owned, jobs) == [AdditionFor(SAMPLE_NEW)];
    assert PlanDeletions(owned, {SampleId(2)}, order) == [Deletion(SampleId(1), 1)];
  }

  /** A plan that deletes one Job and adds another. */
  lemma SwapPasses(s: Scheduler, a: Addition, d: Deletion)
    requires AdditionError(s, a).None? && VersionError(s, d.id, d.expected).None? && |s.jobs| <= s.limits.maxJobs
    ensures Preflight(s, ReconcilePlan([], [a], [d])).None?
  {
    assert d.id in s.jobs.Keys && |s.jobs| == |s.jobs.Keys|;
    SubsetSize({d.id}, s.jobs.Keys);
    assert DeletionIds([d]) == [d.id];
    assert Elements(DeletionIds([d])) == {d.id};
    assert UpdateIds([]) == [];
    assert [a][1..] == [] && [d][1..] == [];
    assert AdditionsError(s, [a], {d.id} + Elements(UpdateIds([]))).None?;
    assert DeletionsError(s, [d]).None?;
  }

  lemma SampleAcceptable()
    ensures Acceptable(SampleController(), [SAMPLE_NEW], SampleEnv([SampleId(1)]))
  {
    var c, jobs, order := SampleController(), [SAMPLE_NEW], [SampleId(1)];
    SamplePlan();
    assert FirstInvalid(jobs, {}, c.policy, SampleEnv(order).builds).None? by { assert jobs[1..] == []; }
    assert FirstMismatch(c, order).None? by { assert order[1..] == []; }
    assert |c.scheduler.jobs| == 1 && |c.owned| == 1;
  }

  lemma SampleSticks()
    ensures Sticks(SampleController(), 2, [SAMPLE_NEW], SampleEnv([SampleId(1)]))
    ensures Moves(SampleController(), [SAMPLE_NEW])
  {
    var c, jobs := SampleController(), [SAMPLE_NEW];
    SamplePlan();
    SampleAcceptable();
    assert SampleId(1) in c.owned && SampleId(1) !in Elements(Ids(jobs));
    SwapPasses(c.scheduler, AdditionFor(SAMPLE_NEW), Deletion(SampleId(1), 1));
    assert SAMPLE_NEW in jobs && !Fires(SAMPLE_NEW.trigger.value, c.scheduler.limits);
  }

  /** A Job dropped by a stuck snapshot is gone from the Scheduler and still owned. */
  lemma TearDrops(c: Controller, revision: nat, jobs: seq<JobDefinition>, env: Surroundings, id: JobId)
    requires Inv(c) && Room(c) && Walks(env.order, c) && Sticks(c, revision, jobs, env)
    requires id in c.owned && id !in Elements(Ids(jobs))
    ensures var o := ApplyReplaceAll(c, revision, jobs, env);
            && o.verdict == Rejected(SchedulerUnavailable) && o.controller.catalogRevision == c.catalogRevision
            && id in o.controller.owned && id !in o.controller.scheduler.jobs && !Agrees(o.controller)
            && Tears(c, revision, jobs, env)
  {
    ReplaceAllKeeps(c, revision, jobs, env);
    ReplaceAllTears(c, revision, jobs, env);
    var after := ApplyReplaceAll(c, revision, jobs, env).controller;
    assert Distinct(Ids(jobs)) by { ValidJobs(jobs, {}, c.policy, env.builds); }
    StuckEntry(c, jobs, env.order, after, id);
    assert AgreesOn(c, id) && !AgreesOn(after, id);
  }

  /** The Server installs one Job and then replaces it by one whose cron expression never comes round. The
      snapshot is refused, the first Job is gone from the Scheduler, and the controller still owns it. */
  lemma TornSnapshotExists()
    ensures var c := Execute(SampleStart(), Some(Upsert(1, Some(SAMPLE_KEPT))), SampleEnv([])).controller;
            var env := SampleEnv([SampleId(1)]);
            var o := ApplyReplaceAll(c, 2, [SAMPLE_NEW], env);
            && Inv(c) && Tears(c, 2, [SAMPLE_NEW], env) && o.verdict == Rejected(SchedulerUnavailable)
            && SampleId(1) in o.controller.owned && SampleId(1) !in o.controller.scheduler.jobs && !Agrees(o.controller)
  {
    SampleReached();
    SampleInOrder();
    SamplePlan();
    SampleSticks();
    TearDrops(SampleController(), 2, [SAMPLE_NEW], SampleEnv([SampleId(1)]), SampleId(1));
  }
}
