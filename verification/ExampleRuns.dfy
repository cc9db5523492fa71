/** Short runs from an empty controller in which the exceptions of the controller's laws occur. */
module ExampleRuns {
  import opened Basics
  import opened Scheduling
  import opened Definitions
  import opened JobPolicy
  import opened RemoteJobs
  import opened Agreement
  import opened Runs
  import opened Drift
  import opened TornSnapshots

  // ----- updates that keep what an installation would not have -----

  /** The sample Job with another trigger; its options leave coalescing and capacity open. */
  function Revised(revision: nat, schedule: Schedule, misfire: MisfirePolicy): JobDefinition {
    SampleJob(SampleId(1), schedule).(revision := revision, trigger := Some(Trigger(schedule, misfire, None)))
  }

  const LOSSY: JobDefinition := Revised(1, Interval(1, None), Skip)
  const LOSSLESS: JobDefinition := Revised(2, Once(0), Skip)
  const CATCHING_UP: JobDefinition := Revised(2, Interval(1, None), CatchUp(0))

  function Upserted(c: Controller, revision: nat, d: JobDefinition): Outcome {
    Execute(c, Some(Upsert(revision, Some(d))), SampleEnv([]))
  }

  /** A Job installed with lossy queue policies and then made a one-time Job keeps them, where a fresh installation
      of the same definition has lossless ones. */
  lemma UpdateKeepsCapacity()
    ensures var o := Upserted(Upserted(SampleStart(), 1, LOSSY).controller, 2, LOSSLESS);
            var anew := Upserted(SampleStart(), 1, LOSSLESS);
            var id := SampleId(1);
            && o.verdict.Applied? && anew.verdict.Applied?
            && id in o.controller.scheduler.jobs && id in anew.controller.scheduler.jobs
            && o.controller.scheduler.jobs[id].capacity == ReplaceOldestTrigger
            && anew.controller.scheduler.jobs[id].capacity == Backpressure
  {
    assert ParseUuid(SampleId(1)).Some?;
    assert LOSSY.trigger.value.schedule.Interval? && LOSSLESS.trigger.value.schedule.Once?;
  }

  /** And one made to catch up is refused, where a fresh installation is accepted. */
  lemma CatchUpRefusedOnce()
    ensures !Upserted(Upserted(SampleStart(), 1, LOSSY).controller, 2, CATCHING_UP).verdict.Applied?
    ensures Upserted(SampleStart(), 1, CATCHING_UP).verdict.Applied?
  {
    assert ParseUuid(SampleId(1)).Some?;
    var one := Upserted(SampleStart(), 1, LOSSY).controller;
    assert SampleId(1) in one.owned && one.scheduler.jobs[SampleId(1)].capacity == ReplaceOldestTrigger;
  }

  // ----- an automatic disable and then a policy change -----

  const FIRST: JobDefinition := SampleJob(SampleId(1), Once(0))
  const SECOND: JobDefinition := SampleJob(SampleId(2), Once(0))

  /** One more Job is installed. */
  lemma InstallsOne(c: Controller, b: byte)
    requires c.scheduler.limits == SAMPLE_LIMITS && |c.scheduler.jobs| < 8 && !c.policy.denyAll && c.policy.denied == {}
    requires SampleId(b) !in c.owned && SampleId(b) !in c.scheduler.jobs
    ensures var d := SampleJob(SampleId(b), Once(0));
            var after := Upserted(c, c.catalogRevision + 1, d).controller;
            after == WithJob(c, SampleId(b), Manage(d, 1), FreshFor(d, 1, Enabled), c.catalogRevision + 1)
  {
    assert ParseUuid(SampleId(b)).Some?;
  }

  /** Both Jobs installed. */
  function BothInstalled(): Controller {
    Upserted(Upserted(SampleStart(), 1, FIRST).controller, 2, SECOND).controller
  }

  lemma TwoInstalled()
    ensures var c := BothInstalled();
            && SampleId(1) != SampleId(2) && Walks([SampleId(1), SampleId(2)], c) && c.policy == SampleStart().policy
            && AgreesOn(c, SampleId(1)) && AgreesOn(c, SampleId(2)) && c.scheduler.jobs[SampleId(2)].state.Enabled?
  {
    assert SampleId(1)[0] != SampleId(2)[0];
    InstallsOne(SampleStart(), 1);
    var one := Upserted(SampleStart(), 1, FIRST).controller;
    assert one.scheduler.jobs.Keys == {SampleId(1)};
    MapSize(one.scheduler.jobs);
    InstallsOne(one, 2);
    var c := BothInstalled();
    assert c.owned.Keys == {SampleId(1), SampleId(2)} && Elements([SampleId(1), SampleId(2)]) == c.owned.Keys;
  }

  /** The Scheduler has disabled the first Job by itself. */
  function FirstDisabled(): Controller
    requires SampleId(1) in BothInstalled().scheduler.jobs
  {
    Step(BothInstalled(), World(AutoDisabled(BothInstalled().scheduler, SampleId(1))))
  }

  lemma DisabledFacts(c: Controller, after: Controller)
    requires AgreesOn(c, SampleId(1)) && AgreesOn(c, SampleId(2)) && SampleId(1) != SampleId(2)
    requires after == c.(scheduler := AutoDisabled(c.scheduler, SampleId(1)))
    ensures Drifted(after, SampleId(1)) && after.owned == c.owned && after.policy == c.policy
    ensures SampleId(2) in after.scheduler.jobs && after.scheduler.jobs[SampleId(2)] == c.scheduler.jobs[SampleId(2)]
  {
  }

  /** Then everything is forbidden: the policy is saved, the change is reported as failed, and the other Job goes
      on running. */
  lemma ForbiddenGoesOn()
    ensures SampleId(1) in BothInstalled().scheduler.jobs
            && var e := UpdatePolicy(FirstDisabled(), DenyAll, true, [SampleId(1), SampleId(2)]);
               && !e.ok && e.controller.policy != BothInstalled().policy && SampleId(2) in e.controller.scheduler.jobs
               && e.controller.scheduler.jobs[SampleId(2)].state.Enabled? && !PolicyHolds(e.controller)
  {
    TwoInstalled();
    DisabledFacts(BothInstalled(), FirstDisabled());
    DriftBreaksPolicy(FirstDisabled(), DenyAll, [SampleId(1), SampleId(2)], 0, 1);
  }
}
