/** Which verdict an authoritative snapshot gets, told from the fields of its definitions, the index and the
    Scheduler's table; and what that means for Job revisions over whole runs. */
module SnapshotGates {
  import opened Basics
  import opened Scheduling
  import opened Definitions
  import opened JobPolicy
  import opened RemoteJobs
  import opened Agreement
  import opened Snapshots
  import opened Configurations
  import opened CommandVerdicts
  import opened Runs

  // ----- the definitions, one by one -----

  /** What is wrong with definition `i`, if anything: no UUID, or one that came before; a refused kind; not
      complete, or not to be built. */
  ghost function Flaw(jobs: seq<JobDefinition>, i: nat, policy: RemoteJobPolicy,
                      builds: JobDefinition -> bool): Option<ErrorCode>
    requires i < |jobs|
  {
    if |jobs[i].jobId| != 16 || (exists j :: 0 <= j < i && jobs[j].jobId == jobs[i].jobId) then Some(InvalidJob)
    else if Refuses(policy, jobs[i]) then Some(LocalPolicyDenied)
    else if !Complete(jobs[i]) || !builds(jobs[i]) then Some(InvalidJob)
    else None
  }

  /** `code` is the first flaw. */
  ghost predicate FirstFlaw(jobs: seq<JobDefinition>, policy: RemoteJobPolicy, builds: JobDefinition -> bool,
                            code: ErrorCode) {
    exists i :: 0 <= i < |jobs| && Flaw(jobs, i, policy, builds) == Some(code)
                && forall j :: 0 <= j < i ==> Flaw(jobs, j, policy, builds).None?
  }

  ghost predicate Flawless(jobs: seq<JobDefinition>, policy: RemoteJobPolicy, builds: JobDefinition -> bool) {
    forall i :: 0 <= i < |jobs| ==> Flaw(jobs, i, policy, builds).None?
  }

  lemma SeenSoFar(jobs: seq<JobDefinition>, k: nat)
    requires k < |jobs|
    ensures Elements(Ids(jobs[..k + 1])) == Elements(Ids(jobs[..k])) + {jobs[k].jobId}
    ensures jobs[k].jobId in Elements(Ids(jobs[..k])) <==> exists j :: 0 <= j < k && jobs[j].jobId == jobs[k].jobId
  {
    var before, more := Ids(jobs[..k]), Ids(jobs[..k + 1]);
    assert more == before + [jobs[k].jobId];
    forall j | 0 <= j < k ensures before[j] == jobs[j].jobId { }
  }

  lemma {:induction false} FirstInvalidFrom(jobs: seq<JobDefinition>, k: nat, policy: RemoteJobPolicy,
                                            builds: JobDefinition -> bool)
    requires k <= |jobs| && forall j :: 0 <= j < k ==> Flaw(jobs, j, policy, builds).None?
    ensures var found := FirstInvalid(jobs[k..], Elements(Ids(jobs[..k])), policy, builds);
            if found.None? then Flawless(jobs, policy, builds) else FirstFlaw(jobs, policy, builds, found.value)
    decreases |jobs| - k
  {
    if k < |jobs| {
      SeenSoFar(jobs, k);
      CompilesExact(jobs[k], builds, policy);
      assert jobs[k..][0] == jobs[k] && jobs[k..][1..] == jobs[k + 1..];
      if Flaw(jobs, k, policy, builds).None? { FirstInvalidFrom(jobs, k + 1, policy, builds); }
    }
  }

  lemma FirstInvalidExact(jobs: seq<JobDefinition>, policy: RemoteJobPolicy, builds: JobDefinition -> bool)
    ensures var found := FirstInvalid(jobs, {}, policy, builds);
            if found.None? then Flawless(jobs, policy, builds) else FirstFlaw(jobs, policy, builds, found.value)
  {
    assert jobs[0..] == jobs && Elements(Ids(jobs[..0])) == {};
    FirstInvalidFrom(jobs, 0, policy, builds);
  }

  // ----- agreement of index and table -----

  /** What is wrong with the `i`th Job of the walk: the Scheduler has lost it, or moved it. */
  ghost function Lapse(c: Controller, order: seq<JobId>, i: nat): Option<ErrorCode>
    requires i < |order|
  {
    if order[i] !in c.owned then None
    else if order[i] !in c.scheduler.jobs then Some(SchedulerUnavailable)
    else if c.scheduler.jobs[order[i]].version != c.owned[order[i]].generation then Some(RevisionConflict)
    else None
  }

  ghost predicate FirstLapse(c: Controller, order: seq<JobId>, code: ErrorCode) {
    exists i :: 0 <= i < |order| && Lapse(c, order, i) == Some(code)
                && forall j :: 0 <= j < i ==> Lapse(c, order, j).None?
  }

  ghost predicate InStep(c: Controller, order: seq<JobId>) {
    forall i :: 0 <= i < |order| ==> Lapse(c, order, i).None?
  }

  lemma {:induction false} FirstMismatchFrom(c: Controller, order: seq<JobId>, k: nat)
    requires k <= |order| && forall j :: 0 <= j < k ==> Lapse(c, order, j).None?
    ensures var found := FirstMismatch(c, order[k..]);
            if found.None? then InStep(c, order) else FirstLapse(c, order, found.value)
    decreases |order| - k
  {
    if k < |order| {
      assert order[k..][0] == order[k] && order[k..][1..] == order[k + 1..];
      if Lapse(c, order, k).None? { FirstMismatchFrom(c, order, k + 1); }
    }
  }

  lemma FirstMismatchExact(c: Controller, order: seq<JobId>)
    ensures var found := FirstMismatch(c, order);
            if found.None? then InStep(c, order) else FirstLapse(c, order, found.value)
  {
    assert order[0..] == order;
    FirstMismatchFrom(c, order, 0);
  }

  // ----- the remaining gates -----

  /** Some Job of the snapshot is someone else's. */
  ghost predicate Foreign(c: Controller, jobs: seq<JobDefinition>) {
    exists d :: d in jobs && d.jobId !in c.owned && d.jobId in c.scheduler.jobs
  }

  /** No Job revision goes back, and one that stays keeps its definition. */
  ghost predicate Forwards(c: Controller, jobs: seq<JobDefinition>) {
    forall d :: d in jobs && d.jobId in c.owned ==>
      && d.revision >= c.owned[d.jobId].revision
      && (d.revision == c.owned[d.jobId].revision ==> d == c.owned[d.jobId].definition)
  }

  lemma ClashesExact(c: Controller, jobs: seq<JobDefinition>)
    ensures OwnershipClash(c, jobs) <==> Foreign(c, jobs)
    ensures RevisionClash(c, jobs) <==> !Forwards(c, jobs)
  {
    if Foreign(c, jobs) {
      var d :| d in jobs && d.jobId !in c.owned && d.jobId in c.scheduler.jobs;
      var i :| 0 <= i < |jobs| && jobs[i] == d;
    }
    if !Forwards(c, jobs) {
      var d :| d in jobs && d.jobId in c.owned
               && (d.revision < c.owned[d.jobId].revision
                   || (d.revision == c.owned[d.jobId].revision && d != c.owned[d.jobId].definition));
      var i :| 0 <= i < |jobs| && jobs[i] == d;
    }
    if RevisionClash(c, jobs) {
      var i :| 0 <= i < |jobs| && jobs[i].jobId in c.owned
               && (jobs[i].revision < c.owned[jobs[i].jobId].revision
                   || (jobs[i].revision == c.owned[jobs[i].jobId].revision
                       && jobs[i] != c.owned[jobs[i].jobId].definition));
      assert jobs[i] in jobs;
    }
  }

  /** With every owned Job in the table and distinct ids, the count is that of the Jobs outside the index plus
      those of the snapshot. */
  lemma CountExact(c: Controller, jobs: seq<JobDefinition>, order: seq<JobId>)
    requires Walks(order, c) && InStep(c, order) && Distinct(Ids(jobs))
    ensures FinalJobCount(c, jobs) == |c.scheduler.jobs| - |c.owned| + |jobs|
  {
    forall id | id in c.owned ensures id in c.scheduler.jobs {
      assert id in Elements(order);
      var i :| 0 <= i < |order| && order[i] == id;
      assert Lapse(c, order, i).None?;
    }
    assert c.owned.Keys <= c.scheduler.jobs.Keys;
    SubsetSize(c.owned.Keys, c.scheduler.jobs.Keys);
    MapSize(c.owned);
    MapSize(c.scheduler.jobs);
    DistinctSize(Ids(jobs));
  }

  // ----- the verdict -----

  /** Every gate before the Scheduler is open. */
  ghost predicate Admitted(c: Controller, revision: nat, jobs: seq<JobDefinition>, env: Surroundings) {
    && revision > 0 && revision >= c.catalogRevision
    && Flawless(jobs, c.policy, env.builds) && InStep(c, env.order) && !Foreign(c, jobs)
    && |c.scheduler.jobs| - |c.owned| + |jobs| <= c.scheduler.limits.maxJobs
    && Forwards(c, jobs)
  }

  /** The first gate that is shut decides the refusal. */
  ghost predicate ShutOut(c: Controller, revision: nat, jobs: seq<JobDefinition>, env: Surroundings, v: Verdict) {
    if revision == 0 || revision < c.catalogRevision then v == Rejected(RevisionConflict)
    else if !Flawless(jobs, c.policy, env.builds) then
      v.Rejected? && FirstFlaw(jobs, c.policy, env.builds, v.code)
    else if !InStep(c, env.order) then v.Rejected? && FirstLapse(c, env.order, v.code)
    else if Foreign(c, jobs) then v == Rejected(OwnershipConflict)
    else if |c.scheduler.jobs| - |c.owned| + |jobs| > c.scheduler.limits.maxJobs then v == Rejected(CapacityExceeded)
    else v == Rejected(RevisionConflict)
  }

  lemma FlawIsNotFlawless(jobs: seq<JobDefinition>, policy: RemoteJobPolicy, builds: JobDefinition -> bool,
                          code: ErrorCode)
    ensures FirstFlaw(jobs, policy, builds, code) ==> !Flawless(jobs, policy, builds)
  {
  }

  lemma LapseIsNotInStep(c: Controller, order: seq<JobId>, code: ErrorCode)
    ensures FirstLapse(c, order, code) ==> !InStep(c, order)
  {
  }

  /** A snapshot is handed to the Scheduler exactly when every gate is open; otherwise it changes nothing and
      its verdict is that of the first gate that is shut. */
  lemma GatesDecide(c: Controller, revision: nat, jobs: seq<JobDefinition>, env: Surroundings)
    requires Walks(env.order, c)
    ensures var o := ApplyReplaceAll(c, revision, jobs, env);
            && (o.verdict.Applied? ==> Admitted(c, revision, jobs, env))
            && (!Admitted(c, revision, jobs, env) ==> o.controller == c && ShutOut(c, revision, jobs, env, o.verdict))
    ensures Admitted(c, revision, jobs, env)
            <==> revision != 0 && revision >= c.catalogRevision && Acceptable(c, jobs, env)
  {
    FirstInvalidExact(jobs, c.policy, env.builds);
    FirstMismatchExact(c, env.order);
    ClashesExact(c, jobs);
    var flaw, lapse := FirstInvalid(jobs, {}, c.policy, env.builds), FirstMismatch(c, env.order);
    if flaw.Some? {
      FlawIsNotFlawless(jobs, c.policy, env.builds, flaw.value);
    } else if lapse.Some? {
      LapseIsNotInStep(c, env.order, lapse.value);
    } else {
      ValidJobs(jobs, {}, c.policy, env.builds);
      CountExact(c, jobs, env.order);
    }
  }

  // ----- Job revisions over runs -----

  /** The revision of `id` has not gone back, and if it has not moved, neither has the definition. */
  ghost predicate Onward(c: Controller, id: JobId, after: Controller) {
    id in c.owned && id in after.owned ==>
      && after.owned[id].revision >= c.owned[id].revision
      && (after.owned[id].revision == c.owned[id].revision ==> after.owned[id].definition == c.owned[id].definition)
  }

  lemma UpsertOnward(c: Controller, revision: nat, job: Option<JobDefinition>, builds: JobDefinition -> bool, id: JobId)
    ensures Onward(c, id, ApplyUpsert(c, revision, job, builds).controller)
  {
    var o := ApplyUpsert(c, revision, job, builds);
    if o.verdict.Applied? {
      UpsertInstalls(c, revision, job, builds);
      if id != job.value.jobId && id in o.controller.owned {
        assert id in (o.controller.owned - {job.value.jobId});
      }
    }
  }

  lemma SnapshotOnward(c: Controller, revision: nat, jobs: seq<JobDefinition>, env: Surroundings, id: JobId)
    ensures Onward(c, id, ApplyReplaceAll(c, revision, jobs, env).controller)
  {
    var o := ApplyReplaceAll(c, revision, jobs, env);
    if o.verdict.Applied? && id in o.controller.owned {
      ClashesExact(c, jobs);
      SnapshotInstalls(c, revision, jobs, env);
      var d := ListedJob(jobs, id);
      assert Placed(c, d, o.controller);
    }
  }

  lemma {:induction false} DisableEachOnward(c: Controller, ids: seq<JobId>, id: JobId)
    ensures Onward(c, id, DisableEach(c, ids).controller)
    decreases |ids|
  {
    if ids != [] {
      if ids[0] !in c.owned {
        DisableEachOnward(c, ids[1..], id);
      } else {
        var disabled := DisableJob(c.scheduler, ids[0], c.owned[ids[0]].generation);
        if disabled.Ok? {
          var moved := c.owned[ids[0]].(generation := VersionOf(disabled.value, ids[0]));
          DisableEachOnward(c.(scheduler := disabled.value, owned := c.owned[ids[0] := moved]), ids[1..], id);
        }
      }
    }
  }

  lemma {:induction false} DeleteEachOnward(c: Controller, order: seq<JobId>, id: JobId)
    ensures Onward(c, id, DeleteEach(c, order).controller)
    ensures id in DeleteEach(c, order).controller.owned ==> id in c.owned
    decreases |order|
  {
    if order != [] {
      if order[0] !in c.owned {
        DeleteEachOnward(c, order[1..], id);
      } else {
        var deleted := DeleteJob(c.scheduler, order[0], c.owned[order[0]].generation);
        if deleted.Ok? {
          DeleteEachOnward(c.(scheduler := deleted.value, owned := c.owned - {order[0]}), order[1..], id);
        }
      }
    }
  }

  lemma StepOnward(c: Controller, e: Event, id: JobId)
    ensures Onward(c, id, Step(c, e))
  {
    match e {
      case Receive(command, env) =>
        match command.action {
          case Some(Upsert(revision, job)) => UpsertOnward(c, revision, job, env.builds, id);
          case Some(ReplaceAll(revision, jobs)) => SnapshotOnward(c, revision, jobs, env, id);
          case _ =>
        }
      case ChangePolicy(change, saved, order) =>
        var applied := ApplyChange(c.policy, change, saved);
        if applied.Ok? {
          var changed := c.(policy := applied.value);
          DisableEachOnward(changed, DeniedIds(changed, order), id);
        }
      case Pause(key, order) => DisableEachOnward(c, PluginIds(c, key, order), id);
      case Resume(_) =>
      case Clear(order) => DeleteEachOnward(c, order, id);
      case World(_) =>
    }
  }

  /** Over any run, whatever the commands and whatever the Scheduler does: while a Job stays owned, its revision
      never falls, and a different definition comes only with a higher revision. */
  lemma {:induction false} RevisionsMoveOnward(c: Controller, id: JobId, events: seq<Event>)
    requires forall i :: 0 <= i <= |events| ==> id in Run(c, events[..i]).owned
    ensures Onward(c, id, Run(c, events))
    decreases |events|
  {
    if events != [] {
      var n := |events| - 1;
      var before := events[..n];
      forall i | 0 <= i <= n ensures id in Run(c, before[..i]).owned { assert before[..i] == events[..i]; }
      RevisionsMoveOnward(c, id, before);
      assert id in Run(c, events[..n]).owned;
      StepOnward(Run(c, before), events[n], id);
    }
  }
}
