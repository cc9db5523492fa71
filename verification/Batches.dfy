/** What a batch reconcile does whatever versions are left: an entry never falls back, and a batch that
    reports success has done all of its plan. */
module Batches {
  import opened Basics
  import opened Scheduling
  import opened Reconciliation

  /** `id` has left, or its entry is the same, or its version is higher. */
  ghost predicate Advances(before: map<JobId, JobEntry>, after: map<JobId, JobEntry>, id: JobId) {
    id in after ==> id in before && (after[id] == before[id] || after[id].version > before[id].version)
  }

  lemma CommitUpdateAdvances(s: Scheduler, u: Update, id: JobId)
    ensures Advances(s.jobs, CommitUpdate(s, u).scheduler.jobs, id)
    ensures CommitUpdate(s, u).scheduler.limits == s.limits
  {
  }

  lemma {:induction false} UpdatesAdvance(s: Scheduler, updates: seq<Update>, id: JobId)
    ensures Advances(s.jobs, CommitUpdates(s, updates).scheduler.jobs, id)
    ensures CommitUpdates(s, updates).scheduler.limits == s.limits
    decreases |updates|
  {
    if updates != [] {
      CommitUpdateAdvances(s, updates[0], id);
      if CommitUpdate(s, updates[0]).error.None? {
        UpdatesAdvance(CommitUpdate(s, updates[0]).scheduler, updates[1..], id);
      }
    }
  }

  lemma {:induction false} DeletionsAdvance(s: Scheduler, deletions: seq<Deletion>, id: JobId)
    ensures Advances(s.jobs, CommitDeletions(s, deletions).scheduler.jobs, id)
    ensures CommitDeletions(s, deletions).scheduler.limits == s.limits
    decreases |deletions|
  {
    if deletions != [] {
      var deleted := DeleteJob(s, deletions[0].id, deletions[0].expected);
      if deleted.Ok? { DeletionsAdvance(deleted.value, deletions[1..], id); }
    }
  }

  lemma {:induction false} AdditionsAdvance(s: Scheduler, additions: seq<Addition>, id: JobId)
    requires id !in AdditionIds(additions)
    ensures Advances(s.jobs, CommitAdditions(s, additions).scheduler.jobs, id)
    decreases |additions|
  {
    if additions != [] {
      var a := additions[0];
      assert AdditionIds(additions)[0] == a.id && AdditionIds(additions[1..]) == AdditionIds(additions)[1..];
      var added := AddJob(s, a.id, 1, a.enabled, a.trigger, a.task, a.options);
      if added.Ok? { AdditionsAdvance(added.value, additions[1..], id); }
    }
  }

  lemma AdvancesTwice(a: map<JobId, JobEntry>, b: map<JobId, JobEntry>, c: map<JobId, JobEntry>, id: JobId)
    requires Advances(a, b, id) && Advances(b, c, id)
    ensures Advances(a, c, id)
  {
  }

  /** Whether a batch succeeds, is refused or stops half way, no Job it does not add falls back. */
  lemma ReconcileAdvances(s: Scheduler, plan: ReconcilePlan, id: JobId)
    requires id !in AdditionIds(plan.additions)
    ensures Advances(s.jobs, Reconcile(s, plan).scheduler.jobs, id)
  {
    if Preflight(s, plan).None? {
      var updated := CommitUpdates(s, plan.updates);
      UpdatesAdvance(s, plan.updates, id);
      if updated.error.None? {
        var deleted := CommitDeletions(updated.scheduler, plan.deletions);
        DeletionsAdvance(updated.scheduler, plan.deletions, id);
        AdvancesTwice(s.jobs, updated.scheduler.jobs, deleted.scheduler.jobs, id);
        if deleted.error.None? {
          AdditionsAdvance(deleted.scheduler, plan.additions, id);
          AdvancesTwice(s.jobs, deleted.scheduler.jobs, Reconcile(s, plan).scheduler.jobs, id);
        }
      }
    }
  }

  // ----- a batch that succeeds -----

  lemma CommitUpdateDone(s: Scheduler, u: Update)
    requires CommitUpdate(s, u).error.None?
    ensures u.id in s.jobs && s.jobs[u.id].version == u.expected
    ensures CommitUpdate(s, u).scheduler == s.(jobs := s.jobs[u.id := EntryAfter(s.jobs[u.id], u)])
  {
    var patched := UpdateJob(s, u.id, u.expected, u.patch).value;
    var after := s.jobs[u.id := EntryAfter(s.jobs[u.id], u)];
    assert patched.jobs[u.id := EntryAfter(s.jobs[u.id], u)] == after;
  }

  lemma {:induction false} UpdatesDone(s: Scheduler, updates: seq<Update>)
    requires Distinct(UpdateIds(updates)) && CommitUpdates(s, updates).error.None?
    ensures UpdatedAll(s.jobs, updates, CommitUpdates(s, updates).scheduler.jobs)
    decreases |updates|
  {
    if updates != [] {
      var u, rest := updates[0], updates[1..];
      var ids := UpdateIds(updates);
      assert UpdateIds(rest) == ids[1..] && u.id == ids[0] && u.id !in ids[1..];
      CommitUpdateDone(s, u);
      UpdatesDone(CommitUpdate(s, u).scheduler, rest);
      UpdatedOneMore(s.jobs, u, rest, CommitUpdates(s, updates).scheduler.jobs);
      assert updates == [u] + rest;
    }
  }

  lemma {:induction false} DeletionsDone(s: Scheduler, deletions: seq<Deletion>)
    requires CommitDeletions(s, deletions).error.None?
    ensures CommitDeletions(s, deletions).scheduler == s.(jobs := s.jobs - Elements(DeletionIds(deletions)))
    decreases |deletions|
  {
    var ids := DeletionIds(deletions);
    if deletions == [] {
      assert s.jobs - Elements(ids) == s.jobs;
    } else {
      assert ids[0] == deletions[0].id && DeletionIds(deletions[1..]) == ids[1..];
      DeletionsDone(s.(jobs := s.jobs - {ids[0]}), deletions[1..]);
      assert Elements(ids) == {ids[0]} + Elements(ids[1..]);
      assert s.jobs - Elements(ids) == s.jobs - {ids[0]} - Elements(ids[1..]);
    }
  }

  lemma {:induction false} AdditionsDone(s: Scheduler, additions: seq<Addition>)
    requires CommitAdditions(s, additions).error.None?
    ensures AddedAll(s.jobs, additions, CommitAdditions(s, additions).scheduler.jobs)
    decreases |additions|
  {
    if additions == [] {
      assert AdditionIds(additions) == [];
    } else {
      var a := additions[0];
      AdditionsDone(AddJob(s, a.id, 1, a.enabled, a.trigger, a.task, a.options).value, additions[1..]);
      AddedAllStep(s.jobs, additions, CommitAdditions(s, additions).scheduler.jobs);
    }
  }

  /** A batch that reports success has applied every update, made every deletion and installed every addition,
      and has left every other Job alone. */
  lemma ReconcileDone(s: Scheduler, plan: ReconcilePlan)
    requires Reconcile(s, plan).error.None?
    ensures Committed(s, plan, plan.additions, Reconcile(s, plan).scheduler)
  {
    PlanParts(s, plan);
    UpdatesAccepted(s, plan.updates, Elements(DeletionIds(plan.deletions)));
    UpdatesDone(s, plan.updates);
    var updated := CommitUpdates(s, plan.updates).scheduler;
    TrimUpdated(s.jobs, plan, updated.jobs);
    DeletionsDone(updated, plan.deletions);
    var trimmed := CommitDeletions(updated, plan.deletions).scheduler;
    AdditionsDone(trimmed, plan.additions);
    assert Reconcile(s, plan).scheduler.limits == s.limits by { LimitsStay(s, plan); }
    PutTogether(s, plan, trimmed.jobs, Reconcile(s, plan).scheduler);
  }

  lemma PutTogether(s: Scheduler, plan: ReconcilePlan, trimmed: map<JobId, JobEntry>, after: Scheduler)
    requires UpdatedAndTrimmed(s.jobs, plan, trimmed) && AddedAll(trimmed, plan.additions, after.jobs)
    requires after.limits == s.limits
    ensures Committed(s, plan, plan.additions, after)
  {
    forall id | id in s.jobs && id !in DeletionIds(plan.deletions) ensures id in trimmed {
      assert id !in Elements(DeletionIds(plan.deletions));
    }
  }

  lemma {:induction false} AdditionsKeepLimits(s: Scheduler, additions: seq<Addition>)
    ensures CommitAdditions(s, additions).scheduler.limits == s.limits
    decreases |additions|
  {
    if additions != [] {
      var a := additions[0];
      var added := AddJob(s, a.id, 1, a.enabled, a.trigger, a.task, a.options);
      if added.Ok? { AdditionsKeepLimits(added.value, additions[1..]); }
    }
  }

  lemma LimitsStay(s: Scheduler, plan: ReconcilePlan)
    ensures Reconcile(s, plan).scheduler.limits == s.limits
  {
    UpdatesAdvance(s, plan.updates, []);
    var updated := CommitUpdates(s, plan.updates).scheduler;
    DeletionsAdvance(updated, plan.deletions, []);
    AdditionsKeepLimits(CommitDeletions(updated, plan.deletions).scheduler, plan.additions);
  }
}
