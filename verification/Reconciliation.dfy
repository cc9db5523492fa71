/** What a batch reconcile does to the Job table, and exactly when it is all-or-nothing. */
module Reconciliation {
  import opened Basics
  import opened Scheduling

  /** The entry an accepted update leaves behind. */
  function EntryAfter(entry: JobEntry, u: Update): JobEntry {
    var patched := PatchedEntry(entry, u.patch);
    if u.enabled == patched.state.Enabled? then patched
    else patched.(version := patched.version + 1, state := if u.enabled then Enabled else Disabled)
  }

  /** Every update recalculates its schedule and has room for two version steps. */
  ghost predicate Roomy(s: Scheduler, updates: seq<Update>) {
    forall u :: u in updates ==>
      u.patch.reschedule.Recalculate? && (u.id in s.jobs ==> s.jobs[u.id].version + 2 <= U64_MAX)
  }

  ghost predicate AllFire(additions: seq<Addition>, limits: Limits) {
    forall a :: a in additions ==> Fires(a.trigger, limits)
  }

  ghost predicate AgreeOutside(s: Scheduler, t: Scheduler, touched: set<JobId>) {
    && s.limits == t.limits
    && (forall id :: id !in touched ==> (id in s.jobs <==> id in t.jobs))
    && (forall id :: id !in touched && id in s.jobs ==> s.jobs[id] == t.jobs[id])
  }

  // ----- updates -----

  lemma CommitUpdateEffect(s: Scheduler, u: Update)
    requires UpdateError(s, u.id, u.expected, u.patch).None?
    requires u.patch.reschedule.Recalculate? && s.jobs[u.id].version + 2 <= U64_MAX
    ensures CommitUpdate(s, u) == Reconciled(s.(jobs := s.jobs[u.id := EntryAfter(s.jobs[u.id], u)]), None)
  {
    var patched := UpdateJob(s, u.id, u.expected, u.patch).value;
    var after := s.jobs[u.id := EntryAfter(s.jobs[u.id], u)];
    assert patched.jobs[u.id := EntryAfter(s.jobs[u.id], u)] == after;
  }

  lemma {:induction false} UpdatesErrorFrame(s: Scheduler, t: Scheduler, updates: seq<Update>, touched: set<JobId>)
    requires AgreeOutside(s, t, touched)
    ensures UpdatesError(s, updates, touched) == UpdatesError(t, updates, touched)
    decreases |updates|
  {
    if updates != [] && updates[0].id !in touched {
      UpdatesErrorFrame(s, t, updates[1..], touched + {updates[0].id});
    }
  }

  lemma {:induction false} UpdatesAccepted(s: Scheduler, updates: seq<Update>, touched: set<JobId>)
    requires UpdatesError(s, updates, touched).None?
    ensures Distinct(UpdateIds(updates))
    ensures forall u :: u in updates ==> u.id !in touched && UpdateError(s, u.id, u.expected, u.patch).None?
    decreases |updates|
  {
    if updates != [] {
      UpdatesAccepted(s, updates[1..], touched + {updates[0].id});
      var ids := UpdateIds(updates);
      forall i, j | 0 <= i < j < |ids| ensures ids[i] != ids[j] {
        assert updates[j] == updates[1..][j - 1] && updates[j] in updates[1..];
        if i > 0 {
          assert UpdateIds(updates[1..])[i - 1] == ids[i] && UpdateIds(updates[1..])[j - 1] == ids[j];
        }
      }
    }
  }

  /** `after` is `before` with every update applied and no other entry changed. */
  ghost predicate UpdatedAll(before: map<JobId, JobEntry>, updates: seq<Update>, after: map<JobId, JobEntry>) {
    && after.Keys == before.Keys
    && (forall u :: u in updates ==> u.id in before && after[u.id] == EntryAfter(before[u.id], u))
    && (forall id :: id in before && id !in UpdateIds(updates) ==> after[id] == before[id])
  }

  lemma UpdatedOneMore(before: map<JobId, JobEntry>, u: Update, rest: seq<Update>, after: map<JobId, JobEntry>)
    requires u.id in before && u.id !in UpdateIds(rest)
    requires UpdatedAll(before[u.id := EntryAfter(before[u.id], u)], rest, after)
    ensures UpdatedAll(before, [u] + rest, after)
  {
    var updates := [u] + rest;
    var mid := before[u.id := EntryAfter(before[u.id], u)];
    assert UpdateIds(updates) == [u.id] + UpdateIds(rest);
    forall v | v in updates ensures v.id in before && after[v.id] == EntryAfter(before[v.id], v) {
      if v in rest {
        var i :| 0 <= i < |rest| && rest[i] == v;
        assert UpdateIds(rest)[i] == v.id;
      } else {
        assert v == u && after[u.id] == mid[u.id];
      }
    }
  }

  lemma {:induction false} UpdatesEffect(s: Scheduler, updates: seq<Update>, touched: set<JobId>)
    requires UpdatesError(s, updates, touched).None? && Roomy(s, updates)
    ensures var r := CommitUpdates(s, updates);
            r.error.None? && r.scheduler.limits == s.limits && UpdatedAll(s.jobs, updates, r.scheduler.jobs)
    decreases |updates|
  {
    if updates != [] {
      var u, rest := updates[0], updates[1..];
      CommitUpdateEffect(s, u);
      var t := CommitUpdate(s, u).scheduler;
      UpdatesErrorFrame(s, t, rest, touched + {u.id});
      UpdatesAccepted(s, rest, touched + {u.id});
      assert u.id !in UpdateIds(rest) by {
        assert forall i :: 0 <= i < |rest| ==> rest[i] in rest && rest[i].id !in touched + {u.id};
      }
      assert Roomy(t, rest);
      UpdatesEffect(t, rest, touched + {u.id});
      UpdatedOneMore(s.jobs, u, rest, CommitUpdates(s, updates).scheduler.jobs);
      assert updates == [u] + rest;
    }
  }

  // ----- deletions -----

  lemma {:induction false} DeletionsEffect(s: Scheduler, t: Scheduler, deletions: seq<Deletion>)
    requires DeletionsError(s, deletions).None? && Distinct(DeletionIds(deletions))
    requires t.limits == s.limits
    requires forall id :: id in DeletionIds(deletions) && id in s.jobs ==> id in t.jobs && t.jobs[id] == s.jobs[id]
    ensures var r := CommitDeletions(t, deletions);
            r == Reconciled(t.(jobs := t.jobs - Elements(DeletionIds(deletions))), None)
    ensures forall id :: id in DeletionIds(deletions) ==> id in t.jobs
    decreases |deletions|
  {
    var ids := DeletionIds(deletions);
    if deletions == [] {
      assert t.jobs - Elements(ids) == t.jobs;
    } else {
      var first, rest := deletions[0], deletions[1..];
      assert ids[0] == first.id && DeletionIds(rest) == ids[1..];
      var after := t.(jobs := t.jobs - {first.id});
      forall id | id in ids[1..] && id in s.jobs ensures id in after.jobs && after.jobs[id] == s.jobs[id] {
        assert id in ids && id != first.id;
      }
      DeletionsEffect(s, after, rest);
      assert Elements(ids) == {first.id} + Elements(ids[1..]);
      assert t.jobs - Elements(ids) == after.jobs - Elements(ids[1..]);
      forall id | id in ids ensures id in t.jobs {
        if id != first.id { assert id in ids[1..]; }
      }
    }
  }

  // ----- additions -----

  lemma {:induction false} AdditionsAccepted(s: Scheduler, additions: seq<Addition>, touched: set<JobId>)
    requires AdditionsError(s, additions, touched).None?
    ensures Distinct(AdditionIds(additions))
    ensures forall a :: a in additions ==> a.id !in touched && AdditionError(s, a).None?
    decreases |additions|
  {
    if additions != [] {
      AdditionsAccepted(s, additions[1..], touched + {additions[0].id});
      var ids := AdditionIds(additions);
      forall i, j | 0 <= i < j < |ids| ensures ids[i] != ids[j] {
        assert additions[j] == additions[1..][j - 1] && additions[j] in additions[1..];
        if i > 0 {
          assert AdditionIds(additions[1..])[i - 1] == ids[i] && AdditionIds(additions[1..])[j - 1] == ids[j];
        }
      }
    }
  }

  function Installed(a: Addition): JobEntry {
    FreshEntry(1, a.enabled, a.trigger, a.task, a.options)
  }

  /** New ids, each valid on its own, with room for all of them. */
  ghost predicate Addable(t: Scheduler, additions: seq<Addition>) {
    && Distinct(AdditionIds(additions))
    && |t.jobs| + |additions| <= t.limits.maxJobs
    && (forall a :: a in additions ==> AdditionError(t, a).None?)
  }

  lemma AddableTail(t: Scheduler, additions: seq<Addition>)
    requires additions != [] && Addable(t, additions) && Fires(additions[0].trigger, t.limits)
    ensures var a := additions[0];
            var after := t.(jobs := t.jobs[a.id := Installed(a)]);
            && a.id !in t.jobs
            && Addable(after, additions[1..])
            && CommitAdditions(t, additions) == CommitAdditions(after, additions[1..])
  {
    var a := additions[0];
    var after := t.(jobs := t.jobs[a.id := Installed(a)]);
    assert a in additions;
    assert a.id !in t.jobs;
    assert after.jobs.Keys == t.jobs.Keys + {a.id};
    assert |after.jobs.Keys| == |t.jobs.Keys| + 1;
    var ids := AdditionIds(additions);
    forall i, j | 0 <= i < j < |additions[1..]|
      ensures AdditionIds(additions[1..])[i] != AdditionIds(additions[1..])[j]
    {
      assert ids[i + 1] != ids[j + 1];
    }
    forall b | b in additions[1..] ensures AdditionError(after, b).None? {
      var i :| 0 <= i < |additions[1..]| && additions[1..][i] == b;
      assert ids[0] != ids[i + 1];
      assert b in additions;
    }
  }

  lemma AdditionIdsTail(additions: seq<Addition>)
    requires additions != []
    ensures Elements(AdditionIds(additions)) == {additions[0].id} + Elements(AdditionIds(additions[1..]))
  {
    var ids := AdditionIds(additions);
    assert AdditionIds(additions[1..]) == ids[1..];
    assert ids == [additions[0].id] + ids[1..];
  }

  /** `after` is `t` with all of `additions` installed. */
  ghost predicate AddedAll(t: map<JobId, JobEntry>, additions: seq<Addition>, after: map<JobId, JobEntry>) {
    && after.Keys == t.Keys + Elements(AdditionIds(additions))
    && (forall a :: a in additions ==> a.id in after && after[a.id] == Installed(a))
    && (forall id :: id in t ==> after[id] == t[id])
  }

  lemma AddedAllStep(t: map<JobId, JobEntry>, additions: seq<Addition>, after: map<JobId, JobEntry>)
    requires additions != [] && additions[0].id !in t
    requires AddedAll(t[additions[0].id := Installed(additions[0])], additions[1..], after)
    ensures AddedAll(t, additions, after)
  {
    AdditionIdsTail(additions);
    forall a | a in additions ensures a.id in after && after[a.id] == Installed(a) {
      if a != additions[0] { assert a in additions[1..]; }
    }
  }

  /** The additions before the first one whose trigger has no future occurrence. */
  function FiringPrefix(additions: seq<Addition>, limits: Limits): (prefix: seq<Addition>)
    ensures prefix <= additions
    ensures forall a :: a in prefix ==> Fires(a.trigger, limits)
    ensures prefix < additions ==> !Fires(additions[|prefix|].trigger, limits)
  {
    if additions == [] || !Fires(additions[0].trigger, limits) then []
    else [additions[0]] + FiringPrefix(additions[1..], limits)
  }

  lemma WholePrefix(additions: seq<Addition>, limits: Limits)
    ensures FiringPrefix(additions, limits) == additions <==> AllFire(additions, limits)
  {
    var prefix := FiringPrefix(additions, limits);
    if prefix < additions {
      assert additions[|prefix|] in additions;
    }
  }

  /** Additions are installed in order up to the first trigger without a future occurrence; that one fails
      the batch, the ones before it stay, and no old entry changes. */
  lemma {:induction false} AdditionsStop(t: Scheduler, additions: seq<Addition>)
    requires Addable(t, additions)
    ensures var r := CommitAdditions(t, additions);
            && r.error == (if AllFire(additions, t.limits) then None else Some(InvalidTrigger))
            && r.scheduler.limits == t.limits
            && AddedAll(t.jobs, FiringPrefix(additions, t.limits), r.scheduler.jobs)
    decreases |additions|
  {
    if additions == [] {
      assert AdditionIds(FiringPrefix(additions, t.limits)) == [];
    } else if Fires(additions[0].trigger, t.limits) {
      var a, rest := additions[0], additions[1..];
      AddableTail(t, additions);
      AdditionsStop(t.(jobs := t.jobs[a.id := Installed(a)]), rest);
      assert AllFire(additions, t.limits) <==> AllFire(rest, t.limits) by {
        assert forall x :: x in additions <==> x == a || x in rest;
      }
      var prefix := FiringPrefix(additions, t.limits);
      assert prefix[1..] == FiringPrefix(rest, t.limits);
      AddedAllStep(t.jobs, prefix, CommitAdditions(t, additions).scheduler.jobs);
    } else {
      StopsAtOnce(t, additions);
      assert additions[0] in additions;
      assert AdditionIds(FiringPrefix(additions, t.limits)) == [];
    }
  }

  /** With every trigger firing, all additions are installed and nothing else changes. */
  lemma AdditionsEffect(t: Scheduler, additions: seq<Addition>)
    requires Addable(t, additions) && AllFire(additions, t.limits)
    ensures var r := CommitAdditions(t, additions);
            r.error.None? && r.scheduler.limits == t.limits && AddedAll(t.jobs, additions, r.scheduler.jobs)
  {
    AdditionsStop(t, additions);
    WholePrefix(additions, t.limits);
  }

  lemma StopsAtOnce(t: Scheduler, additions: seq<Addition>)
    requires additions != [] && Addable(t, additions) && !Fires(additions[0].trigger, t.limits)
    ensures CommitAdditions(t, additions) == Reconciled(t, Some(InvalidTrigger))
  {
    assert additions[0] in additions;
    assert AdditionError(t, additions[0]).None?;
  }

  // ----- the whole batch -----

  /** The parts of a plan that passed its checks fit together. */
  lemma PlanParts(s: Scheduler, plan: ReconcilePlan)
    requires Preflight(s, plan).None?
    ensures var deleted, updated, added :=
              Elements(DeletionIds(plan.deletions)), Elements(UpdateIds(plan.updates)),
                  Elements(AdditionIds(plan.additions));
            && deleted !! updated && deleted !! added && updated !! added
            && Distinct(DeletionIds(plan.deletions)) && Distinct(AdditionIds(plan.additions))
            && (forall id :: id in updated ==> id in s.jobs)
            && (forall id :: id in added ==> id !in s.jobs)
  {
    var deletedIds, updatedIds, addedIds :=
      DeletionIds(plan.deletions), UpdateIds(plan.updates), AdditionIds(plan.additions);
    UpdatesAccepted(s, plan.updates, Elements(deletedIds));
    AdditionsAccepted(s, plan.additions, Elements(deletedIds) + Elements(updatedIds));
    SizeMeansDistinct(deletedIds);
    forall id | id in updatedIds ensures id in s.jobs && id !in deletedIds {
      var i :| 0 <= i < |updatedIds| && updatedIds[i] == id;
      assert plan.updates[i] in plan.updates;
      assert id !in Elements(deletedIds);
    }
    forall id | id in addedIds ensures id !in s.jobs && id !in deletedIds && id !in updatedIds {
      var i :| 0 <= i < |addedIds| && addedIds[i] == id;
      assert plan.additions[i] in plan.additions;
      assert id !in Elements(deletedIds) + Elements(updatedIds);
      assert id in updatedIds ==> id in Elements(updatedIds);
    }
  }

  lemma {:induction false} SizeMeansDistinct<T>(xs: seq<T>)
    requires |Elements(xs)| == |xs|
    ensures Distinct(xs)
  {
    if xs != [] {
      assert Elements(xs) == {xs[0]} + Elements(xs[1..]);
      ElementsSize(xs[1..]);
      assert xs[0] !in Elements(xs[1..]);
      SizeMeansDistinct(xs[1..]);
      assert forall j :: 1 <= j < |xs| ==> xs[j] == xs[1..][j - 1];
    }
  }

  lemma {:induction false} ElementsSize<T>(xs: seq<T>)
    ensures |Elements(xs)| <= |xs|
  {
    if xs != [] {
      ElementsSize(xs[1..]);
      assert Elements(xs) == {xs[0]} + Elements(xs[1..]);
    }
  }

  /** `after` is `s` with the updates applied and the deletions gone. */
  ghost predicate UpdatedAndTrimmed(s: map<JobId, JobEntry>, plan: ReconcilePlan, after: map<JobId, JobEntry>) {
    && after.Keys == s.Keys - Elements(DeletionIds(plan.deletions))
    && (forall u :: u in plan.updates ==> u.id in after && u.id in s && after[u.id] == EntryAfter(s[u.id], u))
    && (forall id :: id in after && id !in UpdateIds(plan.updates) ==> after[id] == s[id])
  }

  lemma TrimUpdated(s: map<JobId, JobEntry>, plan: ReconcilePlan, updated: map<JobId, JobEntry>)
    requires UpdatedAll(s, plan.updates, updated)
    requires Elements(DeletionIds(plan.deletions)) !! Elements(UpdateIds(plan.updates))
    ensures UpdatedAndTrimmed(s, plan, updated - Elements(DeletionIds(plan.deletions)))
    ensures forall id :: id in DeletionIds(plan.deletions) && id in s ==> id in updated && updated[id] == s[id]
  {
    var deletedIds := DeletionIds(plan.deletions);
    forall id | id in deletedIds && id in s ensures id in updated && updated[id] == s[id] {
      assert id in Elements(deletedIds);
      assert id !in Elements(UpdateIds(plan.updates));
    }
    forall u | u in plan.updates ensures u.id !in Elements(deletedIds) {
      var i :| 0 <= i < |plan.updates| && plan.updates[i] == u;
      assert UpdateIds(plan.updates)[i] == u.id;
      assert u.id in Elements(UpdateIds(plan.updates));
    }
  }

  /** The table between the deletions and the additions. */
  lemma AfterDeletions(s: Scheduler, plan: ReconcilePlan) returns (t: Scheduler)
    requires Preflight(s, plan).None? && Roomy(s, plan.updates)
    ensures t.limits == s.limits && UpdatedAndTrimmed(s.jobs, plan, t.jobs)
    ensures Elements(DeletionIds(plan.deletions)) <= s.jobs.Keys
    ensures Addable(t, plan.additions)
    ensures Reconcile(s, plan) == CommitAdditions(t, plan.additions)
  {
    PlanParts(s, plan);
    var deleted := Elements(DeletionIds(plan.deletions));
    UpdatesEffect(s, plan.updates, deleted);
    var updated := CommitUpdates(s, plan.updates).scheduler;
    TrimUpdated(s.jobs, plan, updated.jobs);
    DeletionsEffect(s, updated, plan.deletions);
    t := updated.(jobs := updated.jobs - deleted);
    assert deleted <= s.jobs.Keys;
    RoomForAdditions(s, plan, t);
  }

  lemma RoomForAdditions(s: Scheduler, plan: ReconcilePlan, t: Scheduler)
    requires Preflight(s, plan).None? && t.limits == s.limits
    requires t.jobs.Keys == s.jobs.Keys - Elements(DeletionIds(plan.deletions))
    requires Elements(DeletionIds(plan.deletions)) <= s.jobs.Keys
    ensures Addable(t, plan.additions)
  {
    var deleted := Elements(DeletionIds(plan.deletions));
    AdditionsAccepted(s, plan.additions, deleted + Elements(UpdateIds(plan.updates)));
    SubsetSize(deleted, s.jobs.Keys);
    assert |t.jobs| == |t.jobs.Keys| && |s.jobs| == |s.jobs.Keys|;
    forall a | a in plan.additions ensures AdditionError(t, a).None? {
      assert AdditionError(s, a).None?;
    }
  }

  /** `after` is `s` with the updates applied, the deletions gone and `installed` added. */
  ghost predicate Committed(s: Scheduler, plan: ReconcilePlan, installed: seq<Addition>, after: Scheduler) {
    && after.limits == s.limits
    && after.jobs.Keys == s.jobs.Keys - Elements(DeletionIds(plan.deletions)) + Elements(AdditionIds(installed))
    && (forall u :: u in plan.updates ==>
        u.id in s.jobs && u.id in after.jobs && after.jobs[u.id] == EntryAfter(s.jobs[u.id], u))
    && (forall a :: a in installed ==> a.id in after.jobs && after.jobs[a.id] == Installed(a))
    && (forall id :: id in s.jobs && id !in DeletionIds(plan.deletions) && id !in UpdateIds(plan.updates) ==>
          id in after.jobs && after.jobs[id] == s.jobs[id])
  }

  /** What an accepted plan does, whether or not its new triggers fire: updated Jobs take their new entry,
      deleted ones leave, the additions before the first trigger without a future occurrence appear at
      version 1, and every other Job is untouched. It fails exactly when there is such a trigger. */
  lemma ReconcileCommits(s: Scheduler, plan: ReconcilePlan)
    requires Preflight(s, plan).None? && Roomy(s, plan.updates)
    ensures var r := Reconcile(s, plan);
            && r.error == (if AllFire(plan.additions, s.limits) then None else Some(InvalidTrigger))
            && Committed(s, plan, FiringPrefix(plan.additions, s.limits), r.scheduler)
    ensures Elements(DeletionIds(plan.deletions)) <= s.jobs.Keys
  {
    var t := AfterDeletions(s, plan);
    AdditionsStop(t, plan.additions);
    forall id | id in s.jobs && id !in DeletionIds(plan.deletions) ensures id in t.jobs {
      assert id !in Elements(DeletionIds(plan.deletions));
    }
  }

  /** An accepted plan whose new triggers all fire is applied in full. */
  lemma ReconcileApplies(s: Scheduler, plan: ReconcilePlan)
    requires Preflight(s, plan).None? && Roomy(s, plan.updates) && AllFire(plan.additions, s.limits)
    ensures Reconcile(s, plan).error.None? && Committed(s, plan, plan.additions, Reconcile(s, plan).scheduler)
  {
    ReconcileCommits(s, plan);
    WholePrefix(plan.additions, s.limits);
  }

  /** The batch is not all-or-nothing. With room for version steps it fails after its checks exactly
      when some new trigger has no future occurrence, and it then leaves the table as it was exactly
      when there was nothing to update or delete and the very first addition is the one that fails. */
  lemma ReconcileAtomicity(s: Scheduler, plan: ReconcilePlan)
    requires Preflight(s, plan).None? && Roomy(s, plan.updates)
    ensures var r := Reconcile(s, plan);
            && (r.error.Some? <==> !AllFire(plan.additions, s.limits))
            && (r.error.Some? ==>
                  && plan.additions != []
                  && (r.scheduler == s <==>
                        plan.updates == [] && plan.deletions == [] && !Fires(plan.additions[0].trigger, s.limits)))
  {
    ReconcileCommits(s, plan);
    if !AllFire(plan.additions, s.limits) {
      CommitShows(s, plan, Reconcile(s, plan).scheduler);
    }
  }

  lemma CommitShows(s: Scheduler, plan: ReconcilePlan, after: Scheduler)
    requires Preflight(s, plan).None? && Committed(s, plan, FiringPrefix(plan.additions, s.limits), after)
    requires Elements(DeletionIds(plan.deletions)) <= s.jobs.Keys && plan.additions != []
    ensures after == s <==> plan.updates == [] && plan.deletions == [] && !Fires(plan.additions[0].trigger, s.limits)
  {
    var prefix := FiringPrefix(plan.additions, s.limits);
    PlanParts(s, plan);
    PrefixIds(plan.additions, prefix);
    if plan.updates != [] {
      assert plan.updates[0] in plan.updates;
    } else if plan.deletions != [] {
      var id := DeletionIds(plan.deletions)[0];
      assert id in Elements(DeletionIds(plan.deletions));
    } else if prefix != [] {
      assert prefix[0] in prefix && AdditionIds(prefix)[0] == prefix[0].id;
      assert prefix[0].id in Elements(AdditionIds(prefix));
    } else {
      assert AdditionIds(prefix) == [] && DeletionIds(plan.deletions) == [];
      assert after.jobs == s.jobs;
    }
  }

  lemma PrefixIds(additions: seq<Addition>, prefix: seq<Addition>)
    requires prefix <= additions
    ensures Elements(AdditionIds(prefix)) <= Elements(AdditionIds(additions))
  {
    forall id | id in AdditionIds(prefix) ensures id in AdditionIds(additions) {
      var i :| 0 <= i < |prefix| && AdditionIds(prefix)[i] == id;
      assert AdditionIds(additions)[i] == id;
    }
  }
}
