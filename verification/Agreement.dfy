/** Controller and Scheduler agree: every owned Job is in the Scheduler at its recorded generation,
    local Jobs are never touched, a refused command changes nothing, and no owned Job that the policy
    refuses is enabled. */
module Agreement {
  import opened Basics
  import opened Scheduling
  import opened Definitions
  import opened JobPolicy
  import opened RemoteJobs

  ghost predicate AgreesOn(c: Controller, id: JobId) {
    id in c.owned && id in c.scheduler.jobs && c.scheduler.jobs[id].version == c.owned[id].generation
  }

  /** Each owned Job exists in the Scheduler with the version the index remembers. */
  ghost predicate Agrees(c: Controller) {
    forall id :: id in c.owned ==> AgreesOn(c, id)
  }

  ghost predicate WellManaged(id: JobId, m: ManagedJob) {
    && |id| == 16 && m.definition.jobId == id
    && m.definition.trigger.Some? && KindOf(m.definition) == Some(m.taskKind)
    && m.revision == m.definition.revision && m.revision > 0
    && m.plugin == PluginOf(m.definition)
  }

  ghost predicate WellFormed(c: Controller) {
    forall id :: id in c.owned ==> WellManaged(id, c.owned[id])
  }

  /** No owned Job of a refused kind is enabled. */
  ghost predicate PolicyHolds(c: Controller) {
    forall id :: id in c.owned && id in c.scheduler.jobs && DeniesKind(c.policy, c.owned[id].taskKind) ==>
      !c.scheduler.jobs[id].state.Enabled?
  }

  ghost predicate Inv(c: Controller) {
    Agrees(c) && WellFormed(c) && PolicyHolds(c)
  }

  /** Every recorded generation still has room for two version steps. */
  ghost predicate Room(c: Controller) {
    forall id :: id in c.owned ==> c.owned[id].generation + 2 <= U64_MAX
  }

  /** The Jobs the controller does not own. */
  ghost function Local(c: Controller): map<JobId, JobEntry> {
    c.scheduler.jobs - c.owned.Keys
  }

  /** `order` walks the owned Jobs, each once. */
  ghost predicate Walks(order: seq<JobId>, c: Controller) {
    Distinct(order) && Elements(order) == c.owned.Keys
  }

  // ----- increments -----

  /** `c` with one Job's index entry and Scheduler entry replaced, at catalog revision `revision`. */
  function WithJob(c: Controller, id: JobId, m: ManagedJob, entry: JobEntry, revision: nat): Controller {
    c.(catalogRevision := revision,
       owned := c.owned[id := m],
       scheduler := c.scheduler.(jobs := c.scheduler.jobs[id := entry]))
  }

  /** Replacing one owned or new Job by a matching pair keeps everything. */
  lemma WithJobKeeps(c: Controller, id: JobId, m: ManagedJob, entry: JobEntry, revision: nat)
    requires Inv(c) && WellManaged(id, m) && entry.version == m.generation
    requires id in c.owned || id !in c.scheduler.jobs
    requires DeniesKind(c.policy, m.taskKind) ==> !entry.state.Enabled?
    ensures var after := WithJob(c, id, m, entry, revision);
            Inv(after) && Local(after) == Local(c)
  {
    var after := WithJob(c, id, m, entry, revision);
    forall other | other in after.owned && other != id
      ensures AgreesOn(after, other) && WellManaged(other, after.owned[other])
    {
      assert AgreesOn(c, other);
    }
    assert Local(after) == Local(c);
  }

  /** The patch of an owned Job is accepted at the last but one version, and its lifecycle state has to move
      as well: the second request then finds no version left. */
  predicate UpsertTears(c: Controller, d: JobDefinition)
    requires d.trigger.Some? && KindOf(d).Some?
  {
    && d.jobId in c.owned && d.revision > c.owned[d.jobId].revision
    && UpdateError(c.scheduler, d.jobId, c.owned[d.jobId].generation, FullPatch(d)).None?
    && c.owned[d.jobId].generation == U64_MAX - 1
    && c.scheduler.jobs[d.jobId].state != (if d.enabled then Enabled else Disabled)
  }

  /** An upsert of an owned Job is all or nothing, unless it tears; then the Scheduler alone has moved on. */
  lemma UpsertOwned(c: Controller, d: JobDefinition) returns (entry: JobEntry)
    requires Inv(c) && d.trigger.Some? && KindOf(d).Some? && d.jobId in c.owned
    ensures var o := UpsertCompiled(c, d);
            if o.verdict.Applied? then
              && o.controller == WithJob(c, d.jobId, Manage(d, entry.version), entry, c.catalogRevision)
              && entry.state.Enabled? == d.enabled
              && c.owned[d.jobId].generation < entry.version <= c.owned[d.jobId].generation + 2
            else if UpsertTears(c, d) then
              && o.controller == c.(scheduler := c.scheduler.(jobs := c.scheduler.jobs[d.jobId := entry]))
              && entry.version == c.owned[d.jobId].generation + 1
            else o.controller == c
    ensures UpsertTears(c, d) ==> !UpsertCompiled(c, d).verdict.Applied?
  {
    var id := d.jobId;
    assert AgreesOn(c, id);
    entry := c.scheduler.jobs[id];
    var updated := UpdateJob(c.scheduler, id, c.owned[id].generation, FullPatch(d));
    if updated.Ok? {
      var patched := updated.value;
      assert Fires(patched.jobs[id].trigger, patched.limits);
      var moved := SetEnabled(patched, id, d.enabled);
      entry := if moved.Ok? then moved.value.jobs[id] else patched.jobs[id];
      assert moved.Ok? ==> moved.value.jobs == c.scheduler.jobs[id := entry];
    }
  }

  /** An upsert of an unknown id installs it at version 1, and only when the id is free. */
  lemma UpsertNew(c: Controller, d: JobDefinition) returns (entry: JobEntry)
    requires d.trigger.Some? && KindOf(d).Some? && d.jobId !in c.owned
    ensures var o := UpsertCompiled(c, d);
            if o.verdict.Applied? then
              && d.jobId !in c.scheduler.jobs
              && o.controller == WithJob(c, d.jobId, Manage(d, 1), entry, c.catalogRevision)
              && entry.state.Enabled? == d.enabled && entry.version == 1
            else o.controller == c
  {
    entry := FreshEntry(1, d.enabled, d.trigger.value, BindingOf(d), d.options);
  }

  /** The command carries an upsert that gets as far as the Scheduler and tears there. */
  predicate UpsertBreaks(c: Controller, revision: nat, job: Option<JobDefinition>, builds: JobDefinition -> bool) {
    && revision == c.catalogRevision + 1 && job.Some? && !DeniesDefinition(c.policy, job.value)
    && Compiles(job.value, builds)
    && UpsertTears(c, job.value)
  }

  /** An upsert keeps agreement and policy, and leaves no trace when refused, exactly unless it tears; local
      Jobs are never touched. */
  lemma UpsertKeeps(c: Controller, revision: nat, job: Option<JobDefinition>, builds: JobDefinition -> bool)
    requires Inv(c)
    ensures var o := ApplyUpsert(c, revision, job, builds);
            && (Inv(o.controller) <==> !UpsertBreaks(c, revision, job, builds))
            && (!o.verdict.Applied? ==> (o.controller == c <==> !UpsertBreaks(c, revision, job, builds)))
            && Local(o.controller) == Local(c)
  {
    if && revision == c.catalogRevision + 1 && job.Some? && !DeniesDefinition(c.policy, job.value)
       && Compiles(job.value, builds) {
      var d := job.value;
      if d.jobId in c.owned {
        var entry := UpsertOwned(c, d);
        OwnedUpsertKeeps(c, revision, d, entry, ApplyUpsert(c, revision, job, builds));
      } else {
        var entry := UpsertNew(c, d);
        if UpsertCompiled(c, d).verdict.Applied? {
          WithJobKeeps(c, d.jobId, Manage(d, entry.version), entry, revision);
        }
      }
    }
  }

  lemma OwnedUpsertKeeps(c: Controller, revision: nat, d: JobDefinition, entry: JobEntry, o: Outcome)
    requires Inv(c) && |d.jobId| == 16 && d.revision > 0 && d.trigger.Some? && KindOf(d).Some? && d.jobId in c.owned
    requires !DeniesDefinition(c.policy, d)
    requires if o.verdict.Applied? then
               && o.controller == WithJob(c, d.jobId, Manage(d, entry.version), entry, revision)
               && entry.state.Enabled? == d.enabled
             else if UpsertTears(c, d) then
               && o.controller == c.(scheduler := c.scheduler.(jobs := c.scheduler.jobs[d.jobId := entry]))
               && entry.version == c.owned[d.jobId].generation + 1
             else o.controller == c
    requires UpsertTears(c, d) ==> !o.verdict.Applied?
    ensures Inv(o.controller) <==> !UpsertTears(c, d)
    ensures !o.verdict.Applied? ==> (o.controller == c <==> !UpsertTears(c, d))
    ensures Local(o.controller) == Local(c)
  {
    assert AgreesOn(c, d.jobId);
    if o.verdict.Applied? {
      WithJobKeeps(c, d.jobId, Manage(d, entry.version), entry, revision);
    } else if UpsertTears(c, d) {
      assert !AgreesOn(o.controller, d.jobId);
      assert Local(o.controller) == Local(c);
    }
  }

  lemma DeleteKeeps(c: Controller, revision: nat, jobId: Bytes, expected: nat)
    requires Inv(c)
    ensures var o := ApplyDelete(c, revision, jobId, expected);
            && (!o.verdict.Applied? ==> o.controller == c)
            && Inv(o.controller) && Local(o.controller) == Local(c)
  {
    var o := ApplyDelete(c, revision, jobId, expected);
    if o.verdict.Applied? {
      assert forall id :: id in o.controller.owned ==> AgreesOn(c, id) && WellManaged(id, c.owned[id]);
      assert Local(o.controller) == Local(c);
    }
  }

  /** An immediate run changes no definition, no Job revision and not the catalog revision; it moves one Job
      one version up, on both sides, and otherwise leaves its entry alone. */
  lemma RunNowKeeps(c: Controller, jobId: Bytes, expected: nat)
    requires Inv(c)
    ensures var o := ApplyRunNow(c, jobId, expected);
            && (!o.verdict.Applied? ==> o.controller == c)
            && Inv(o.controller) && Local(o.controller) == Local(c)
            && (o.verdict.Applied? ==>
                  && jobId in c.owned && jobId in c.scheduler.jobs
                  && var next := c.owned[jobId].generation + 1;
                     o.controller == WithJob(c, jobId, c.owned[jobId].(generation := next),
                                             c.scheduler.jobs[jobId].(version := next), c.catalogRevision))
  {
    var o := ApplyRunNow(c, jobId, expected);
    if o.verdict.Applied? {
      assert AgreesOn(c, jobId);
      var entry := c.scheduler.jobs[jobId];
      assert PatchedEntry(entry, RUN_NOW_PATCH) == entry.(version := entry.version + 1);
      WithJobKeeps(c, jobId, o.controller.owned[jobId], entry.(version := entry.version + 1), c.catalogRevision);
    }
  }

  // ----- the plan of an authoritative snapshot -----

  ghost predicate Changes(owned: map<JobId, ManagedJob>, d: JobDefinition) {
    d.jobId in owned && owned[d.jobId].definition != d
  }

  lemma {:induction false} PlanUpdatesMembers(owned: map<JobId, ManagedJob>, jobs: seq<JobDefinition>)
    requires Built(jobs)
    ensures forall d :: d in jobs && Changes(owned, d) ==> UpdateFor(owned, d) in PlanUpdates(owned, jobs)
    ensures forall u :: u in PlanUpdates(owned, jobs) ==>
              exists d :: d in jobs && Changes(owned, d) && u == UpdateFor(owned, d)
  {
    if jobs != [] {
      assert Built(jobs[1..]);
      PlanUpdatesMembers(owned, jobs[1..]);
      forall u | u in PlanUpdates(owned, jobs)
        ensures exists d :: d in jobs && Changes(owned, d) && u == UpdateFor(owned, d)
      {
        if u in PlanUpdates(owned, jobs[1..]) {
          var d :| d in jobs[1..] && Changes(owned, d) && u == UpdateFor(owned, d);
          assert d in jobs;
        } else {
          assert jobs[0] in jobs && Changes(owned, jobs[0]);
        }
      }
    }
  }

  lemma {:induction false} PlanAdditionsMembers(owned: map<JobId, ManagedJob>, jobs: seq<JobDefinition>)
    requires Built(jobs)
    ensures forall d :: d in jobs && d.jobId !in owned ==> AdditionFor(d) in PlanAdditions(owned, jobs)
    ensures forall a :: a in PlanAdditions(owned, jobs) ==>
              exists d :: d in jobs && d.jobId !in owned && a == AdditionFor(d)
  {
    if jobs != [] {
      assert Built(jobs[1..]);
      PlanAdditionsMembers(owned, jobs[1..]);
      forall a | a in PlanAdditions(owned, jobs)
        ensures exists d :: d in jobs && d.jobId !in owned && a == AdditionFor(d)
      {
        if a in PlanAdditions(owned, jobs[1..]) {
          var d :| d in jobs[1..] && d.jobId !in owned && a == AdditionFor(d);
          assert d in jobs;
        } else {
          assert jobs[0] in jobs;
        }
      }
    }
  }

  lemma {:induction false} PlanDeletionsMembers(owned: map<JobId, ManagedJob>, keep: set<JobId>, order: seq<JobId>)
    ensures forall id :: id in order && id in owned && id !in keep ==>
              Deletion(id, owned[id].generation) in PlanDeletions(owned, keep, order)
    ensures forall x :: x in PlanDeletions(owned, keep, order) ==>
              x.id in order && x.id in owned && x.id !in keep && x.expected == owned[x.id].generation
  {
    if order != [] {
      PlanDeletionsMembers(owned, keep, order[1..]);
    }
  }

  /** The ids a plan updates, adds and deletes, in terms of the index and the snapshot. */
  lemma PlanIds(c: Controller, jobs: seq<JobDefinition>, order: seq<JobId>)
    requires Built(jobs) && Walks(order, c)
    ensures var plan := PlanFor(c, jobs, order);
            var ids := Elements(Ids(jobs));
            && (forall id :: id in Elements(UpdateIds(plan.updates)) <==>
                exists d :: d in jobs && d.jobId == id && Changes(c.owned, d))
            && Elements(AdditionIds(plan.additions)) == ids - c.owned.Keys
            && Elements(DeletionIds(plan.deletions)) == c.owned.Keys - ids
  {
    var plan := PlanFor(c, jobs, order);
    var ids := Elements(Ids(jobs));
    PlanUpdatesMembers(c.owned, jobs);
    PlanAdditionsMembers(c.owned, jobs);
    PlanDeletionsMembers(c.owned, ids, order);
    forall d | d in jobs ensures d.jobId in ids { JobIdListed(jobs, d); }
    forall id
      ensures id in Elements(UpdateIds(plan.updates)) <==> exists d :: d in jobs && d.jobId == id && Changes(c.owned, d)
    {
      if id in UpdateIds(plan.updates) {
        var i :| 0 <= i < |plan.updates| && UpdateIds(plan.updates)[i] == id;
        assert plan.updates[i] in plan.updates;
      }
      if exists d :: d in jobs && d.jobId == id && Changes(c.owned, d) {
        var d :| d in jobs && d.jobId == id && Changes(c.owned, d);
        var i :| 0 <= i < |plan.updates| && plan.updates[i] == UpdateFor(c.owned, d);
        assert UpdateIds(plan.updates)[i] == id;
      }
    }
    forall id ensures id in Elements(AdditionIds(plan.additions)) <==> id in ids - c.owned.Keys {
      if id in AdditionIds(plan.additions) {
        var i :| 0 <= i < |plan.additions| && AdditionIds(plan.additions)[i] == id;
        assert plan.additions[i] in plan.additions;
      }
      if id in ids && id !in c.owned {
        var d := ListedJob(jobs, id);
        var i :| 0 <= i < |plan.additions| && plan.additions[i] == AdditionFor(d);
        assert AdditionIds(plan.additions)[i] == id;
      }
    }
    forall id ensures id in Elements(DeletionIds(plan.deletions)) <==> id in c.owned.Keys - ids {
      if id in DeletionIds(plan.deletions) {
        var i :| 0 <= i < |plan.deletions| && DeletionIds(plan.deletions)[i] == id;
        assert plan.deletions[i] in plan.deletions;
      }
      if id in c.owned && id !in ids {
        assert id in Elements(order);
        var i :| 0 <= i < |plan.deletions| && plan.deletions[i] == Deletion(id, c.owned[id].generation);
        assert DeletionIds(plan.deletions)[i] == id;
      }
    }
  }

  lemma JobIdListed(jobs: seq<JobDefinition>, d: JobDefinition)
    requires d in jobs
    ensures d.jobId in Ids(jobs) && d.jobId in Elements(Ids(jobs))
  {
    var i :| 0 <= i < |jobs| && jobs[i] == d;
    assert Ids(jobs)[i] == d.jobId;
  }

  lemma ListedJob(jobs: seq<JobDefinition>, id: JobId) returns (d: JobDefinition)
    requires id in Elements(Ids(jobs))
    ensures d in jobs && d.jobId == id
  {
    var i :| 0 <= i < |Ids(jobs)| && Ids(jobs)[i] == id;
    d := jobs[i];
  }

  /** Distinct ids: one definition per id. */
  lemma SameJob(jobs: seq<JobDefinition>, d: JobDefinition, e: JobDefinition)
    requires Distinct(Ids(jobs)) && d in jobs && e in jobs && d.jobId == e.jobId
    ensures d == e
  {
    var i :| 0 <= i < |jobs| && jobs[i] == d;
    var j :| 0 <= j < |jobs| && jobs[j] == e;
    assert Ids(jobs)[i] == d.jobId && Ids(jobs)[j] == e.jobId;
  }

  /** The generation the new index records for `d`. */
  function GenerationAfter(c: Controller, d: JobDefinition, after: Scheduler): nat {
    if d.jobId in c.owned && c.owned[d.jobId].definition == d then c.owned[d.jobId].generation
    else VersionOf(after, d.jobId)
  }

  /** What the index says about one Job of the snapshot. */
  ghost predicate IndexedAs(index: map<JobId, ManagedJob>, c: Controller, d: JobDefinition, after: Scheduler) {
    d.jobId in index && KindOf(d).Some? && index[d.jobId] == Manage(d, GenerationAfter(c, d, after))
  }

  lemma IndexedInRest(jobs: seq<JobDefinition>, d: JobDefinition)
    requires jobs != [] && Built(jobs) && Distinct(Ids(jobs)) && d in jobs
    ensures d == jobs[|jobs| - 1] || (d in jobs[..|jobs| - 1] && d.jobId != jobs[|jobs| - 1].jobId)
  {
    var last := jobs[|jobs| - 1];
    if d.jobId == last.jobId {
      assert last in jobs;
      SameJob(jobs, d, last);
    }
  }

  lemma {:induction false} IndexAfterFacts(c: Controller, jobs: seq<JobDefinition>, after: Scheduler)
    requires Built(jobs) && Distinct(Ids(jobs))
    ensures IndexAfter(c, jobs, after).Keys == Elements(Ids(jobs))
    ensures forall d :: d in jobs ==> IndexedAs(IndexAfter(c, jobs, after), c, d, after)
  {
    if jobs != [] {
      var n := |jobs| - 1;
      var rest, last := jobs[..n], jobs[n];
      assert Built(rest);
      assert Ids(rest) == Ids(jobs)[..n];
      assert Ids(jobs) == Ids(rest) + [last.jobId];
      IndexAfterFacts(c, rest, after);
      assert Elements(Ids(jobs)) == Elements(Ids(rest)) + {last.jobId};
      forall d | d in jobs ensures IndexedAs(IndexAfter(c, jobs, after), c, d, after) {
        IndexedInRest(jobs, d);
      }
    }
  }
}
