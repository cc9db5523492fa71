/** The catalog as a replica of the Server's: commands may be lost, repeated and reordered, and the
    controller still holds exactly the Server's catalog at its own catalog revision. */
module Replication {
  import opened Basics
  import opened Ordering
  import opened Scheduling
  import opened Definitions
  import opened JobPolicy
  import opened RemoteJobs
  import opened Agreement
  import opened Snapshots
  import opened Runs

  type Catalog = map<JobId, JobDefinition>

  ghost function DefinitionsIn(index: map<JobId, ManagedJob>): Catalog {
    map id | id in index :: index[id].definition
  }

  ghost function CatalogOf(c: Controller): Catalog {
    DefinitionsIn(c.owned)
  }

  /** The Server's catalog at every revision; revision 0 is empty. */
  ghost predicate History(h: seq<Catalog>) {
    h != [] && h[0] == map[]
  }

  /** `m` holds exactly the definitions of `jobs`. */
  ghost predicate Describes(jobs: seq<JobDefinition>, m: Catalog) {
    && m.Keys == Elements(Ids(jobs))
    && forall d :: d in jobs ==> d.jobId in m && m[d.jobId] == d
  }

  /** Commands a Server with history `h` can have sent, now or at any other time: an increment says how
      one revision follows from the one before, a snapshot says what a revision is. */
  ghost predicate Sent(h: seq<Catalog>, action: Action) {
    match action
    case Upsert(r, job) => job.Some? ==> 0 < r < |h| && h[r] == h[r - 1][job.value.jobId := job.value]
    case Delete(r, jobId, _) => 0 < r < |h| && h[r] == h[r - 1] - {jobId}
    case RunJobNow(_, _) => true
    case ReplaceAll(r, jobs) => r < |h| && Describes(jobs, h[r])
  }

  /** The network delivers only sent commands, in any order and number; a clear succeeds or fails on the first Job
      it walks. Nothing is asked of the Scheduler. */
  ghost predicate Delivered(h: seq<Catalog>, c: Controller, e: Event) {
    match e
    case Receive(command, _) => command.action.Some? ==> Sent(h, command.action.value)
    case Clear(order) => Walks(order, c) && (ClearRemoteJobs(c, order).ok || (order != [] && !AgreesOn(c, order[0])))
    case _ => true
  }

  ghost predicate DeliveredRun(h: seq<Catalog>, c: Controller, events: seq<Event>) {
    forall i :: 0 <= i < |events| ==> Delivered(h, Run(c, events[..i]), events[i])
  }

  ghost predicate Replica(h: seq<Catalog>, c: Controller) {
    c.catalogRevision < |h| && CatalogOf(c) == h[c.catalogRevision]
  }

  // ----- one step -----

  lemma UpsertReplicates(h: seq<Catalog>, c: Controller, r: nat, job: Option<JobDefinition>,
                         builds: JobDefinition -> bool)
    requires Replica(h, c) && Sent(h, Upsert(r, job))
    ensures var after := ApplyUpsert(c, r, job, builds).controller;
            Replica(h, after) && after.catalogRevision >= c.catalogRevision
  {
    var o := ApplyUpsert(c, r, job, builds);
    if o.verdict.Applied? {
      assert CatalogOf(o.controller) == CatalogOf(c)[job.value.jobId := job.value];
    } else {
      assert CatalogOf(o.controller) == CatalogOf(c);
    }
  }

  lemma DeleteReplicates(h: seq<Catalog>, c: Controller, r: nat, jobId: Bytes, expected: nat)
    requires Replica(h, c) && Sent(h, Delete(r, jobId, expected))
    ensures var after := ApplyDelete(c, r, jobId, expected).controller;
            Replica(h, after) && after.catalogRevision >= c.catalogRevision
  {
    var o := ApplyDelete(c, r, jobId, expected);
    if o.verdict.Applied? {
      assert CatalogOf(o.controller) == CatalogOf(c) - {jobId};
    }
  }

  lemma RunNowReplicates(c: Controller, jobId: Bytes, expected: nat)
    ensures var after := ApplyRunNow(c, jobId, expected).controller;
            CatalogOf(after) == CatalogOf(c) && after.catalogRevision == c.catalogRevision
  {
  }

  lemma SnapshotUnique(jobs: seq<JobDefinition>, m: Catalog, n: Catalog)
    requires Describes(jobs, m) && Describes(jobs, n)
    ensures m == n
  {
    forall id | id in m ensures id in n && m[id] == n[id] {
      var d := ListedJob(jobs, id);
    }
  }

  lemma IndexIsSnapshot(c: Controller, jobs: seq<JobDefinition>, after: Scheduler)
    requires Built(jobs) && Distinct(Ids(jobs))
    ensures Describes(jobs, DefinitionsIn(IndexAfter(c, jobs, after)))
  {
    IndexAfterFacts(c, jobs, after);
  }

  /** Applied, the index lists exactly the snapshot's definitions, at its revision; refused, only the
      Scheduler may differ. */
  ghost predicate Installs(c: Controller, r: nat, jobs: seq<JobDefinition>, o: Outcome) {
    if o.verdict.Applied? then o.controller.catalogRevision == r && Describes(jobs, DefinitionsIn(o.controller.owned))
    else o.controller == c.(scheduler := o.controller.scheduler)
  }

  lemma OutcomeInstalls(c: Controller, r: nat, jobs: seq<JobDefinition>, answer: Reconciled)
    requires Built(jobs) && Distinct(Ids(jobs))
    ensures Installs(c, r, jobs, SnapshotOutcome(c, r, jobs, answer))
  {
    IndexIsSnapshot(c, jobs, answer.scheduler);
  }

  lemma ReplaceAllInstalls(c: Controller, r: nat, jobs: seq<JobDefinition>, env: Surroundings)
    ensures Installs(c, r, jobs, ApplyReplaceAll(c, r, jobs, env))
    ensures ApplyReplaceAll(c, r, jobs, env).verdict.Applied? ==> r >= c.catalogRevision
  {
    var o := ApplyReplaceAll(c, r, jobs, env);
    if r >= c.catalogRevision && Acceptable(c, jobs, env) && r != 0 {
      ValidJobs(jobs, {}, c.policy, env.builds);
      ReplaceAllAsks(c, r, jobs, env);
      OutcomeInstalls(c, r, jobs, Reconcile(c.scheduler, PlanFor(c, jobs, env.order)));
    } else {
      assert o.controller == c && !o.verdict.Applied?;
    }
  }

  lemma ReplaceAllReplicates(h: seq<Catalog>, c: Controller, r: nat, jobs: seq<JobDefinition>, env: Surroundings)
    requires Replica(h, c) && Sent(h, ReplaceAll(r, jobs))
    ensures var after := ApplyReplaceAll(c, r, jobs, env).controller;
            Replica(h, after) && after.catalogRevision >= c.catalogRevision
  {
    ReplaceAllInstalls(c, r, jobs, env);
    OutcomeReplicates(h, c, r, jobs, ApplyReplaceAll(c, r, jobs, env));
  }

  lemma OutcomeReplicates(h: seq<Catalog>, c: Controller, r: nat, jobs: seq<JobDefinition>, o: Outcome)
    requires Replica(h, c) && Sent(h, ReplaceAll(r, jobs)) && Installs(c, r, jobs, o)
    requires (o.verdict.Applied? ==> r >= c.catalogRevision)
    ensures Replica(h, o.controller) && o.controller.catalogRevision >= c.catalogRevision
  {
    if o.verdict.Applied? {
      SnapshotUnique(jobs, h[r], CatalogOf(o.controller));
    }
  }

  lemma {:induction false} DisableEachReplicates(c: Controller, ids: seq<JobId>)
    ensures var after := DisableEach(c, ids).controller;
            CatalogOf(after) == CatalogOf(c) && after.catalogRevision == c.catalogRevision
    decreases |ids|
  {
    if ids != [] {
      if ids[0] !in c.owned {
        DisableEachReplicates(c, ids[1..]);
      } else {
        var id := ids[0];
        var disabled := DisableJob(c.scheduler, id, c.owned[id].generation);
        if disabled.Ok? {
          var next := c.(scheduler := disabled.value,
                         owned := c.owned[id := c.owned[id].(generation := VersionOf(disabled.value, id))]);
          DisableEachReplicates(next, ids[1..]);
          assert CatalogOf(next) == CatalogOf(c);
        }
      }
    }
  }

  lemma {:induction false} DeleteEachEmpties(c: Controller, order: seq<JobId>)
    requires DeleteEach(c, order).ok
    ensures DeleteEach(c, order).controller.owned.Keys == c.owned.Keys - Elements(order)
    decreases |order|
  {
    if order != [] {
      var next :=
        if order[0] !in c.owned then c
        else c.(scheduler := DeleteJob(c.scheduler, order[0], c.owned[order[0]].generation).value,
                owned := c.owned - {order[0]});
      DeleteEachEmpties(next, order[1..]);
      assert Elements(order) == {order[0]} + Elements(order[1..]);
    }
  }

  lemma ExecuteReplicates(h: seq<Catalog>, c: Controller, command: Command, env: Surroundings)
    requires History(h) && Replica(h, c) && Delivered(h, c, Receive(command, env))
    ensures var after := Execute(c, command.action, env).controller;
            Replica(h, after) && after.catalogRevision >= c.catalogRevision
  {
    match command.action {
      case None =>
      case Some(Upsert(r, job)) =>
        if job.Some? { UpsertReplicates(h, c, r, job, env.builds); }
      case Some(Delete(r, jobId, expected)) => DeleteReplicates(h, c, r, jobId, expected);
      case Some(RunJobNow(jobId, expected)) => RunNowReplicates(c, jobId, expected);
      case Some(ReplaceAll(r, jobs)) => ReplaceAllReplicates(h, c, r, jobs, env);
    }
  }

  lemma RememberReplicates(h: seq<Catalog>, c: Controller, id: Bytes, result: CommandResult)
    requires Replica(h, c)
    ensures Replica(h, Remember(c, id, result)) && Remember(c, id, result).catalogRevision == c.catalogRevision
  {
    assert CatalogOf(Remember(c, id, result)) == CatalogOf(c);
  }

  lemma ReceiveReplicates(h: seq<Catalog>, c: Controller, command: Command, env: Surroundings)
    requires History(h) && Replica(h, c) && Delivered(h, c, Receive(command, env))
    ensures var after := ApplyCommand(c, command, env).controller;
            Replica(h, after) && after.catalogRevision >= c.catalogRevision
  {
    ExecuteReplicates(h, c, command, env);
    var o := Execute(c, command.action, env);
    RememberReplicates(h, o.controller, command.commandId,
                       CommandResult(command.commandId, o.verdict, o.controller.catalogRevision));
  }

  lemma StepReplicates(h: seq<Catalog>, c: Controller, e: Event)
    requires History(h) && Replica(h, c) && Delivered(h, c, e)
    ensures Replica(h, Step(c, e))
    ensures !e.Clear? ==> Step(c, e).catalogRevision >= c.catalogRevision
  {
    match e {
      case Receive(command, env) => ReceiveReplicates(h, c, command, env);
      case ChangePolicy(change, saved, order) =>
        var applied := ApplyChange(c.policy, change, saved);
        if applied.Ok? {
          var changed := c.(policy := applied.value);
          assert CatalogOf(changed) == CatalogOf(c);
          DisableEachReplicates(changed, DeniedIds(changed, order));
        }
      case Pause(key, order) =>
        DisableEachReplicates(c, PluginIds(c, key, order));
        assert CatalogOf(Step(c, e)) == CatalogOf(DisableEach(c, PluginIds(c, key, order)).controller)
               || Step(c, e) == c;
      case Resume(_) => assert CatalogOf(Step(c, e)) == CatalogOf(c);
      case Clear(order) =>
        if ClearRemoteJobs(c, order).ok {
          DeleteEachEmpties(c, order);
          assert CatalogOf(Step(c, e)) == map[];
        } else {
          FailedClear(h, c, order);
        }
      case World(_) => assert CatalogOf(Step(c, e)) == CatalogOf(c);
    }
  }

  /** Replication safety. Over every run with lost, repeated and reordered commands, arbitrary Scheduler
      behaviour, policy changes and pauses, the controller's catalog is the Server's catalog at the
      controller's own revision. */
  lemma {:induction false} ReplicaInEveryState(h: seq<Catalog>, policy: RemoteJobPolicy, scheduler: Scheduler,
                                               events: seq<Event>)
    requires History(h) && DeliveredRun(h, InitialController(policy, scheduler), events)
    ensures Replica(h, Run(InitialController(policy, scheduler), events))
    decreases |events|
  {
    var start := InitialController(policy, scheduler);
    if events == [] {
      assert CatalogOf(start) == map[];
    } else {
      var n := |events| - 1;
      var before := events[..n];
      assert forall i :: 0 <= i < n ==> before[..i] == events[..i];
      ReplicaInEveryState(h, policy, scheduler, before);
      assert Delivered(h, Run(start, before), events[n]);
      StepReplicates(h, Run(start, before), events[n]);
    }
  }

  /** The catalog revision only falls when the catalog is cleared. */
  lemma {:induction false} RevisionNeverFalls(h: seq<Catalog>, c: Controller, events: seq<Event>)
    requires History(h) && Replica(h, c) && DeliveredRun(h, c, events)
    requires forall e :: e in events ==> !e.Clear?
    ensures Replica(h, Run(c, events)) && Run(c, events).catalogRevision >= c.catalogRevision
    decreases |events|
  {
    if events != [] {
      var n := |events| - 1;
      var before := events[..n];
      assert forall i :: 0 <= i < n ==> before[..i] == events[..i];
      RevisionNeverFalls(h, c, before);
      assert Delivered(h, Run(c, before), events[n]) && events[n] in events;
      StepReplicates(h, Run(c, before), events[n]);
    }
  }

  lemma {:induction false} DeleteEachShrinks(c: Controller, order: seq<JobId>)
    ensures var after := DeleteEach(c, order).controller;
            after.owned.Keys <= c.owned.Keys && after.catalogRevision == c.catalogRevision
    decreases |order|
  {
    if order != [] {
      if order[0] !in c.owned {
        DeleteEachShrinks(c, order[1..]);
      } else if DeleteJob(c.scheduler, order[0], c.owned[order[0]].generation).Ok? {
        DeleteEachShrinks(c.(scheduler := DeleteJob(c.scheduler, order[0], c.owned[order[0]].generation).value,
                             owned := c.owned - {order[0]}), order[1..]);
      }
    }
  }

  /** A clear that fails keeps the revision. It keeps the replica too exactly when it failed on the very
      first Job; otherwise the catalog has lost Jobs that its revision still promises. */
  lemma FailedClear(h: seq<Catalog>, c: Controller, order: seq<JobId>)
    requires Replica(h, c) && Walks(order, c) && !ClearRemoteJobs(c, order).ok
    ensures order != [] && ClearRemoteJobs(c, order).controller.catalogRevision == c.catalogRevision
    ensures Replica(h, ClearRemoteJobs(c, order).controller) <==> !AgreesOn(c, order[0])
  {
    DeleteEachShrinks(c, order);
    var id := order[0];
    assert id in Elements(order);
    if AgreesOn(c, id) {
      var next := c.(scheduler := c.scheduler.(jobs := c.scheduler.jobs - {id}), owned := c.owned - {id});
      DeleteEachShrinks(next, order[1..]);
      var after := ClearRemoteJobs(c, order).controller;
      assert id in CatalogOf(c) && id !in CatalogOf(after);
    }
  }

  // ----- digests -----

  /** `xs` lists the definitions of `m` in some order, each once. */
  ghost predicate Lists(xs: seq<JobDefinition>, m: Catalog) {
    Distinct(Ids(xs)) && Describes(xs, m)
  }

  /** What is hashed: the revision and the definitions sorted by id; nothing at revision 0. */
  function DigestInput(revision: nat, jobs: seq<JobDefinition>): Option<(nat, seq<JobDefinition>)> {
    if revision == 0 then None else Some((revision, SortBy(jobs, (d: JobDefinition) => d.jobId)))
  }

  lemma ListingsPermute(xs: seq<JobDefinition>, ys: seq<JobDefinition>, m: Catalog)
    requires Lists(xs, m) && Lists(ys, m)
    ensures multiset(xs) == multiset(ys)
  {
    forall d ensures multiset(xs)[d] == multiset(ys)[d] {
      OnceListed(xs, m, d);
      OnceListed(ys, m, d);
    }
  }

  lemma OnceListed(xs: seq<JobDefinition>, m: Catalog, d: JobDefinition)
    requires Lists(xs, m)
    ensures multiset(xs)[d] == if d.jobId in m && m[d.jobId] == d then 1 else 0
  {
    if d.jobId in m && m[d.jobId] == d {
      var e := ListedJob(xs, d.jobId);
      var i :| 0 <= i < |xs| && xs[i] == d;
      assert xs == xs[..i] + [d] + xs[i+1..];
      forall j | 0 <= j < |xs| && j != i ensures xs[j] != d {
        assert Ids(xs)[j] == xs[j].jobId && Ids(xs)[i] == d.jobId;
      }
      assert d !in xs[..i] && d !in xs[i+1..];
    } else {
      assert d !in xs;
    }
  }

  lemma SameDigest(revision: nat, m: Catalog, agent: seq<JobDefinition>, server: seq<JobDefinition>)
    requires Lists(agent, m) && Lists(server, m)
    ensures DigestInput(revision, agent) == DigestInput(revision, server)
  {
    ListingsPermute(agent, server, m);
    var key := (d: JobDefinition) => d.jobId;
    assert forall i :: 0 <= i < |agent| ==> Ids(agent)[i] == key(agent[i]);
    DistinctByIndex(agent, key);
    SortIgnoresOrder(agent, server, key);
  }

  /** Digest agreement: whatever order the Agent's hash map and the Server's query return the Jobs in,
      both hash the same bytes whenever the Agent is a replica. */
  lemma DigestsAgree(h: seq<Catalog>, c: Controller, agent: seq<JobDefinition>, server: seq<JobDefinition>)
    requires Replica(h, c) && Lists(agent, CatalogOf(c)) && Lists(server, h[c.catalogRevision])
    ensures DigestInput(c.catalogRevision, agent) == DigestInput(c.catalogRevision, server)
  {
    SameDigest(c.catalogRevision, CatalogOf(c), agent, server);
  }

  /** What is hashed lists the definitions by ascending id. */
  lemma DigestIsSorted(revision: nat, jobs: seq<JobDefinition>)
    requires revision > 0
    ensures var input := DigestInput(revision, jobs);
            && input.Some? && input.value.0 == revision && multiset(input.value.1) == multiset(jobs)
            && forall i, j :: 0 <= i < j < |input.value.1| ==> !Less(input.value.1[j].jobId, input.value.1[i].jobId)
  {
    SortSorts(jobs, (d: JobDefinition) => d.jobId);
  }

  /** A digest tells catalogs apart: two sides hash the same bytes exactly when they are at the same revision and,
      but for revision 0, hold the same definitions. */
  lemma DigestsTell(revision: nat, m: Catalog, xs: seq<JobDefinition>, other: nat, n: Catalog, ys: seq<JobDefinition>)
    requires Lists(xs, m) && Lists(ys, n)
    ensures DigestInput(revision, xs) == DigestInput(other, ys) <==> revision == other && (revision == 0 || m == n)
  {
    if revision == other && revision > 0 {
      if m == n {
        SameDigest(revision, m, xs, ys);
      } else if DigestInput(revision, xs) == DigestInput(other, ys) {
        PermutationMembers(xs, ys);
        SameMembers(xs, m, ys, n);
      }
    }
  }

  lemma SameMembers(xs: seq<JobDefinition>, m: Catalog, ys: seq<JobDefinition>, n: Catalog)
    requires Lists(xs, m) && Lists(ys, n) && forall d :: d in xs <==> d in ys
    ensures m == n
  {
    forall id ensures id in m <==> id in n {
      if id in m { var d := ListedJob(xs, id); JobIdListed(ys, d); }
      if id in n { var d := ListedJob(ys, id); JobIdListed(xs, d); }
    }
    forall id | id in m ensures m[id] == n[id] { var d := ListedJob(xs, id); }
  }
}
