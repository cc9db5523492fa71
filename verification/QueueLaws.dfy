/** What the due-run queue guarantees over any sequence of operations, and exactly where it falls short
    of "serve the best run that may start". */
module QueueLaws {
  import opened Basics
  import opened ReadyQueues

  ghost predicate HasKey(q: Queue, r: RunId) {
    exists k :: k in q.heap && k.runId == r
  }

  /** Every pending run has at least one key. */
  ghost predicate Covered(q: Queue) {
    forall r :: r in q.pending ==> HasKey(q, r)
  }

  lemma KeyedNext(q: Queue, op: Operation, after: Queue)
    requires Keyed(q) && Next(q, op, after)
    ensures Keyed(after)
  {
  }

  /** What a migration does to the records: the Job's runs take the new version and priority and keep the rest, every
      other run is as it was, and none comes or goes. */
  lemma MigrateChanges(q: Queue, jobId: JobId, version: nat, priority: nat, after: Queue)
    requires Migrated(q, jobId, version, priority, after)
    ensures after.pending.Keys == q.pending.Keys
    ensures forall r :: r in q.pending && q.pending[r].jobId != jobId ==> after.pending[r] == q.pending[r]
    ensures forall r :: r in q.pending && q.pending[r].jobId == jobId ==>
              && after.pending[r].version == version && after.pending[r].priority == priority
              && after.pending[r] == q.pending[r].(version := after.pending[r].version,
                                                   priority := after.pending[r].priority)
  {
    assert after.pending == MigratedPending(q, jobId, version, priority);
  }

  // ----- size -----

  lemma CompactedSize(q: Queue, after: Queue)
    requires Compacted(q, after)
    ensures |after.heap| <= KeyLimit(after)
  {
    if |q.heap| > KeyLimit(q) {
      assert |q.pending.Keys| == |q.pending|;
    }
  }

  /** After an insertion or a migration the heap holds at most twice the pending runs plus 64 keys. */
  lemma SizeBound(q: Queue, op: Operation, after: Queue)
    requires Next(q, op, after) && (op.Insert? || op.Migrate?)
    ensures |after.heap| <= 2 * |after.pending| + 64
  {
    match op {
      case Insert(p) =>
        var n := NextSequence(q.sequence);
        CompactedSize(Queue(q.heap + multiset{KeyOf(p, n)}, q.pending[p.runId := p], n), after);
      case Migrate(jobId, version, priority) =>
        var moved := MigratedPending(q, jobId, version, priority);
        var added, n :| KeysFor(moved, RunsOf(q, jobId), added) && Compacted(Queue(q.heap + added, moved, n), after);
        CompactedSize(Queue(q.heap + added, moved, n), after);
    }
  }

  // ----- coverage -----

  lemma CompactedCovered(q: Queue, after: Queue)
    requires Covered(q) && Compacted(q, after)
    ensures Covered(after)
  {
    forall r | r in after.pending ensures HasKey(after, r) {
      assert HasKey(q, r);
    }
  }

  lemma MoreKeysCovered(q: Queue, added: multiset<ReadyKey>, pending: map<RunId, PendingExecution>, sequence: nat)
    requires Covered(q)
    requires forall r :: r in pending && r !in q.pending ==> exists k :: k in added && k.runId == r
    ensures Covered(Queue(q.heap + added, pending, sequence))
  {
    var after := Queue(q.heap + added, pending, sequence);
    forall r | r in pending ensures HasKey(after, r) {
      if r in q.pending {
        assert HasKey(q, r);
        var k :| k in q.heap && k.runId == r;
        assert k in after.heap;
      } else {
        var k :| k in added && k.runId == r;
        assert k in after.heap;
      }
    }
  }

  lemma PopCovered(q: Queue, canRun: PendingExecution -> bool, p: PendingExecution, after: Queue)
    requires Covered(q) && Popped(q, canRun, Some(p), after)
    ensures Covered(after)
  {
    var k :| BestKey(q, canRun, k) && p == q.pending[k.runId]
             && after == Queue(after.heap, q.pending - {k.runId}, q.sequence) && HeapAfter(q, k, after.heap);
    forall r | r in after.pending ensures HasKey(after, r) {
      assert HasKey(q, r);
      var x :| x in q.heap && x.runId == r;
      assert x != k && after.heap[x] == q.heap[x];
      assert x in after.heap;
    }
  }

  /** Coverage survives every operation except one: a pop while runs are pending and none of them may start.
      That pop drops every key, so no pending run keeps one. */
  lemma CoverageExact(q: Queue, op: Operation, after: Queue)
    requires Covered(q) && Next(q, op, after)
    ensures Covered(after) <==>
              !(op.Pop? && q.pending != map[] && forall r :: r in q.pending ==> !op.canRun(q.pending[r]))
  {
    match op {
      case Insert(p) =>
        var n := NextSequence(q.sequence);
        var key := KeyOf(p, n);
        assert key in multiset{key} && key.runId == p.runId;
        MoreKeysCovered(q, multiset{key}, q.pending[p.runId := p], n);
        CompactedCovered(Queue(q.heap + multiset{key}, q.pending[p.runId := p], n), after);
      case Migrate(jobId, version, priority) =>
        var moved := MigratedPending(q, jobId, version, priority);
        var added, n :| KeysFor(moved, RunsOf(q, jobId), added) && Compacted(Queue(q.heap + added, moved, n), after);
        MoreKeysCovered(q, added, moved, n);
        CompactedCovered(Queue(q.heap + added, moved, n), after);
      case Remove(runs) =>
        forall r | r in after.pending ensures HasKey(after, r) {
          assert HasKey(q, r);
          var k :| k in q.heap && k.runId == r;
          assert k in after.heap;
        }
      case Pop(canRun, result) =>
        if result.Some? {
          PopCovered(q, canRun, result.value, after);
        } else if q.pending != map[] {
          EmptyHandedPop(q, canRun, after);
          var r :| r in q.pending;
          assert r in after.pending && !HasKey(after, r);
        }
    }
  }

  /** A pop finds nothing exactly when no key is dispatchable, and then empties the heap and keeps the
      records. */
  lemma EmptyHandedPop(q: Queue, canRun: PendingExecution -> bool, after: Queue)
    requires Covered(q) && Popped(q, canRun, None, after)
    ensures after.heap == multiset{} && after.pending == q.pending
    ensures forall r :: r in q.pending ==> !canRun(q.pending[r])
  {
    forall r | r in q.pending ensures !canRun(q.pending[r]) {
      assert HasKey(q, r);
      var k :| k in q.heap && k.runId == r;
      assert !Dispatchable(q, canRun, k);
    }
  }

  // ----- stranded runs -----

  /** Pending, but without a key. */
  ghost predicate Stranded(q: Queue, r: RunId) {
    r in q.pending && !HasKey(q, r)
  }

  /** The operations that can give run `r` a key: inserting it, migrating its Job, or a rebuild. */
  ghost predicate Rekeys(q: Queue, op: Operation, r: RunId) {
    match op
    case Insert(p) => p.runId == r || |q.heap| + 1 > KeyLimit(q.(pending := q.pending[p.runId := p]))
    case Migrate(jobId, _, _) =>
      (r in q.pending && q.pending[r].jobId == jobId) || |q.heap| + |RunsOf(q, jobId)| > KeyLimit(q)
    case Remove(_) => false
    case Pop(_, _) => false
  }

  lemma InsertStrands(q: Queue, p: PendingExecution, after: Queue, r: RunId)
    requires Stranded(q, r) && Next(q, Insert(p), after) && !Rekeys(q, Insert(p), r)
    ensures Stranded(after, r)
  {
    var n := NextSequence(q.sequence);
    assert after == Queue(q.heap + multiset{KeyOf(p, n)}, q.pending[p.runId := p], n);
    assert forall k :: k in after.heap ==> k in q.heap || k == KeyOf(p, n);
  }

  /** A migration that does not lead to a rebuild only adds keys. */
  lemma MigratedWithoutRebuild(q: Queue, jobId: JobId, version: nat, priority: nat, after: Queue)
    returns (added: multiset<ReadyKey>)
    requires Migrated(q, jobId, version, priority, after) && |q.heap| + |RunsOf(q, jobId)| <= KeyLimit(q)
    ensures after.pending == MigratedPending(q, jobId, version, priority) && after.heap == q.heap + added
    ensures KeysFor(MigratedPending(q, jobId, version, priority), RunsOf(q, jobId), added)
    ensures Issued(q.sequence, |RunsOf(q, jobId)|, after.sequence, added)
  {
    var moved := MigratedPending(q, jobId, version, priority);
    var n: nat;
    added, n :| KeysFor(moved, RunsOf(q, jobId), added) && Issued(q.sequence, |RunsOf(q, jobId)|, n, added)
                && Compacted(Queue(q.heap + added, moved, n), after);
    assert moved.Keys == q.pending.Keys;
    MapSize(moved);
    MapSize(q.pending);
  }

  lemma MigrateStrands(q: Queue, jobId: JobId, version: nat, priority: nat, after: Queue, r: RunId)
    requires Stranded(q, r) && Migrated(q, jobId, version, priority, after)
    requires !Rekeys(q, Migrate(jobId, version, priority), r)
    ensures Stranded(after, r)
  {
    var added := MigratedWithoutRebuild(q, jobId, version, priority, after);
    assert forall k :: k in after.heap ==> k in q.heap || k in added;
  }

  lemma PopStrands(q: Queue, canRun: PendingExecution -> bool, result: Option<PendingExecution>, after: Queue, r: RunId)
    requires Keyed(q) && Stranded(q, r) && Popped(q, canRun, result, after)
    ensures Stranded(after, r)
    ensures result.Some? ==> result.value.runId != r
  {
    if result.Some? {
      var best :| BestKey(q, canRun, best) && result.value == q.pending[best.runId]
                  && after == Queue(after.heap, q.pending - {best.runId}, q.sequence) && HeapAfter(q, best, after.heap);
      assert forall k :: after.heap[k] <= q.heap[k];
      assert forall k :: k in after.heap ==> k in q.heap;
    }
  }

  /** A stranded run is never served, however willing the Scheduler: it stays stranded, or is removed,
      until something re-keys it. */
  lemma StrandedStays(q: Queue, op: Operation, after: Queue, r: RunId)
    requires Keyed(q) && Stranded(q, r) && Next(q, op, after) && !Rekeys(q, op, r)
    ensures Stranded(after, r) || (op.Remove? && r in op.runs)
    ensures op.Pop? && op.result.Some? ==> op.result.value.runId != r
  {
    match op {
      case Insert(p) => InsertStrands(q, p, after, r);
      case Migrate(jobId, version, priority) => MigrateStrands(q, jobId, version, priority, after, r);
      case Remove(runs) => assert after.heap == q.heap;
      case Pop(canRun, result) => PopStrands(q, canRun, result, after, r);
    }
  }

  /** Over any stretch of operations that neither re-key nor remove a stranded run, no pop serves it. */
  lemma {:induction false} StrandedThroughout(states: seq<Queue>, ops: seq<Operation>, r: RunId, n: nat)
    requires |states| == |ops| + 1 && n <= |ops| && forall i :: 0 <= i < |ops| ==>
              Next(states[i], ops[i], states[i + 1])
    requires Keyed(states[0]) && Stranded(states[0], r)
    requires forall i :: 0 <= i < n ==> !Rekeys(states[i], ops[i], r) && !(ops[i].Remove? && r in ops[i].runs)
    ensures Keyed(states[n]) && Stranded(states[n], r)
    ensures forall i :: 0 <= i < n && ops[i].Pop? && ops[i].result.Some? ==> ops[i].result.value.runId != r
  {
    if n > 0 {
      StrandedThroughout(states, ops, r, n - 1);
      assert Next(states[n - 1], ops[n - 1], states[n]);
      StrandedStays(states[n - 1], ops[n - 1], states[n], r);
      KeyedNext(states[n - 1], ops[n - 1], states[n]);
    }
  }

  /** A full Job loses its place: after a pop in which nothing could start, the runs that were only
      waiting for a slot are not served by the next pop, whatever it is willing to run. */
  lemma BlockedRunIsLost(q: Queue, canRun: PendingExecution -> bool, mid: Queue,
                         willing: PendingExecution -> bool, result: Option<PendingExecution>, after: Queue)
    requires Popped(q, canRun, None, mid) && Popped(mid, willing, result, after)
    ensures result.None? && after.pending == q.pending
  {
    assert mid.heap == multiset{} && forall k :: !Dispatchable(mid, willing, k);
  }

  predicate Nothing(p: PendingExecution) {
    false
  }

  /** One insertion and one pop in which it may not start: the run waits for good, whatever may start later. */
  lemma OneRunIsLost(p: PendingExecution) returns (one: Queue, mid: Queue)
    ensures Inserted(EMPTY_QUEUE, p, one) && Popped(one, Nothing, None, mid)
    ensures p.runId in mid.pending && Stranded(mid, p.runId)
    ensures forall willing, result, after :: Popped(mid, willing, result, after) ==> result.None?
  {
    one := Queue(multiset{KeyOf(p, 1)}, map[p.runId := p], 1);
    assert EMPTY_QUEUE.heap + multiset{KeyOf(p, 1)} == one.heap;
    mid := one.(heap := multiset{});
    forall willing, result, after | Popped(mid, willing, result, after) ensures result.None? {
      BlockedRunIsLost(one, Nothing, mid, willing, result, after);
    }
  }

  // ----- serving order -----

  /** Every pending run has a key with its current fields, and no key of it that ranks higher. */
  ghost predicate Faithful(q: Queue) {
    && (forall r :: r in q.pending ==> exists k :: k in q.heap && k.runId == r && k == KeyOf(q.pending[r], k.sequence))
    && (forall k :: k in q.heap && k.runId in q.pending ==> !Outranks(k, KeyOf(q.pending[k.runId], 0)))
  }

  /** `a` is to be served before `b`: of an older batch, else of higher priority, else due earlier. */
  ghost predicate Sooner(a: PendingExecution, b: PendingExecution) {
    || a.batchId < b.batchId
    || (a.batchId == b.batchId && a.priority > b.priority)
    || (a.batchId == b.batchId && a.priority == b.priority && a.scheduledAt < b.scheduledAt)
  }

  /** `p` may start and no pending run that may start is to be served before it. */
  ghost predicate PlainBest(q: Queue, canRun: PendingExecution -> bool, p: PendingExecution) {
    && p.runId in q.pending && q.pending[p.runId] == p && canRun(p)
    && forall r :: r in q.pending && canRun(q.pending[r]) ==> !Sooner(q.pending[r], p)
  }

  /** Of the runs that may start and rank the same, `p` is the one with the lowest sequence number. */
  ghost predicate InTurn(q: Queue, canRun: PendingExecution -> bool, p: PendingExecution) {
    exists n :: KeyOf(p, n) in q.heap && Earliest(q, canRun, p, n)
  }

  ghost predicate Earliest(q: Queue, canRun: PendingExecution -> bool, p: PendingExecution, n: nat) {
    forall k :: && k in q.heap && k.runId in q.pending && canRun(q.pending[k.runId])
                && k == KeyOf(q.pending[k.runId], k.sequence) && !Outranks(k, KeyOf(p, 0)) && !Outranks(KeyOf(p, 0), k)
                ==> n <= k.sequence
  }

  lemma BestIsCurrent(q: Queue, canRun: PendingExecution -> bool, best: ReadyKey)
    requires Keyed(q) && Faithful(q) && BestKey(q, canRun, best)
    ensures best == KeyOf(q.pending[best.runId], best.sequence)
    ensures Earliest(q, canRun, q.pending[best.runId], best.sequence)
  {
    var p := q.pending[best.runId];
    assert p.runId == best.runId;
    var k :| k in q.heap && k.runId == best.runId && k == KeyOf(p, k.sequence);
    assert Dispatchable(q, canRun, k);
    forall other | && other in q.heap && other.runId in q.pending && canRun(q.pending[other.runId])
                   && !Outranks(other, KeyOf(p, 0)) && !Outranks(KeyOf(p, 0), other)
      ensures best.sequence <= other.sequence
    {
      assert Dispatchable(q, canRun, other);
    }
  }

  lemma BestIsPlain(q: Queue, canRun: PendingExecution -> bool, best: ReadyKey)
    requires Keyed(q) && Faithful(q) && BestKey(q, canRun, best)
    ensures PlainBest(q, canRun, q.pending[best.runId])
  {
    var p := q.pending[best.runId];
    forall r | r in q.pending && canRun(q.pending[r]) ensures !Sooner(q.pending[r], p) {
      var k :| k in q.heap && k.runId == r && k == KeyOf(q.pending[r], k.sequence);
      assert Dispatchable(q, canRun, k);
      assert !Above(k, best) && !Outranks(best, KeyOf(p, 0));
    }
  }

  lemma NothingStarts(q: Queue, canRun: PendingExecution -> bool)
    requires Faithful(q) && forall k :: !Dispatchable(q, canRun, k)
    ensures forall r :: r in q.pending ==> !canRun(q.pending[r])
  {
    forall r | r in q.pending ensures !canRun(q.pending[r]) {
      var k :| k in q.heap && k.runId == r && k == KeyOf(q.pending[r], k.sequence);
      assert !Dispatchable(q, canRun, k);
    }
  }

  /** The queue refines the plain set: on a faithful queue a pop returns a run that may start, that no other such
      run outranks and that comes first among its equals, and returns nothing exactly when no pending run may
      start. */
  lemma PopServesPlainBest(q: Queue, canRun: PendingExecution -> bool, result: Option<PendingExecution>, after: Queue)
    requires Keyed(q) && Faithful(q) && Popped(q, canRun, result, after)
    ensures result.None? <==> forall r :: r in q.pending ==> !canRun(q.pending[r])
    ensures result.Some? ==> PlainBest(q, canRun, result.value) && InTurn(q, canRun, result.value)
  {
    if result.Some? {
      var best :| BestKey(q, canRun, best) && result.value == q.pending[best.runId];
      assert InTurn(q, canRun, result.value) by { BestIsCurrent(q, canRun, best); }
      assert PlainBest(q, canRun, result.value) by { BestIsPlain(q, canRun, best); }
    } else {
      NothingStarts(q, canRun);
    }
  }

  /** No key that is already in the heap outranks the fields the run is about to have. */
  ghost predicate NoBetterLeftover(q: Queue, r: RunId, p: PendingExecution) {
    forall k :: k in q.heap && k.runId == r ==> !Outranks(k, KeyOf(p, 0))
  }

  /** An insertion or migration leaves no better key behind, and a pop may start something if anything waits. */
  ghost predicate Clean(q: Queue, op: Operation) {
    match op
    case Insert(p) => NoBetterLeftover(q, p.runId, p)
    case Migrate(jobId, version, priority) =>
      forall r :: r in RunsOf(q, jobId) ==> NoBetterLeftover(q, r, MigratedPending(q, jobId, version, priority)[r])
    case Remove(_) => true
    case Pop(canRun, _) => q.pending == map[] || exists r :: r in q.pending && canRun(q.pending[r])
  }

  lemma RebuiltFaithful(q: Queue, after: Queue)
    requires Keyed(q) && after.pending == q.pending && KeysFor(q.pending, q.pending.Keys, after.heap)
    ensures Faithful(after)
  {
    forall r | r in after.pending
      ensures exists k :: k in after.heap && k.runId == r && k == KeyOf(after.pending[r], k.sequence)
    {
      assert HasKey(after, r);
    }
  }

  /** `added` keys the changed runs with their current fields. */
  ghost predicate KeyedAnew(q: Queue, pending: map<RunId, PendingExecution>, added: multiset<ReadyKey>) {
    && (forall k :: k in added ==> k.runId in pending && k == KeyOf(pending[k.runId], k.sequence))
    && (forall r :: r in pending ==>
          || (r in q.pending && pending[r] == q.pending[r])
          || (exists k :: k in added && k.runId == r))
    && (forall r :: r in pending && !(r in q.pending && pending[r] == q.pending[r]) ==>
        NoBetterLeftover(q, r, pending[r]))
  }

  lemma AddedCovers(q: Queue, pending: map<RunId, PendingExecution>, added: multiset<ReadyKey>, r: RunId)
    requires Faithful(q) && KeyedAnew(q, pending, added) && r in pending
    ensures exists k :: k in q.heap + added && k.runId == r && k == KeyOf(pending[r], k.sequence)
  {
    if r in q.pending && pending[r] == q.pending[r] {
      var k :| k in q.heap && k.runId == r && k == KeyOf(q.pending[r], k.sequence);
      assert k in q.heap + added;
    } else {
      var k :| k in added && k.runId == r;
      assert k in q.heap + added;
    }
  }

  lemma AddedFaithful(q: Queue, pending: map<RunId, PendingExecution>, added: multiset<ReadyKey>, n: nat)
    requires Faithful(q) && KeyedAnew(q, pending, added)
    ensures Faithful(Queue(q.heap + added, pending, n))
  {
    var after := Queue(q.heap + added, pending, n);
    forall r | r in pending ensures exists k :: k in after.heap && k.runId == r && k == KeyOf(pending[r], k.sequence) {
      AddedCovers(q, pending, added, r);
    }
    forall k | k in after.heap && k.runId in pending ensures !Outranks(k, KeyOf(pending[k.runId], 0)) {
      assert k in q.heap || k in added;
    }
  }

  lemma CompactedFaithful(q: Queue, after: Queue)
    requires Keyed(q) && Faithful(q) && Compacted(q, after)
    ensures Faithful(after)
  {
    if |q.heap| > KeyLimit(q) { RebuiltFaithful(q, after); }
  }

  lemma PopFaithful(q: Queue, canRun: PendingExecution -> bool, p: PendingExecution, after: Queue)
    requires Faithful(q) && Popped(q, canRun, Some(p), after)
    ensures Faithful(after)
  {
    var best :| BestKey(q, canRun, best) && p == q.pending[best.runId]
                && after == Queue(after.heap, q.pending - {best.runId}, q.sequence) && HeapAfter(q, best, after.heap);
    forall r | r in after.pending
      ensures exists k :: k in after.heap && k.runId == r && k == KeyOf(after.pending[r], k.sequence)
    {
      var k :| k in q.heap && k.runId == r && k == KeyOf(q.pending[r], k.sequence);
      assert after.heap[k] == q.heap[k];
      assert k in after.heap;
    }
    forall k | k in after.heap && k.runId in after.pending ensures !Outranks(k, KeyOf(after.pending[k.runId], 0)) {
      assert after.heap[k] <= q.heap[k];
      assert k in q.heap;
    }
  }

  lemma InsertFaithful(q: Queue, p: PendingExecution, after: Queue)
    requires Keyed(q) && Faithful(q) && Inserted(q, p, after) && NoBetterLeftover(q, p.runId, p)
    ensures Faithful(after)
  {
    var n := NextSequence(q.sequence);
    var key := KeyOf(p, n);
    assert key in multiset{key} && key.runId == p.runId;
    AddedFaithful(q, q.pending[p.runId := p], multiset{key}, n);
    CompactedFaithful(Queue(q.heap + multiset{key}, q.pending[p.runId := p], n), after);
  }

  lemma MigrateAnew(q: Queue, jobId: JobId, version: nat, priority: nat, added: multiset<ReadyKey>)
    requires Clean(q, Migrate(jobId, version, priority))
    requires KeysFor(MigratedPending(q, jobId, version, priority), RunsOf(q, jobId), added)
    ensures KeyedAnew(q, MigratedPending(q, jobId, version, priority), added)
  {
  }

  lemma MigrateFaithful(q: Queue, jobId: JobId, version: nat, priority: nat, after: Queue)
    requires Keyed(q) && Faithful(q) && Migrated(q, jobId, version, priority, after)
    requires Clean(q, Migrate(jobId, version, priority))
    ensures Faithful(after)
  {
    var moved := MigratedPending(q, jobId, version, priority);
    var added, n :| KeysFor(moved, RunsOf(q, jobId), added) && Compacted(Queue(q.heap + added, moved, n), after);
    MigrateAnew(q, jobId, version, priority, added);
    AddedFaithful(q, moved, added, n);
    CompactedFaithful(Queue(q.heap + added, moved, n), after);
  }

  /** Clean operations keep the queue faithful. */
  lemma FaithfulNext(q: Queue, op: Operation, after: Queue)
    requires Keyed(q) && Faithful(q) && Next(q, op, after) && Clean(q, op)
    ensures Faithful(after)
  {
    match op {
      case Insert(p) => InsertFaithful(q, p, after);
      case Migrate(jobId, version, priority) => MigrateFaithful(q, jobId, version, priority, after);
      case Remove(runs) =>
      case Pop(canRun, result) =>
        PopServesPlainBest(q, canRun, result, after);
        if result.Some? { PopFaithful(q, canRun, result.value, after); }
    }
  }

  /** Any run of the queue: from empty, each state follows from the one before. */
  ghost predicate History(states: seq<Queue>, ops: seq<Operation>) {
    && |states| == |ops| + 1 && states[0] == EMPTY_QUEUE
    && forall i :: 0 <= i < |ops| ==> Next(states[i], ops[i], states[i + 1])
  }

  lemma {:induction false} FaithfulHistory(states: seq<Queue>, ops: seq<Operation>, i: nat)
    requires History(states, ops) && i < |states|
    requires forall j :: 0 <= j < i ==> Clean(states[j], ops[j])
    ensures Keyed(states[i]) && Faithful(states[i])
  {
    if i > 0 {
      FaithfulHistory(states, ops, i - 1);
      assert Next(states[i - 1], ops[i - 1], states[i]);
      KeyedNext(states[i - 1], ops[i - 1], states[i]);
      FaithfulNext(states[i - 1], ops[i - 1], states[i]);
    }
  }

  /** Over any sequence of clean operations, every pop serves the best run that may start. */
  lemma EveryPopServesPlainBest(states: seq<Queue>, ops: seq<Operation>, i: nat)
    requires History(states, ops) && i < |ops| && ops[i].Pop?
    requires forall j :: 0 <= j < i ==> Clean(states[j], ops[j])
    ensures ops[i].result.Some? ==>
              && PlainBest(states[i], ops[i].canRun, ops[i].result.value)
              && InTurn(states[i], ops[i].canRun, ops[i].result.value)
    ensures ops[i].result.None? <==> forall r :: r in states[i].pending ==> !ops[i].canRun(states[i].pending[r])
  {
    FaithfulHistory(states, ops, i);
    assert Next(states[i], ops[i], states[i + 1]);
    PopServesPlainBest(states[i], ops[i].canRun, ops[i].result, states[i + 1]);
  }
}
