/** Exactly when the due-run queue serves the best run that may start, and when a pop serves a wrong one. */
module QueueOrder {
  import opened Basics
  import opened ReadyQueues
  import opened QueueLaws

  /** Where the record of a run ranks. */
  ghost function Rank(pending: map<RunId, PendingExecution>, r: RunId): ReadyKey
    requires r in pending
  {
    KeyOf(pending[r], 0)
  }

  /** The run a plain choice would serve: the best one that may start, or none if none may. */
  ghost predicate Plain(q: Queue, canRun: PendingExecution -> bool, result: Option<PendingExecution>) {
    match result
    case None => forall r :: r in q.pending ==> !canRun(q.pending[r])
    case Some(p) => PlainBest(q, canRun, p)
  }

  /** In the heap, `r` comes before `p`: every key of `p` has a key of `r` above it. */
  ghost predicate Ahead(heap: multiset<ReadyKey>, r: RunId, p: RunId) {
    forall kp :: kp in heap && kp.runId == p ==> exists kr :: kr in heap && kr.runId == r && Above(kr, kp)
  }

  /** Every pending run has a key, and a run that outranks another comes before it in the heap. */
  ghost predicate InOrder(q: Queue) {
    && Covered(q)
    && forall p, r :: p in q.pending && r in q.pending && Outranks(Rank(q.pending, r), Rank(q.pending, p)) ==>
         Ahead(q.heap, r, p)
  }

  // ----- a pop can always be completed -----

  lemma FilterDead(q: Queue, k: ReadyKey, heap: multiset<ReadyKey>) returns (left: multiset<ReadyKey>)
    ensures forall x :: left[x] == if x.runId !in q.pending && Above(x, k) then 0 else heap[x]
    decreases |heap|
  {
    if heap == multiset{} {
      left := multiset{};
    } else {
      var y :| y in heap;
      var rest := heap[y := 0];
      assert heap == rest + multiset{}[y := heap[y]];
      assert |rest| < |heap|;
      left := FilterDead(q, k, rest);
      if !(y.runId !in q.pending && Above(y, k)) { left := left[y := heap[y]]; }
    }
  }

  lemma PopCompletes(q: Queue, canRun: PendingExecution -> bool, k: ReadyKey)
    requires BestKey(q, canRun, k)
    ensures exists after :: Popped(q, canRun, Some(q.pending[k.runId]), after)
  {
    var left := FilterDead(q, k, q.heap);
    var heap := left[k := left[k] - 1];
    assert HeapAfter(q, k, heap);
    assert Popped(q, canRun, Some(q.pending[k.runId]), Queue(heap, q.pending - {k.runId}, q.sequence));
  }

  /** Among the keys of two runs there is a best one. */
  lemma BestOfTwo(q: Queue, canRun: PendingExecution -> bool, kp: ReadyKey) returns (best: ReadyKey)
    requires Dispatchable(q, canRun, kp)
    ensures BestKey(q, canRun, best) && !Above(kp, best)
  {
    var keys := KeysThat(q, canRun, q.heap);
    assert kp in keys;
    HighestExists(keys);
    best :| best in keys && forall x :: x in keys ==> !Above(x, best);
    forall other | Dispatchable(q, canRun, other) ensures !Above(other, best) { assert other in keys; }
  }

  lemma KeysThat(q: Queue, canRun: PendingExecution -> bool, heap: multiset<ReadyKey>)
    returns (keys: multiset<ReadyKey>)
    ensures forall k :: k in keys <==> k in heap && k.runId in q.pending && canRun(q.pending[k.runId])
    decreases |heap|
  {
    if heap == multiset{} {
      keys := multiset{};
    } else {
      var y :| y in heap;
      keys := KeysThat(q, canRun, heap - multiset{y});
      if y.runId in q.pending && canRun(q.pending[y.runId]) { keys := keys + multiset{y}; }
      assert forall k :: k in heap <==> k == y || k in heap - multiset{y};
    }
  }

  // ----- the exact condition -----

  lemma InOrderServes(q: Queue, canRun: PendingExecution -> bool, result: Option<PendingExecution>, after: Queue)
    requires Keyed(q) && InOrder(q) && Popped(q, canRun, result, after)
    ensures Plain(q, canRun, result)
  {
    if result.Some? {
      var best :| BestKey(q, canRun, best) && result.value == q.pending[best.runId];
      forall r | r in q.pending && canRun(q.pending[r]) ensures !Outranks(Rank(q.pending, r), KeyOf(result.value, 0)) {
        assert Outranks(Rank(q.pending, r), Rank(q.pending, best.runId)) ==> Ahead(q.heap, r, best.runId);
        assert forall kr :: kr in q.heap && kr.runId == r ==> Dispatchable(q, canRun, kr);
      }
    } else {
      EmptyHandedPop(q, canRun, after);
    }
  }

  /** A run without a key is passed over when only it may start. */
  lemma StrandedMisserved(q: Queue, r: RunId)
    requires Keyed(q) && r in q.pending && !HasKey(q, r)
    ensures exists canRun, result, after :: Popped(q, canRun, result, after) && !Plain(q, canRun, result)
  {
    var canRun := (x: PendingExecution) => x.runId == r;
    forall k ensures !Dispatchable(q, canRun, k) { }
    assert Popped(q, canRun, None, q.(heap := multiset{})) && !Plain(q, canRun, None);
  }

  /** Some pop returns the run although a better one may start. */
  ghost predicate ServedWrongly(q: Queue, r: RunId) {
    && r in q.pending
    && exists canRun, after :: Popped(q, canRun, Some(q.pending[r]), after) && !PlainBest(q, canRun, q.pending[r])
  }

  /** If `r` outranks `p` and yet is not ahead of it, `p` is served when just these two may start. */
  lemma InversionMisserved(q: Queue, p: RunId, r: RunId)
    requires Keyed(q) && p in q.pending && r in q.pending && Outranks(Rank(q.pending, r), Rank(q.pending, p))
    requires !Ahead(q.heap, r, p)
    ensures ServedWrongly(q, p)
  {
    var canRun := (x: PendingExecution) => x.runId == p || x.runId == r;
    var kp :| kp in q.heap && kp.runId == p && forall kr :: kr in q.heap && kr.runId == r ==> !Above(kr, kp);
    assert Dispatchable(q, canRun, kp);
    var best := BestOfTwo(q, canRun, kp);
    assert best == kp || Above(best, kp);
    assert best.runId == p;
    PopCompletes(q, canRun, best);
    assert !PlainBest(q, canRun, q.pending[p]) by { assert canRun(q.pending[r]); }
  }

  /** Every pop serves the plain choice, whatever may start, exactly when the queue is in order. */
  lemma ServesPlainlyIff(q: Queue)
    requires Keyed(q)
    ensures (forall canRun, result, after :: Popped(q, canRun, result, after) ==> Plain(q, canRun, result)) <==>
              InOrder(q)
  {
    if InOrder(q) {
      forall canRun, result, after | Popped(q, canRun, result, after) ensures Plain(q, canRun, result) {
        InOrderServes(q, canRun, result, after);
      }
    } else if r :| r in q.pending && !HasKey(q, r) {
      StrandedMisserved(q, r);
    } else {
      var p, r :| && p in q.pending && r in q.pending && Outranks(Rank(q.pending, r), Rank(q.pending, p))
                  && !Ahead(q.heap, r, p);
      InversionMisserved(q, p, r);
      var canRun, after :| Popped(q, canRun, Some(q.pending[p]), after) && !PlainBest(q, canRun, q.pending[p]);
      assert !Plain(q, canRun, Some(q.pending[p]));
    }
  }

  lemma FaithfulInOrder(q: Queue)
    requires Faithful(q)
    ensures InOrder(q)
  {
    forall r | r in q.pending ensures HasKey(q, r) {
      var k :| k in q.heap && k.runId == r && k == KeyOf(q.pending[r], k.sequence);
    }
    forall p, r | p in q.pending && r in q.pending && Outranks(Rank(q.pending, r), Rank(q.pending, p))
      ensures Ahead(q.heap, r, p)
    {
      var kr :| kr in q.heap && kr.runId == r && kr == KeyOf(q.pending[r], kr.sequence);
      forall kp | kp in q.heap && kp.runId == p ensures Above(kr, kp) {
        assert !Outranks(kp, Rank(q.pending, p));
      }
    }
  }

  // ----- giving runs new keys -----

  /** The runs in `changed` have new records and one more key each; their old keys stay behind. */
  ghost predicate Rekeyed(q: Queue, changed: set<RunId>, after: Queue, added: multiset<ReadyKey>) {
    && after.pending.Keys == q.pending.Keys + changed
    && (forall r :: r in after.pending && r !in changed ==> after.pending[r] == q.pending[r])
    && (forall k :: k in after.heap <==> k in q.heap || k in added)
    && (forall k :: k in added ==> k.runId in changed && k == KeyOf(after.pending[k.runId], k.sequence))
    && (forall r :: r in changed ==> exists k :: k in added && k.runId == r)
  }

  /** The new keys have later numbers than the old ones. */
  ghost predicate Later(q: Queue, added: multiset<ReadyKey>) {
    forall k, former :: k in added && former in q.heap ==> k.sequence > former.sequence
  }

  /** In the heap as it is, or by a new key of its own, `r` comes before this key. */
  ghost predicate Passes(q: Queue, changed: set<RunId>, rank: ReadyKey, r: RunId, kp: ReadyKey) {
    (r in changed && Outranks(rank, kp)) || exists kr :: kr in q.heap && kr.runId == r && Above(kr, kp)
  }

  /** In the heap as it is, `r` has a key that does not rank below. */
  ghost predicate Reaches(q: Queue, r: RunId, rank: ReadyKey) {
    exists kr :: kr in q.heap && kr.runId == r && !Outranks(rank, kr)
  }

  ghost predicate WillOutrank(pending: map<RunId, PendingExecution>, r: RunId, p: RunId) {
    p in pending && r in pending && Outranks(Rank(pending, r), Rank(pending, p))
  }

  /** What has to hold before some runs get new records and one more key each: every other run has a key; a run that
      will outrank another passes the keys that one has; and a run that is left alone reaches the new rank of every
      run that it will outrank. */
  ghost predicate Fits(q: Queue, changed: set<RunId>, pending: map<RunId, PendingExecution>) {
    && (forall r :: r in pending && r !in changed ==> HasKey(q, r))
    && (forall p, r, kp :: WillOutrank(pending, r, p) && kp in q.heap && kp.runId == p ==>
          Passes(q, changed, Rank(pending, r), r, kp))
    && (forall p, r :: WillOutrank(pending, r, p) && p in changed && r !in changed ==> Reaches(q, r, Rank(pending, p)))
  }

  lemma SameRank(k: ReadyKey, rank: ReadyKey, other: ReadyKey)
    requires k == rank.(sequence := k.sequence) && Outranks(rank, other)
    ensures Outranks(k, other) && Above(k, other)
  {
  }

  /** Of two keys of the same rank the one with the lower number is above. */
  lemma EarlierAbove(k: ReadyKey, rank: ReadyKey, other: ReadyKey)
    requires other == rank.(sequence := other.sequence) && !Outranks(rank, k) && k.sequence < other.sequence
    ensures Above(k, other)
  {
  }

  lemma RekeyedPasses(q: Queue, changed: set<RunId>, after: Queue, added: multiset<ReadyKey>, p: RunId, r: RunId,
                      kp: ReadyKey)
    returns (kr: ReadyKey)
    requires Rekeyed(q, changed, after, added) && Later(q, added) && Fits(q, changed, after.pending)
    requires p in after.pending && r in after.pending && Outranks(Rank(after.pending, r), Rank(after.pending, p))
    requires kp in after.heap && kp.runId == p && after.pending[r].runId == r && after.pending[p].runId == p
    ensures kr in after.heap && kr.runId == r && Above(kr, kp)
  {
    var rank := Rank(after.pending, r);
    assert WillOutrank(after.pending, r, p);
    if kp in q.heap {
      assert Passes(q, changed, rank, r, kp);
      if r in changed && Outranks(rank, kp) {
        kr :| kr in added && kr.runId == r;
        SameRank(kr, rank, kp);
      } else {
        kr :| kr in q.heap && kr.runId == r && Above(kr, kp);
      }
    } else if r in changed {
      kr :| kr in added && kr.runId == r;
      SameRank(kr, rank, kp);
    } else {
      assert Reaches(q, r, Rank(after.pending, p));
      kr :| kr in q.heap && kr.runId == r && !Outranks(Rank(after.pending, p), kr);
      EarlierAbove(kr, Rank(after.pending, p), kp);
    }
  }

  lemma RekeyedInOrder(q: Queue, changed: set<RunId>, after: Queue, added: multiset<ReadyKey>)
    requires Keyed(after) && Rekeyed(q, changed, after, added) && Later(q, added) && Fits(q, changed, after.pending)
    ensures InOrder(after)
  {
    forall r | r in after.pending ensures HasKey(after, r) {
      if r in changed {
        var k :| k in added && k.runId == r;
      } else {
        assert HasKey(q, r);
      }
    }
    forall p, r | p in after.pending && r in after.pending && Outranks(Rank(after.pending, r), Rank(after.pending, p))
      ensures Ahead(after.heap, r, p)
    {
      forall kp | kp in after.heap && kp.runId == p
        ensures exists kr :: kr in after.heap && kr.runId == r && Above(kr, kp)
      {
        var kr := RekeyedPasses(q, changed, after, added, p, r, kp);
      }
    }
  }

  /** The other direction, for one key of a run that is outranked. */
  lemma InOrderPasses(q: Queue, changed: set<RunId>, after: Queue, added: multiset<ReadyKey>, p: RunId, r: RunId,
                      kp: ReadyKey)
    requires Rekeyed(q, changed, after, added) && Later(q, added) && InOrder(after)
    requires p in after.pending && r in after.pending && Outranks(Rank(after.pending, r), Rank(after.pending, p))
    requires kp in q.heap && kp.runId == p
    ensures Passes(q, changed, Rank(after.pending, r), r, kp)
  {
    assert Ahead(after.heap, r, p) && kp in after.heap;
    var kr :| kr in after.heap && kr.runId == r && Above(kr, kp);
    if kr !in q.heap { assert kr in added; }
  }

  lemma InOrderReaches(q: Queue, changed: set<RunId>, after: Queue, added: multiset<ReadyKey>, p: RunId, r: RunId)
    requires Rekeyed(q, changed, after, added) && InOrder(after) && p in changed && p in after.pending
    requires r in after.pending && r !in changed && Outranks(Rank(after.pending, r), Rank(after.pending, p))
    ensures Reaches(q, r, Rank(after.pending, p))
  {
    var kp :| kp in added && kp.runId == p;
    assert Ahead(after.heap, r, p) && kp in after.heap;
    var kr :| kr in after.heap && kr.runId == r && Above(kr, kp);
    assert kr in q.heap && !Outranks(Rank(after.pending, p), kr);
  }

  lemma InOrderFits(q: Queue, changed: set<RunId>, after: Queue, added: multiset<ReadyKey>)
    requires Rekeyed(q, changed, after, added) && Later(q, added) && InOrder(after)
    ensures Fits(q, changed, after.pending)
  {
    forall r | r in after.pending && r !in changed ensures HasKey(q, r) {
      assert HasKey(after, r);
      var k :| k in after.heap && k.runId == r;
      assert k in q.heap;
    }
    forall p, r, kp | WillOutrank(after.pending, r, p) && kp in q.heap && kp.runId == p
      ensures Passes(q, changed, Rank(after.pending, r), r, kp)
    {
      InOrderPasses(q, changed, after, added, p, r, kp);
    }
    forall p, r | WillOutrank(after.pending, r, p) && p in changed && r !in changed
      ensures Reaches(q, r, Rank(after.pending, p))
    {
      InOrderReaches(q, changed, after, added, p, r);
    }
  }

  lemma RekeyInOrderIff(q: Queue, changed: set<RunId>, after: Queue, added: multiset<ReadyKey>)
    requires Keyed(after) && Rekeyed(q, changed, after, added) && Later(q, added)
    ensures InOrder(after) <==> Fits(q, changed, after.pending)
  {
    if Fits(q, changed, after.pending) {
      RekeyedInOrder(q, changed, after, added);
    } else if InOrder(after) {
      InOrderFits(q, changed, after, added);
    }
  }

  /** The heap would hold too many keys with `more` of them. */
  predicate Rebuilds(q: Queue, pending: map<RunId, PendingExecution>, more: nat) {
    |q.heap| + more > KeyLimit(q.(pending := pending))
  }

  lemma RebuiltInOrder(q: Queue, after: Queue)
    requires Keyed(q) && after.pending == q.pending && KeysFor(q.pending, q.pending.Keys, after.heap)
    ensures InOrder(after)
  {
    RebuiltFaithful(q, after);
    FaithfulInOrder(after);
  }

  /** From any queue whose counter has not wrapped around: after an insertion the queue is in order exactly if the
      heap was rebuilt, or the other runs were in order and the new one fits in. */
  lemma InsertInOrderIff(q: Queue, p: PendingExecution, after: Queue)
    requires Keyed(q) && Stamped(q) && q.sequence < U64_MAX && Inserted(q, p, after)
    ensures InOrder(after) <==>
              Rebuilds(q, q.pending[p.runId := p], 1) || Fits(q, {p.runId}, q.pending[p.runId := p])
  {
    if Rebuilds(q, q.pending[p.runId := p], 1) {
      InsertedRebuilt(q, p, after);
    } else {
      var added := InsertedIsRekeyed(q, p, after);
      RekeyInOrderIff(q, {p.runId}, after, added);
    }
  }

  lemma InsertedRebuilt(q: Queue, p: PendingExecution, after: Queue)
    requires Keyed(q) && Inserted(q, p, after) && Rebuilds(q, q.pending[p.runId := p], 1)
    ensures InOrder(after)
  {
    var n := NextSequence(q.sequence);
    var mid := Queue(q.heap + multiset{KeyOf(p, n)}, q.pending[p.runId := p], n);
    assert |mid.heap| == |q.heap| + 1;
    RebuiltInOrder(mid, after);
  }

  lemma InsertedIsRekeyed(q: Queue, p: PendingExecution, after: Queue) returns (added: multiset<ReadyKey>)
    requires Stamped(q) && q.sequence < U64_MAX && Inserted(q, p, after) && !Rebuilds(q, q.pending[p.runId := p], 1)
    ensures Rekeyed(q, {p.runId}, after, added) && after.pending == q.pending[p.runId := p] && Later(q, added)
  {
    var key := KeyOf(p, NextSequence(q.sequence));
    added := multiset{key};
    assert after == Queue(q.heap + added, q.pending[p.runId := p], NextSequence(q.sequence));
    assert forall k :: k in after.heap <==> k in q.heap || k in added;
    assert key in added;
  }

  /** No key carries a number the counter has not reached. */
  ghost predicate Stamped(q: Queue) {
    forall k :: k in q.heap ==> k.sequence <= q.sequence
  }

  lemma MigratedIsRekeyed(q: Queue, jobId: JobId, version: nat, priority: nat, after: Queue)
    returns (added: multiset<ReadyKey>)
    requires Migrated(q, jobId, version, priority, after) && |q.heap| + |RunsOf(q, jobId)| <= KeyLimit(q)
    ensures Rekeyed(q, RunsOf(q, jobId), after, added) && after.pending == MigratedPending(q, jobId, version, priority)
    ensures Stamped(q) && q.sequence + |RunsOf(q, jobId)| <= U64_MAX ==> Later(q, added)
  {
    added := MigratedWithoutRebuild(q, jobId, version, priority, after);
    assert forall k :: k in after.heap <==> k in q.heap || k in added;
  }

  lemma MigratedRebuilt(q: Queue, jobId: JobId, version: nat, priority: nat, after: Queue)
    requires Keyed(q) && Migrated(q, jobId, version, priority, after) && |q.heap| + |RunsOf(q, jobId)| > KeyLimit(q)
    ensures InOrder(after)
  {
    var moved := MigratedPending(q, jobId, version, priority);
    var added, n :| && KeysFor(moved, RunsOf(q, jobId), added) && Issued(q.sequence, |RunsOf(q, jobId)|, n, added)
                    && Compacted(Queue(q.heap + added, moved, n), after);
    var mid := Queue(q.heap + added, moved, n);
    assert |mid.heap| == |q.heap| + |RunsOf(q, jobId)|;
    assert moved.Keys == q.pending.Keys;
    MapSize(moved);
    MapSize(q.pending);
    RebuiltInOrder(mid, after);
  }

  /** From any queue whose counter does not wrap around: after a migration the queue is in order exactly if the heap
      was rebuilt, or the other runs were in order and the migrated ones fit in. */
  lemma MigrateInOrderIff(q: Queue, jobId: JobId, version: nat, priority: nat, after: Queue)
    requires Keyed(q) && Stamped(q) && q.sequence + |RunsOf(q, jobId)| <= U64_MAX
    requires Migrated(q, jobId, version, priority, after)
    ensures InOrder(after) <==>
              || |q.heap| + |RunsOf(q, jobId)| > KeyLimit(q)
              || Fits(q, RunsOf(q, jobId), MigratedPending(q, jobId, version, priority))
  {
    if |q.heap| + |RunsOf(q, jobId)| > KeyLimit(q) {
      MigratedRebuilt(q, jobId, version, priority, after);
    } else {
      var added := MigratedIsRekeyed(q, jobId, version, priority, after);
      MigratedRecords(q, jobId, version, priority);
      RekeyInOrderIff(q, RunsOf(q, jobId), after, added);
    }
  }

  /** A run whose new record ranks below another is still served first if its old one ranked above. */
  lemma OldKeyServes(q: Queue, changed: set<RunId>, after: Queue, added: multiset<ReadyKey>, a: RunId, b: RunId)
    requires Keyed(after) && Faithful(q) && Rekeyed(q, changed, after, added)
    requires a in changed && a in q.pending && b in q.pending && b !in changed
    requires Outranks(Rank(q.pending, a), Rank(q.pending, b)) && Outranks(Rank(q.pending, b), Rank(after.pending, a))
    ensures ServedWrongly(after, a)
  {
    var ka :| ka in q.heap && ka.runId == a && ka == KeyOf(q.pending[a], ka.sequence);
    assert ka in after.heap;
    forall kb | kb in after.heap && kb.runId == b ensures !Above(kb, ka) {
      assert kb in q.heap && !Outranks(kb, Rank(q.pending, b));
    }
    assert !Ahead(after.heap, b, a);
    InversionMisserved(after, a, b);
  }

  lemma MigratedRecords(q: Queue, jobId: JobId, version: nat, priority: nat)
    requires Keyed(q)
    ensures var moved := MigratedPending(q, jobId, version, priority);
            && (forall r :: r in moved ==> moved[r].runId == r)
            && (forall r :: r in RunsOf(q, jobId) ==>
                moved[r] == q.pending[r].(version := version, priority := priority))
  {
  }

  /** A run lowered past another Job's run is still served first: some pop after the migration returns it
      although the other may start and outranks it. */
  lemma LoweredIsServedFirst(q: Queue, version: nat, priority: nat, after: Queue, a: RunId, b: RunId)
    requires Keyed(q) && Faithful(q) && a in q.pending && b in q.pending && q.pending[a].jobId != q.pending[b].jobId
    requires q.pending[a].batchId == q.pending[b].batchId && priority < q.pending[b].priority < q.pending[a].priority
    requires Migrated(q, q.pending[a].jobId, version, priority, after)
    requires |q.heap| + |RunsOf(q, q.pending[a].jobId)| <= KeyLimit(q)
    ensures ServedWrongly(after, a) && after.pending[a] == q.pending[a].(version := version, priority := priority)
  {
    var jobId := q.pending[a].jobId;
    var added := MigratedIsRekeyed(q, jobId, version, priority, after);
    var lowered := q.pending[a].(version := version, priority := priority);
    assert Keyed(after) && a in after.pending && after.pending[a] == lowered by {
      MigratedRecords(q, jobId, version, priority);
      assert a in RunsOf(q, jobId);
    }
    OldKeyServes(q, RunsOf(q, jobId), after, added, a, b);
  }

  // ----- the counter -----

  lemma StampedCompacted(q: Queue, after: Queue)
    requires Stamped(q) && Compacted(q, after) && q.sequence + |q.pending| <= U64_MAX
    ensures Stamped(after) && q.sequence <= after.sequence
  {
  }

  lemma StampedMigrate(q: Queue, jobId: JobId, version: nat, priority: nat, after: Queue)
    requires Stamped(q) && Migrated(q, jobId, version, priority, after) && q.sequence + 2 * |q.pending| <= U64_MAX
    ensures Stamped(after) && q.sequence <= after.sequence
  {
    var moved := MigratedPending(q, jobId, version, priority);
    var added, n :| KeysFor(moved, RunsOf(q, jobId), added) && Issued(q.sequence, |RunsOf(q, jobId)|, n, added)
                    && Compacted(Queue(q.heap + added, moved, n), after);
    assert moved.Keys == q.pending.Keys;
    MapSize(moved);
    MapSize(q.pending);
    SubsetSize(RunsOf(q, jobId), q.pending.Keys);
    assert forall k :: k in q.heap + added ==> k in q.heap || k in added;
    StampedCompacted(Queue(q.heap + added, moved, n), after);
  }

  lemma StampedInsert(q: Queue, p: PendingExecution, after: Queue)
    requires Stamped(q) && Inserted(q, p, after) && q.sequence + |q.pending| + 2 <= U64_MAX
    ensures Stamped(after) && q.sequence <= after.sequence
  {
    var n := NextSequence(q.sequence);
    var mid := Queue(q.heap + multiset{KeyOf(p, n)}, q.pending[p.runId := p], n);
    assert mid.pending.Keys == q.pending.Keys + {p.runId};
    MapSize(mid.pending);
    MapSize(q.pending);
    assert forall k :: k in mid.heap ==> k in q.heap || k == KeyOf(p, n);
    StampedCompacted(mid, after);
  }

  /** The counter stays ahead of every key as long as it does not wrap around. */
  lemma StampedNext(q: Queue, op: Operation, after: Queue)
    requires Stamped(q) && Next(q, op, after) && q.sequence + 2 * |q.pending| + 2 <= U64_MAX
    ensures Stamped(after) && q.sequence <= after.sequence
  {
    match op {
      case Insert(p) => StampedInsert(q, p, after);
      case Migrate(jobId, version, priority) => StampedMigrate(q, jobId, version, priority, after);
      case Remove(_) =>
      case Pop(canRun, result) =>
        PopShrinks(q, canRun, result, after);
    }
  }

  lemma PopShrinks(q: Queue, canRun: PendingExecution -> bool, result: Option<PendingExecution>, after: Queue)
    requires Popped(q, canRun, result, after)
    ensures after.sequence == q.sequence && forall k :: k in after.heap ==> k in q.heap
  {
    if result.Some? {
      assert forall k :: after.heap[k] <= q.heap[k];
    }
  }

  // ----- one queue written out -----

  /** Two runs of one batch are inserted, and the Job of the better one is lowered below the other. */
  ghost predicate LoweredPair(a: PendingExecution, b: PendingExecution, version: nat, low: nat, q: Queue) {
    var lowered := a.(version := version, priority := low);
    q == Queue(multiset{KeyOf(a, 1), KeyOf(b, 2), KeyOf(lowered, 3)}, map[a.runId := lowered, b.runId := b], 3)
  }

  function Pair(a: PendingExecution, b: PendingExecution): Queue {
    Queue(multiset{KeyOf(a, 1), KeyOf(b, 2)}, map[a.runId := a, b.runId := b], 2)
  }

  lemma PairInserted(a: PendingExecution, b: PendingExecution)
    requires a.runId != b.runId
    ensures var one := Queue(multiset{KeyOf(a, 1)}, map[a.runId := a], 1);
            Inserted(EMPTY_QUEUE, a, one) && Inserted(one, b, Pair(a, b))
  {
    var one := Queue(multiset{KeyOf(a, 1)}, map[a.runId := a], 1);
    assert EMPTY_QUEUE.heap + multiset{KeyOf(a, 1)} == one.heap;
    assert one.heap + multiset{KeyOf(b, 2)} == Pair(a, b).heap;
  }

  lemma PairMigrated(a: PendingExecution, b: PendingExecution, version: nat, low: nat, moved: Queue)
    requires a.runId != b.runId && a.jobId != b.jobId && LoweredPair(a, b, version, low, moved)
    ensures Migrated(Pair(a, b), a.jobId, version, low, moved)
  {
    var key := KeyOf(moved.pending[a.runId], 3);
    assert MigratedPending(Pair(a, b), a.jobId, version, low) == moved.pending;
    assert RunsOf(Pair(a, b), a.jobId) == {a.runId};
    assert key in multiset{key};
    assert KeysFor(moved.pending, {a.runId}, multiset{key});
    assert moved.heap == Pair(a, b).heap + multiset{key};
    assert Compacted(Queue(Pair(a, b).heap + multiset{key}, moved.pending, 3), moved);
  }

  predicate Anything(p: PendingExecution) {
    true
  }

  lemma LoweredServed(a: PendingExecution, b: PendingExecution, version: nat, low: nat, q: Queue)
    requires a.runId != b.runId && a.jobId != b.jobId && a.batchId == b.batchId && low < b.priority < a.priority
    requires LoweredPair(a, b, version, low, q)
    ensures exists later :: Popped(q, Anything, Some(q.pending[a.runId]), later)
    ensures !PlainBest(q, Anything, q.pending[a.runId])
  {
    var lowered := a.(version := version, priority := low);
    assert BestKey(q, Anything, KeyOf(a, 1)) by {
      assert forall k :: k in q.heap ==> k == KeyOf(a, 1) || k == KeyOf(b, 2) || k == KeyOf(lowered, 3);
    }
    PopCompletes(q, Anything, KeyOf(a, 1));
    assert b.runId in q.pending && Anything(q.pending[b.runId]) && Outranks(KeyOf(b, 0), KeyOf(lowered, 0));
  }

  /** Two runs are inserted, the better one is lowered below the other, and the next pop still serves it
      although both may start. */
  lemma TwoRunsMisserved(a: PendingExecution, b: PendingExecution, version: nat, low: nat)
    returns (one: Queue, two: Queue, q: Queue)
    requires a.runId != b.runId && a.jobId != b.jobId && a.batchId == b.batchId && low < b.priority < a.priority
    ensures Inserted(EMPTY_QUEUE, a, one) && Inserted(one, b, two) && Migrated(two, a.jobId, version, low, q)
    ensures a.runId in q.pending && exists later :: Popped(q, Anything, Some(q.pending[a.runId]), later)
    ensures a.runId in q.pending && !PlainBest(q, Anything, q.pending[a.runId])
  {
    var lowered := a.(version := version, priority := low);
    one, two := Queue(multiset{KeyOf(a, 1)}, map[a.runId := a], 1), Pair(a, b);
    q := Queue(multiset{KeyOf(a, 1), KeyOf(b, 2), KeyOf(lowered, 3)}, map[a.runId := lowered, b.runId := b], 3);
    PairInserted(a, b);
    PairMigrated(a, b, version, low, q);
    LoweredServed(a, b, version, low, q);
  }

  // ----- ties -----

  /** The records in the order they were inserted. */
  function Arrivals(ops: seq<Operation>): seq<PendingExecution> {
    if ops == [] then []
    else Arrivals(ops[..|ops| - 1]) + if ops[|ops| - 1].Insert? then [ops[|ops| - 1].p] else []
  }

  /** Every run has been inserted once, its key carries its place in the order of arrival, and its record is
      the one that was inserted. */
  ghost predicate Fifo(q: Queue, arrivals: seq<PendingExecution>) {
    && q.sequence == |arrivals|
    && (forall i, j :: 0 <= i < j < |arrivals| ==> arrivals[i].runId != arrivals[j].runId)
    && (forall k :: k in q.heap ==> 1 <= k.sequence <= |arrivals| && k == KeyOf(arrivals[k.sequence - 1], k.sequence))
    && (forall i :: 0 <= i < |arrivals| && arrivals[i].runId in q.pending ==>
        q.pending[arrivals[i].runId] == arrivals[i])
  }

  /** Runs of equal rank are served in the order they were inserted: a pop that may start the earlier one does
      not return the later one. */
  lemma TiesInInsertionOrder(q: Queue, arrivals: seq<PendingExecution>, canRun: PendingExecution -> bool,
                             result: PendingExecution, after: Queue, i: nat, j: nat)
    requires Keyed(q) && Fifo(q, arrivals) && Popped(q, canRun, Some(result), after) && i < j < |arrivals|
    requires var a, b := arrivals[i], arrivals[j];
             && a.batchId == b.batchId && a.priority == b.priority && a.scheduledAt == b.scheduledAt
             && a.runId in q.pending && HasKey(q, a.runId) && canRun(a)
    ensures result != arrivals[j]
  {
    var a, b := arrivals[i], arrivals[j];
    var best :| BestKey(q, canRun, best) && result == q.pending[best.runId];
    var ka :| ka in q.heap && ka.runId == a.runId;
    KeyAt(q, arrivals, ka, i);
    assert Dispatchable(q, canRun, ka) && Above(ka, KeyOf(b, j + 1));
    forall k | k in q.heap && k.runId == b.runId ensures k == KeyOf(b, j + 1) { KeyAt(q, arrivals, k, j); }
  }

  lemma KeyAt(q: Queue, arrivals: seq<PendingExecution>, k: ReadyKey, i: nat)
    requires Fifo(q, arrivals) && k in q.heap && i < |arrivals| && k.runId == arrivals[i].runId
    ensures k == KeyOf(arrivals[i], i + 1)
  {
    assert arrivals[k.sequence - 1].runId == k.runId;
  }

  /** Operations that leave every run its one key: no migration, no second insertion of a run, no rebuild, and
      a counter that does not wrap around. */
  ghost predicate Simple(q: Queue, arrivals: seq<PendingExecution>, op: Operation) {
    match op
    case Insert(p) =>
      && (forall i :: 0 <= i < |arrivals| ==> arrivals[i].runId != p.runId)
      && |q.heap| + 1 <= KeyLimit(q.(pending := q.pending[p.runId := p])) && |arrivals| < U64_MAX
    case Migrate(_, _, _) => false
    case Remove(_) => true
    case Pop(_, _) => true
  }

  lemma SimpleInsert(q: Queue, arrivals: seq<PendingExecution>, p: PendingExecution, after: Queue)
    requires q.sequence == |arrivals| && Simple(q, arrivals, Insert(p)) && Inserted(q, p, after)
    ensures after == Queue(q.heap + multiset{KeyOf(p, |arrivals| + 1)}, q.pending[p.runId := p], |arrivals| + 1)
  {
  }

  lemma FifoInsert(q: Queue, arrivals: seq<PendingExecution>, p: PendingExecution, after: Queue)
    requires Fifo(q, arrivals) && forall i :: 0 <= i < |arrivals| ==> arrivals[i].runId != p.runId
    requires after == Queue(q.heap + multiset{KeyOf(p, |arrivals| + 1)}, q.pending[p.runId := p], |arrivals| + 1)
    ensures Fifo(after, arrivals + [p])
  {
    forall k | k in after.heap
      ensures 1 <= k.sequence <= |arrivals| + 1 && k == KeyOf((arrivals + [p])[k.sequence - 1], k.sequence)
    {
      assert k in q.heap || k == KeyOf(p, |arrivals| + 1);
    }
  }

  lemma FifoShrinks(q: Queue, arrivals: seq<PendingExecution>, after: Queue)
    requires Fifo(q, arrivals) && after.sequence == q.sequence && (forall k :: k in after.heap ==> k in q.heap)
    requires forall r :: r in after.pending ==> r in q.pending && after.pending[r] == q.pending[r]
    ensures Fifo(after, arrivals)
  {
  }

  lemma FifoNext(q: Queue, arrivals: seq<PendingExecution>, op: Operation, after: Queue)
    requires Fifo(q, arrivals) && Simple(q, arrivals, op) && Next(q, op, after)
    ensures Fifo(after, arrivals + if op.Insert? then [op.p] else [])
  {
    if op.Insert? {
      SimpleInsert(q, arrivals, op.p, after);
      FifoInsert(q, arrivals, op.p, after);
    } else {
      if op.Pop? { PopShrinks(q, op.canRun, op.result, after); }
      FifoShrinks(q, arrivals, after);
      assert arrivals + [] == arrivals;
    }
  }

  /** From an empty queue, simple operations keep this in every state. */
  lemma {:induction false} FifoHistory(states: seq<Queue>, ops: seq<Operation>, n: nat)
    requires History(states, ops) && n <= |ops|
    requires forall i :: 0 <= i < n ==> Simple(states[i], Arrivals(ops[..i]), ops[i])
    ensures Keyed(states[n]) && Fifo(states[n], Arrivals(ops[..n]))
  {
    if n > 0 {
      FifoHistory(states, ops, n - 1);
      assert ops[..n][..n - 1] == ops[..n - 1];
      assert Next(states[n - 1], ops[n - 1], states[n]);
      FifoNext(states[n - 1], Arrivals(ops[..n - 1]), ops[n - 1], states[n]);
      KeyedNext(states[n - 1], ops[n - 1], states[n]);
    } else {
      assert ops[..0] == [];
    }
  }
}
