/** The queue of due runs: an authoritative map of pending runs and a heap of sort keys that may be
    stale. Each operation is a relation between the queue before and after, because hash-map iteration
    decides which run gets which sequence number. */
module ReadyQueues {
  import opened Basics

  /** A UUID, compared as the 128-bit number its bytes spell. */
  type RunId = nat

  datatype PendingKind = Normal | Once | RunNow | Retry

  datatype PendingExecution = PendingExecution(
    jobId: JobId, version: nat, runId: RunId, attempt: nat,
    scheduledAt: int, kind: PendingKind, priority: nat, batchId: nat)

  datatype ReadyKey = ReadyKey(batchId: nat, priority: nat, scheduledAt: int, sequence: nat, runId: RunId)

  datatype Queue = Queue(heap: multiset<ReadyKey>, pending: map<RunId, PendingExecution>, sequence: nat)

  const EMPTY_QUEUE := Queue(multiset{}, map[], 0)

  /** `a` is served before `b`: older batch, higher priority, earlier time, lower sequence. */
  predicate Above(a: ReadyKey, b: ReadyKey) {
    if a.batchId != b.batchId then a.batchId < b.batchId
    else if a.priority != b.priority then a.priority > b.priority
    else if a.scheduledAt != b.scheduledAt then a.scheduledAt < b.scheduledAt
    else if a.sequence != b.sequence then a.sequence < b.sequence
    else a.runId > b.runId
  }

  function KeyOf(p: PendingExecution, sequence: nat): ReadyKey {
    ReadyKey(p.batchId, p.priority, p.scheduledAt, sequence, p.runId)
  }

  /** The part of the order that comes from the run itself. */
  predicate Outranks(a: ReadyKey, b: ReadyKey) {
    if a.batchId != b.batchId then a.batchId < b.batchId
    else if a.priority != b.priority then a.priority > b.priority
    else a.scheduledAt < b.scheduledAt
  }

  predicate IsReplaceable(kind: PendingKind) {
    kind.Normal?
  }

  function NextSequence(n: nat): nat {
    (n + 1) % (U64_MAX + 1)
  }

  /** Every record sits under its own run id. */
  ghost predicate Keyed(q: Queue) {
    forall r :: r in q.pending ==> q.pending[r].runId == r
  }

  // ----- operations -----

  /** How many keys the heap may hold before it is rebuilt. */
  function KeyLimit(q: Queue): nat {
    2 * |q.pending| + 64
  }

  /** `keys` holds one key with current fields for each run in `runs`, and nothing else. */
  ghost predicate KeysFor(pending: map<RunId, PendingExecution>, runs: set<RunId>, keys: multiset<ReadyKey>)
    requires runs <= pending.Keys
  {
    && |keys| == |runs|
    && (forall k :: k in keys ==> k.runId in runs && k == KeyOf(pending[k.runId], k.sequence))
    && (forall r :: r in runs ==> exists k :: k in keys && k.runId == r)
  }

  /** The keys carry the `count` sequence numbers between `from` and `to`, unless the counter wraps around. */
  ghost predicate Issued(from: nat, count: nat, to: nat, keys: multiset<ReadyKey>) {
    from + count <= U64_MAX ==> to == from + count && forall k :: k in keys ==> from < k.sequence <= to
  }

  /** All of `runs` but `todo` have their new key. */
  ghost predicate Keying(pending: map<RunId, PendingExecution>, runs: set<RunId>, todo: set<RunId>,
                         from: nat, sequence: nat, keys: multiset<ReadyKey>)
  {
    && todo <= runs <= pending.Keys
    && KeysFor(pending, runs - todo, keys) && Issued(from, |runs - todo|, sequence, keys)
  }

  lemma KeyingStep(pending: map<RunId, PendingExecution>, runs: set<RunId>, todo: set<RunId>,
                   from: nat, sequence: nat, keys: multiset<ReadyKey>, r: RunId)
    requires Keying(pending, runs, todo, from, sequence, keys) && r in todo && pending[r].runId == r
    ensures var next := NextSequence(sequence);
            Keying(pending, runs, todo - {r}, from, next, keys + multiset{KeyOf(pending[r], next)})
  {
    var key := KeyOf(pending[r], NextSequence(sequence));
    assert runs - (todo - {r}) == (runs - todo) + {r};
    KeysForOneMore(pending, runs - todo, keys, r, key);
    IssuedOneMore(from, |runs - todo|, sequence, keys, key);
  }

  lemma IssuedOneMore(from: nat, count: nat, to: nat, keys: multiset<ReadyKey>, key: ReadyKey)
    requires Issued(from, count, to, keys) && key.sequence == NextSequence(to)
    ensures Issued(from, count + 1, NextSequence(to), keys + multiset{key})
  {
    assert forall k :: k in keys + multiset{key} <==> k in keys || k == key;
  }

  lemma KeysForOneMore(pending: map<RunId, PendingExecution>, runs: set<RunId>, keys: multiset<ReadyKey>, r: RunId,
                       key: ReadyKey)
    requires runs <= pending.Keys && KeysFor(pending, runs, keys) && r in pending && r !in runs
    requires key.runId == r && key == KeyOf(pending[r], key.sequence)
    ensures KeysFor(pending, runs + {r}, keys + multiset{key})
  {
    var more := keys + multiset{key};
    assert forall k :: k in more <==> k in keys || k == key;
    assert key in more;
  }

  /** Rebuild the heap from the authoritative records when stale keys pile up. */
  ghost predicate Compacted(q: Queue, after: Queue) {
    if |q.heap| <= KeyLimit(q) then after == q
    else
      && after.pending == q.pending && KeysFor(q.pending, q.pending.Keys, after.heap)
      && Issued(q.sequence, |q.pending|, after.sequence, after.heap)
  }

  ghost predicate Inserted(q: Queue, p: PendingExecution, after: Queue) {
    var n := NextSequence(q.sequence);
    Compacted(Queue(q.heap + multiset{KeyOf(p, n)}, q.pending[p.runId := p], n), after)
  }

  function RunsOf(q: Queue, jobId: JobId): set<RunId> {
    set r | r in q.pending && q.pending[r].jobId == jobId
  }

  /** The records after a resource patch of a Job. */
  function MigratedPending(q: Queue, jobId: JobId, version: nat, priority: nat): map<RunId, PendingExecution> {
    map r | r in q.pending ::
      if q.pending[r].jobId == jobId then q.pending[r].(version := version, priority := priority) else q.pending[r]
  }

  /** Patched runs get an additional key; their old keys stay behind. */
  ghost predicate Migrated(q: Queue, jobId: JobId, version: nat, priority: nat, after: Queue) {
    exists added, n ::
      && KeysFor(MigratedPending(q, jobId, version, priority), RunsOf(q, jobId), added)
      && Issued(q.sequence, |RunsOf(q, jobId)|, n, added)
      && Compacted(Queue(q.heap + added, MigratedPending(q, jobId, version, priority), n), after)
  }

  /** Removal touches the records only. */
  function Without(q: Queue, runs: set<RunId>): Queue {
    q.(pending := q.pending - runs)
  }

  /** The key belongs to a pending run that may start now. */
  ghost predicate Dispatchable(q: Queue, canRun: PendingExecution -> bool, k: ReadyKey) {
    k in q.heap && k.runId in q.pending && canRun(q.pending[k.runId])
  }

  /** `k` is the best dispatchable key. */
  ghost predicate BestKey(q: Queue, canRun: PendingExecution -> bool, k: ReadyKey) {
    Dispatchable(q, canRun, k) && forall other :: Dispatchable(q, canRun, other) ==> !Above(other, k)
  }

  /** The heap after the run of `k` was taken: one copy of `k` and the stale keys above it are gone. */
  ghost predicate HeapAfter(q: Queue, k: ReadyKey, heap: multiset<ReadyKey>)
    requires k in q.heap
  {
    forall x :: heap[x] ==
      if x == k then q.heap[x] - 1
      else if x.runId !in q.pending && Above(x, k) then 0
      else q.heap[x]
  }

  /** Take the run of the best dispatchable key. With none, every key is lost. */
  ghost predicate Popped(q: Queue, canRun: PendingExecution -> bool, result: Option<PendingExecution>, after: Queue) {
    match result
    case None => (forall k :: !Dispatchable(q, canRun, k)) && after == q.(heap := multiset{})
    case Some(p) =>
      exists k :: && BestKey(q, canRun, k) && p == q.pending[k.runId]
                  && after == Queue(after.heap, q.pending - {k.runId}, q.sequence)
                  && HeapAfter(q, k, after.heap)
  }

  datatype Operation =
    | Insert(p: PendingExecution)
    | Migrate(jobId: JobId, version: nat, priority: nat)
    | Remove(runs: set<RunId>)
    | Pop(canRun: PendingExecution -> bool, result: Option<PendingExecution>)

  ghost predicate Next(q: Queue, op: Operation, after: Queue) {
    match op
    case Insert(p) => Inserted(q, p, after)
    case Migrate(jobId, version, priority) => Migrated(q, jobId, version, priority, after)
    case Remove(runs) => after == Without(q, runs)
    case Pop(canRun, result) => Popped(q, canRun, result, after)
  }

  // ----- the object -----

  lemma HighestExists(heap: multiset<ReadyKey>)
    requires heap != multiset{}
    ensures exists k :: k in heap && forall x :: x in heap ==> !Above(x, k)
    decreases |heap|
  {
    var y :| y in heap;
    var rest := heap - multiset{y};
    if rest == multiset{} {
      assert heap == multiset{y};
      assert y in heap && forall x :: x in heap ==> !Above(x, y);
    } else {
      HighestExists(rest);
      var m :| m in rest && forall x :: x in rest ==> !Above(x, m);
      var best := if Above(y, m) then y else m;
      forall x | x in heap ensures !Above(x, best) {
        if x != y { assert x in rest; }
      }
      assert best in heap;
    }
  }

  class ReadyQueue {
    var heap: multiset<ReadyKey>
    var pending: map<RunId, PendingExecution>
    var sequence: nat

    ghost function State(): Queue
      reads this
    {
      Queue(heap, pending, sequence)
    }

    constructor ()
      ensures State() == EMPTY_QUEUE
    {
      heap, pending, sequence := multiset{}, map[], 0;
    }

    method Insert(p: PendingExecution)
      requires Keyed(State())
      modifies this
      ensures Inserted(old(State()), p, State()) && Keyed(State())
    {
      sequence := NextSequence(sequence);
      heap := heap + multiset{KeyOf(p, sequence)};
      pending := pending[p.runId := p];
      CompactIfNeeded();
    }

    method CompactIfNeeded()
      requires Keyed(State())
      modifies this
      ensures Compacted(old(State()), State())
    {
      if |heap| <= 2 * |pending| + 64 { return; }
      heap := AddKeys(pending.Keys);
      MapSize(pending);
    }

    /** One fresh key for each of `runs`, in whatever order they come. */
    method AddKeys(runs: set<RunId>) returns (keys: multiset<ReadyKey>)
      requires runs <= pending.Keys && Keyed(State())
      modifies this`sequence
      ensures KeysFor(pending, runs, keys) && Issued(old(sequence), |runs|, sequence, keys)
    {
      keys := multiset{};
      var todo := runs;
      while todo != {}
        invariant Keying(pending, runs, todo, old(sequence), sequence, keys)
      {
        var r :| r in todo;
        KeyingStep(pending, runs, todo, old(sequence), sequence, keys, r);
        sequence := NextSequence(sequence);
        keys := keys + multiset{KeyOf(pending[r], sequence)};
        todo := todo - {r};
      }
      assert runs - todo == runs;
    }

    method MigrateJob(jobId: JobId, version: nat, priority: nat)
      requires Keyed(State())
      modifies this
      ensures Migrated(old(State()), jobId, version, priority, State()) && Keyed(State())
    {
      ghost var before := State();
      var runs := set r | r in pending && pending[r].jobId == jobId;
      pending := map r | r in pending ::
        if pending[r].jobId == jobId then pending[r].(version := version, priority := priority) else pending[r];
      assert pending == MigratedPending(before, jobId, version, priority);
      var added := AddKeys(runs);
      heap := heap + added;
      ghost var n := sequence;
      assert runs == RunsOf(before, jobId);
      assert State() == Queue(before.heap + added, MigratedPending(before, jobId, version, priority), n);
      CompactIfNeeded();
    }

    /** Remove one copy of the greatest key. */
    method TakeHighest() returns (key: ReadyKey)
      requires heap != multiset{}
      modifies this`heap
      ensures old(heap) == heap + multiset{key} && |heap| < |old(heap)|
      ensures forall x :: x in heap ==> !Above(x, key)
    {
      HighestExists(heap);
      key :| key in heap && forall x :: x in heap ==> !Above(x, key);
      heap := heap - multiset{key};
    }

    /** Take keys out until one can be served, setting blocked ones aside. */
    method Select(canRun: PendingExecution -> bool)
      returns (selected: Option<ReadyKey>, blocked: seq<ReadyKey>, ghost dead: multiset<ReadyKey>)
      modifies this`heap
      ensures selected.None? ==> heap == multiset{} && Drained(old(State()), canRun, heap, multiset(blocked), dead)
      ensures selected.Some? ==>
                && Drained(old(State()), canRun, heap + multiset{selected.value}, multiset(blocked), dead)
                && selected.value.runId in pending && canRun(pending[selected.value.runId])
                && forall x :: x in heap ==> !Above(x, selected.value)
    {
      blocked, dead := [], multiset{};
      while heap != multiset{}
        invariant Drained(old(State()), canRun, heap, multiset(blocked), dead)
        decreases |heap|
      {
        var key := TakeHighest();
        DrainStep(old(State()), canRun, heap, multiset(blocked), dead, key);
        if key.runId !in pending {
          dead := dead + multiset{key};
        } else if canRun(pending[key.runId]) {
          return Some(key), blocked, dead;
        } else {
          MultisetAppend(blocked, key);
          blocked := blocked + [key];
        }
      }
      return None, blocked, dead;
    }

    /** The first run in order that may start; blocked keys go back, unless nothing can start. */
    method PopDispatchable(canRun: PendingExecution -> bool) returns (result: Option<PendingExecution>)
      modifies this
      ensures Popped(old(State()), canRun, result, State())
    {
      var selected, blocked, dead := Select(canRun);
      if selected.None? {
        Exhausted(old(State()), canRun, multiset(blocked), dead);
        return None;
      }
      var key := selected.value;
      DrainStep(old(State()), canRun, heap, multiset(blocked), dead, key);
      result := Some(pending[key.runId]);
      pending := pending - {key.runId};
      heap := heap + multiset(blocked);
    }

    /** The oldest replaceable run of a Job. */
    method RemoveOldestTrigger(jobId: JobId) returns (removed: Option<PendingExecution>)
      requires Keyed(State())
      modifies this
      ensures var q := old(State());
              var candidates := set r | && r in q.pending && q.pending[r].jobId == jobId
                                        && q.pending[r].kind.Normal?;
              match removed
              case None => candidates == {} && State() == q
              case Some(p) =>
                && p.runId in candidates && q.pending[p.runId] == p
                && (forall r :: r in candidates ==> p.scheduledAt <= q.pending[r].scheduledAt)
                && State() == Without(q, {p.runId})
    {
      var candidates := set r | r in pending && pending[r].jobId == jobId && IsReplaceable(pending[r].kind);
      if candidates == {} { return None; }
      var oldest :| oldest in candidates;
      var todo := candidates - {oldest};
      while todo != {}
        invariant oldest in candidates && todo <= candidates
        invariant forall r :: r in candidates && r !in todo ==> pending[oldest].scheduledAt <= pending[r].scheduledAt
      {
        var r :| r in todo;
        if pending[r].scheduledAt < pending[oldest].scheduledAt { oldest := r; }
        todo := todo - {r};
      }
      removed := Some(pending[oldest]);
      pending := pending - {oldest};
    }

    method RemoveNormalTriggers(jobId: JobId)
      modifies this
      ensures var q := old(State());
              var gone := set r | r in q.pending && q.pending[r].jobId == jobId && q.pending[r].kind.Normal?;
              State() == Without(q, gone)
    {
      pending := pending - set r | r in pending && pending[r].jobId == jobId && IsReplaceable(pending[r].kind);
    }

    method RemoveJob(jobId: JobId)
      modifies this
      ensures State() == Without(old(State()), RunsOf(old(State()), jobId))
    {
      pending := pending - set r | r in pending && pending[r].jobId == jobId;
    }
  }

  /** The heap of `q` split into what is left, what was set aside as blocked and what was stale;
      nothing left is above anything taken out. */
  ghost predicate Drained(q: Queue, canRun: PendingExecution -> bool,
                          heap: multiset<ReadyKey>, blocked: multiset<ReadyKey>, dead: multiset<ReadyKey>)
  {
    && q.heap == heap + blocked + dead
    && (forall k :: k in blocked ==> k.runId in q.pending && !canRun(q.pending[k.runId]))
    && (forall k :: k in dead ==> k.runId !in q.pending)
    && (forall x, y :: x in heap && y in blocked + dead ==> !Above(x, y))
  }

  lemma Exhausted(q: Queue, canRun: PendingExecution -> bool, blocked: multiset<ReadyKey>, dead: multiset<ReadyKey>)
    requires Drained(q, canRun, multiset{}, blocked, dead)
    ensures forall k :: !Dispatchable(q, canRun, k)
  {
    forall k | k in q.heap ensures !Dispatchable(q, canRun, k) {
      assert k in blocked || k in dead;
    }
  }

  lemma MultisetAppend(xs: seq<ReadyKey>, k: ReadyKey)
    ensures multiset(xs + [k]) == multiset(xs) + multiset{k}
  {
  }

  lemma DrainStep(q: Queue, canRun: PendingExecution -> bool,
                  rest: multiset<ReadyKey>, blocked: multiset<ReadyKey>, dead: multiset<ReadyKey>, key: ReadyKey)
    requires Drained(q, canRun, rest + multiset{key}, blocked, dead) && forall x :: x in rest ==> !Above(x, key)
    ensures key.runId !in q.pending ==> Drained(q, canRun, rest, blocked, dead + multiset{key})
    ensures key.runId in q.pending && !canRun(q.pending[key.runId]) ==>
              Drained(q, canRun, rest, blocked + multiset{key}, dead)
    ensures key.runId in q.pending && canRun(q.pending[key.runId]) ==>
              Popped(q, canRun, Some(q.pending[key.runId]), Queue(rest + blocked, q.pending - {key.runId}, q.sequence))
  {
    var heap := rest + multiset{key};
    assert forall x :: x in rest ==> x in heap;
    assert key in heap;
    if key.runId in q.pending && canRun(q.pending[key.runId]) {
      SelectedIsBest(q, canRun, key, rest, blocked, dead);
    }
  }

  lemma SelectedIsBest(q: Queue, canRun: PendingExecution -> bool, key: ReadyKey,
                       rest: multiset<ReadyKey>, blocked: multiset<ReadyKey>, dead: multiset<ReadyKey>)
    requires q.heap == rest + multiset{key} + blocked + dead
    requires key.runId in q.pending && canRun(q.pending[key.runId])
    requires forall k :: k in blocked ==> k.runId in q.pending && !canRun(q.pending[k.runId])
    requires forall k :: k in dead ==> k.runId !in q.pending
    requires forall x :: x in rest ==> !Above(x, key)
    requires forall y :: y in blocked || y in dead ==> !Above(key, y)
    ensures BestKey(q, canRun, key) && HeapAfter(q, key, rest + blocked)
  {
    assert key in q.heap;
    forall other | Dispatchable(q, canRun, other) ensures !Above(other, key) {
      assert other in rest || other == key || other in blocked || other in dead;
    }
    var heap := rest + blocked;
    forall x ensures heap[x] == if x == key then q.heap[x] - 1
                                else if x.runId !in q.pending && Above(x, key) then 0 else q.heap[x]
    {
      assert q.heap[x] == rest[x] + multiset{key}[x] + blocked[x] + dead[x];
      if x != key && x.runId !in q.pending && Above(x, key) {
        assert x !in rest && x !in blocked;
      } else if x != key {
        assert x in dead ==> !Above(key, x) && x.runId !in q.pending;
      } else {
        assert key !in dead;
      }
    }
  }
}
