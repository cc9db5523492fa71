/** What the plugin manager keeps: the circuit breaker follows the full failure history, snapshots are
    all-or-nothing, and every process is accounted for. */
module ManagerLaws {
  import opened Basics
  import opened PluginManagers

  // ----- the failure window -----

  predicate Ordered(times: seq<nat>) {
    forall i, j :: 0 <= i < j < |times| ==> times[i] <= times[j]
  }

  lemma {:induction false} AllInWindow(times: seq<nat>, now: nat, window: nat)
    requires forall i :: 0 <= i < |times| ==> times[i] + window >= now
    ensures InWindow(times, now, window) == times
  {
    if times != [] {
      AllInWindow(times[1..], now, window);
      assert times == [times[0]] + times[1..];
    }
  }

  /** Kept are exactly the failures that are not older than the window: a tail of the history. */
  lemma {:induction false} WindowIsTail(times: seq<nat>, now: nat, window: nat) returns (k: nat)
    requires Ordered(times)
    ensures k <= |times| && InWindow(times, now, window) == times[k..]
    ensures forall i :: 0 <= i < k ==> times[i] + window < now
    ensures forall i :: k <= i < |times| ==> times[i] + window >= now
  {
    if times == [] || now <= times[0] + window {
      k := 0;
      AllInWindow(times, now, window);
    } else {
      var later := times[1..];
      var rest := WindowIsTail(later, now, window);
      k := rest + 1;
      assert later[rest..] == times[k..];
      forall i | 0 < i < |times| ensures i < k <==> times[i] + window < now { assert times[i] == later[i - 1]; }
    }
  }

  lemma {:induction false} WindowOfWindow(times: seq<nat>, earlier: nat, now: nat, window: nat)
    requires earlier <= now
    ensures InWindow(InWindow(times, earlier, window), now, window) == InWindow(times, now, window)
  {
    if times != [] {
      WindowOfWindow(times[1..], earlier, now, window);
      var rest := InWindow(times[1..], earlier, window);
      if earlier <= times[0] + window {
        assert InWindow(times, earlier, window) == [times[0]] + rest;
        assert ([times[0]] + rest)[1..] == rest;
      } else {
        assert InWindow(times, earlier, window) == rest;
      }
    }
  }

  lemma {:induction false} WindowAppend(times: seq<nat>, now: nat, window: nat)
    ensures InWindow(times + [now], now, window) == InWindow(times, now, window) + [now]
  {
    if times == [] {
      assert ([] + [now])[1..] == [];
    } else {
      WindowAppend(times[1..], now, window);
      assert (times + [now])[1..] == times[1..] + [now];
    }
  }

  /** The failures the breaker should be counting: the full history, cut to the window before the most
      recent failure. */
  function Counted(history: seq<nat>, window: nat): seq<nat> {
    if history == [] then [] else InWindow(history, history[|history| - 1], window)
  }

  /** The failures counted are those within the window before the most recent one. */
  lemma CountedExact(history: seq<nat>, window: nat) returns (k: nat)
    requires Ordered(history) && history != []
    ensures k < |history| && Counted(history, window) == history[k..]
    ensures forall i :: 0 <= i < |history| ==> (k <= i <==> history[|history| - 1] - history[i] <= window)
  {
    k := WindowIsTail(history, history[|history| - 1], window);
  }

  /** The delay is one second, then doubles with each failure, and stays at 1024 from the eleventh on. */
  lemma RestartDelayIs(failures: nat)
    ensures failures <= 1 ==> RestartDelay(failures) == 1
    ensures 1 <= failures < 11 ==> RestartDelay(failures + 1) == 2 * RestartDelay(failures)
    ensures failures >= 11 ==> RestartDelay(failures) == 1024
  {
    assert Power2(5) == 32;
    assert Power2(10) == 1024;
  }

  /** Pruning as it goes gives the same deque as filtering the full history. */
  lemma PrunedIsFiltered(history: seq<nat>, now: nat, window: nat)
    requires history != [] ==> history[|history| - 1] <= now
    ensures InWindow(Counted(history, window), now, window) + [now] == Counted(history + [now], window)
  {
    WindowAppend(history, now, window);
    if history != [] {
      WindowOfWindow(history, history[|history| - 1], now, window);
    }
  }

  // ----- one entry -----

  /** The breaker state of an entry is determined by its failure history. */
  ghost predicate EntryOk(limits: RuntimeLimits, w: ManagedWorker, history: seq<nat>) {
    && Ordered(history)
    && w.failures == Counted(history, limits.restartWindow)
    && (w.state.Running? <==> w.worker.Some?)
    && (w.state.Paused? <==> |w.failures| >= Max(limits.restartMaxAttempts, 1))
    && (w.state.Restarting? ==> history != [])
    && (w.state.Restarting? && w.nextRestart.Some? ==>
          w.nextRestart.value == history[|history| - 1] + RestartDelay(|w.failures|))
    && (w.windowStarted.None? ==> w.failures == [])
  }

  /** One more failure: the entry stops, pauses exactly when the failures in the window reach the limit,
      and otherwise restarts after one second doubled for each earlier one, at most 1024 seconds. Unless the last
      failure before it is still in the window, a new window starts. */
  lemma FailedOk(limits: RuntimeLimits, w: ManagedWorker, history: seq<nat>, now: nat)
    requires EntryOk(limits, w, history) && (history != [] ==> history[|history| - 1] <= now)
    ensures var after := Failed(limits, w, now);
            && EntryOk(limits, after, history + [now]) && after.worker.None? && after.generation == w.generation
            && (after.state.Paused? <==>
                |Counted(history + [now], limits.restartWindow)| >= Max(limits.restartMaxAttempts, 1))
            && (!after.state.Paused? ==>
                  after.nextRestart == Some(now + RestartDelay(|Counted(history + [now], limits.restartWindow)|)))
            && (after.state.Paused? ==> after.pausedAt == Some(now) && after.nextRestart == None)
            && after.windowStarted == (if history == [] || history[|history| - 1] + limits.restartWindow < now
                                       then Some(now) else w.windowStarted)
  {
    PrunedIsFiltered(history, now, limits.restartWindow);
    NothingKept(history, now, limits.restartWindow);
  }

  /** Nothing is left in the window exactly when the last failure has left it. */
  lemma NothingKept(history: seq<nat>, now: nat, window: nat)
    requires Ordered(history) && (history != [] ==> history[|history| - 1] <= now)
    ensures InWindow(Counted(history, window), now, window) == []
            <==> history == [] || history[|history| - 1] + window < now
  {
    if history != [] {
      var last := history[|history| - 1];
      WindowOfWindow(history, last, now, window);
      var k := WindowIsTail(history, now, window);
      assert k == |history| <==> last + window < now;
    }
  }

  // ----- the whole manager -----

  ghost predicate DistinctHandles(workers: map<PluginKey, ManagedWorker>) {
    forall a, b :: a in workers && b in workers && workers[a].worker.Some? && workers[a].worker == workers[b].worker ==>
      a == b
  }

  ghost predicate DistinctGenerations(workers: map<PluginKey, ManagedWorker>) {
    forall a, b :: a in workers && b in workers && workers[a].generation == workers[b].generation ==> a == b
  }

  /** Every process ever launched is alive or was shut down, and no two entries share one. */
  ghost predicate Accounted(m: Manager) {
    && DistinctHandles(m.workers)
    && (forall key :: key in m.workers && m.workers[key].worker.Some? ==> m.workers[key].worker.value < m.nextHandle)
    && (forall h: Handle :: h in m.live || h in m.stopped <==> h < m.nextHandle)
    && (forall h :: h in m.live ==> h !in m.stopped)
  }

  /** Moreover the entries hold live processes, and none was shut down twice. */
  ghost predicate ProcessesOk(m: Manager) {
    Accounted(m) && Handles(m.workers) <= m.live && forall h :: m.stopped[h] <= 1
  }

  /** Processes that are alive and that no entry holds. */
  function Leaked(m: Manager): set<Handle> {
    m.live - Handles(m.workers)
  }

  ghost predicate EntriesOk(m: Manager) {
    && (forall key :: key in m.workers ==> EntryOk(m.limits, m.workers[key], HistoryOf(m, key)))
    && (forall key :: key in m.workers ==> m.workers[key].generation < m.nextGeneration)
    && DistinctGenerations(m.workers)
  }

  ghost predicate Known(m: Manager) {
    Accounted(m) && EntriesOk(m)
  }

  ghost predicate Inv(m: Manager) {
    ProcessesOk(m) && EntriesOk(m)
  }

  /** No entry has failed after `now`. */
  ghost predicate Past(m: Manager, now: nat) {
    forall key :: key in m.workers && HistoryOf(m, key) != [] ==> HistoryOf(m, key)[|HistoryOf(m, key)| - 1] <= now
  }

  // ----- health polling -----

  lemma HandlesUpdate(workers: map<PluginKey, ManagedWorker>, key: PluginKey, w: ManagedWorker)
    requires key in workers && DistinctHandles(workers)
    ensures Handles(workers[key := w])
            == Handles(workers) - (if workers[key].worker.Some? then {workers[key].worker.value} else {})
               + (if w.worker.Some? then {w.worker.value} else {})
  {
    var after := workers[key := w];
    forall h ensures h in Handles(after) <==>
      h in Handles(workers) - (if workers[key].worker.Some? then {workers[key].worker.value} else {})
           + (if w.worker.Some? then {w.worker.value} else {})
    {
      if h in Handles(after) {
        var k :| k in after && after[k].worker == Some(h);
        if k != key { assert k in workers && workers[k].worker == Some(h); }
      }
      if h in Handles(workers) && !(workers[key].worker == Some(h)) {
        var k :| k in workers && workers[k].worker == Some(h);
        assert k != key && after[k].worker == Some(h);
      }
      if w.worker == Some(h) { assert after[key].worker == Some(h); }
    }
  }

  /** Only the entry of `key` differs, and it is in order. */
  ghost predicate EntryReplaced(m: Manager, after: Manager, key: PluginKey) {
    && key in m.workers && key in after.workers
    && after.workers == m.workers[key := after.workers[key]]
    && after.limits == m.limits && after.nextGeneration == m.nextGeneration
    && after.workers[key].generation == m.workers[key].generation
    && (forall k :: k in m.workers && k != key ==> HistoryOf(after, k) == HistoryOf(m, k))
    && EntryOk(m.limits, after.workers[key], HistoryOf(after, key))
  }

  lemma EntryReplacedKeeps(m: Manager, after: Manager, key: PluginKey)
    requires EntriesOk(m) && EntryReplaced(m, after, key)
    ensures EntriesOk(after)
  {
    forall k | k in after.workers && k != key ensures EntryOk(after.limits, after.workers[k], HistoryOf(after, k)) {
      assert EntryOk(m.limits, m.workers[k], HistoryOf(m, k));
    }
  }

  lemma StopKeeps(m: Manager, after: Manager, key: PluginKey)
    requires ProcessesOk(m) && EntryReplaced(m, after, key)
    requires m.workers[key].worker.Some? && after.workers[key].worker.None?
    requires var h := m.workers[key].worker.value;
             after.live == m.live - {h} && after.stopped == m.stopped + multiset{h} && after.nextHandle == m.nextHandle
    ensures ProcessesOk(after) && Leaked(after) == Leaked(m)
  {
    HandlesUpdate(m.workers, key, after.workers[key]);
    assert m.workers[key].worker.value in Handles(m.workers);
  }

  lemma StartKeeps(m: Manager, after: Manager, key: PluginKey)
    requires ProcessesOk(m) && EntryReplaced(m, after, key)
    requires m.workers[key].worker.None? && after.workers[key].worker == Some(m.nextHandle)
    requires after.live == m.live + {m.nextHandle} && after.stopped == m.stopped && after.nextHandle == m.nextHandle + 1
    ensures ProcessesOk(after) && Leaked(after) == Leaked(m)
  {
    HandlesUpdate(m.workers, key, after.workers[key]);
    assert m.nextHandle !in m.live;
    assert forall k :: k in m.workers && m.workers[k].worker.Some? ==> m.workers[k].worker.value in Handles(m.workers);
  }

  lemma IdleKeeps(m: Manager, after: Manager, key: PluginKey)
    requires ProcessesOk(m) && EntryReplaced(m, after, key)
    requires m.workers[key].worker.None? && after.workers[key].worker.None?
    requires after.live == m.live && after.stopped == m.stopped && after.nextHandle == m.nextHandle
    ensures ProcessesOk(after) && Leaked(after) == Leaked(m)
  {
    HandlesUpdate(m.workers, key, after.workers[key]);
  }

  lemma FailureReplaces(m: Manager, key: PluginKey, now: nat)
    requires Past(m, now) && key in m.workers && EntryOk(m.limits, m.workers[key], HistoryOf(m, key))
    ensures var after := RecordFailure(m, key, m.workers[key].generation, now);
            && EntryReplaced(m, after, key) && Past(after, now) && after.workers[key].worker.None?
            && after.live == m.live && after.stopped == m.stopped && after.nextHandle == m.nextHandle
  {
    var after := RecordFailure(m, key, m.workers[key].generation, now);
    FailedOk(m.limits, m.workers[key], HistoryOf(m, key), now);
    assert after.workers[key] == Failed(m.limits, m.workers[key], now);
    assert HistoryOf(after, key) == HistoryOf(m, key) + [now];
    assert forall k :: k != key ==> HistoryOf(after, k) == HistoryOf(m, k);
  }

  /** The breaker looks only at entries and histories. */
  ghost predicate SameEntries(m: Manager, n: Manager) {
    n == m.(live := n.live, stopped := n.stopped, nextHandle := n.nextHandle)
  }

  lemma SameEntriesOk(m: Manager, n: Manager, now: nat)
    requires SameEntries(m, n) && EntriesOk(m) && Past(m, now)
    ensures EntriesOk(n) && Past(n, now)
    ensures forall key :: HistoryOf(n, key) == HistoryOf(m, key)
  {
    assert forall key :: HistoryOf(n, key) == HistoryOf(m, key);
  }

  /** A dead Worker is shut down, then its failure recorded. */
  lemma FailureKeeps(m: Manager, key: PluginKey, now: nat)
    requires Inv(m) && Past(m, now) && key in m.workers && m.workers[key].worker.Some?
    ensures var h := m.workers[key].worker.value;
            var after := RecordFailure(Stop(m, h), key, m.workers[key].generation, now);
            Inv(after) && Past(after, now) && EntryReplaced(m, after, key) && Leaked(after) == Leaked(m)
  {
    var h := m.workers[key].worker.value;
    var shut := Stop(m, h);
    SameEntriesOk(m, shut, now);
    FailureReplaces(shut, key, now);
    var after := RecordFailure(shut, key, m.workers[key].generation, now);
    assert EntryReplaced(m, after, key);
    EntryReplacedKeeps(m, after, key);
    StopKeeps(m, after, key);
  }

  lemma BegunReplaces(m: Manager, key: PluginKey)
    requires key in m.workers && CanRestart(m, key, m.workers[key].generation)
    requires EntryOk(m.limits, m.workers[key], HistoryOf(m, key))
    ensures var begun := BeginRestart(m, key, m.workers[key].generation);
            && EntryReplaced(m, begun, key) && begun.workers[key].worker.None? && begun.workers[key].state.Restarting?
            && (forall k :: HistoryOf(begun, k) == HistoryOf(m, k))
  {
    var begun := BeginRestart(m, key, m.workers[key].generation);
    assert forall k :: HistoryOf(begun, k) == HistoryOf(m, k);
  }

  lemma ReplacedTwice(m: Manager, mid: Manager, after: Manager, key: PluginKey)
    requires EntryReplaced(m, mid, key) && EntryReplaced(mid, after, key)
    ensures EntryReplaced(m, after, key)
  {
  }

  /** Installing a launched Worker brings a waiting entry back to Running and forgets no failure. */
  lemma InstallReplaces(begun: Manager, key: PluginKey, effective: nat, now: nat)
    requires key in begun.workers && CanRestart(begun, key, begun.workers[key].generation)
    requires EntryOk(begun.limits, begun.workers[key], HistoryOf(begun, key))
    ensures var after := FinishRestart(begun, key, begun.workers[key].generation, Some(effective), now);
            && EntryReplaced(begun, after, key) && after.stopped == begun.stopped
            && after.workers[key].worker == Some(begun.nextHandle) && after.live == begun.live + {begun.nextHandle}
            && after.nextHandle == begun.nextHandle + 1
            && (forall k :: HistoryOf(after, k) == HistoryOf(begun, k))
  {
    var after := FinishRestart(begun, key, begun.workers[key].generation, Some(effective), now);
    assert forall k :: HistoryOf(after, k) == HistoryOf(begun, k);
  }

  lemma RestartReplaces(m: Manager, key: PluginKey, launcher: Launcher, now: nat)
    requires EntriesOk(m) && Past(m, now) && key in m.workers && CanRestart(m, key, m.workers[key].generation)
    ensures var after := Restart(m, key, m.workers[key].generation, launcher, now);
            && EntryReplaced(m, after, key) && Past(after, now) && after.stopped == m.stopped
            && if after.workers[key].worker.None? then after.live == m.live && after.nextHandle == m.nextHandle
               else after.workers[key].worker == Some(m.nextHandle) && after.live == m.live + {m.nextHandle}
                    && after.nextHandle == m.nextHandle + 1
  {
    var w, generation := m.workers[key], m.workers[key].generation;
    var begun := BeginRestart(m, key, generation);
    var offered := Launch(launcher, ConfigOf(key, w), w.requestedConcurrency);
    var after := FinishRestart(begun, key, generation, offered, now);
    BegunReplaces(m, key);
    if offered.None? {
      FailureReplaces(begun, key, now);
    } else {
      InstallReplaces(begun, key, offered.value, now);
    }
    ReplacedTwice(m, begun, after, key);
  }

  lemma RestartKeeps(m: Manager, key: PluginKey, launcher: Launcher, now: nat)
    requires Inv(m) && Past(m, now) && key in m.workers && CanRestart(m, key, m.workers[key].generation)
    ensures var after := Restart(m, key, m.workers[key].generation, launcher, now);
            Inv(after) && Past(after, now) && EntryReplaced(m, after, key) && Leaked(after) == Leaked(m)
  {
    var after := Restart(m, key, m.workers[key].generation, launcher, now);
    RestartReplaces(m, key, launcher, now);
    assert m.workers[key].worker.None? by { assert EntryOk(m.limits, m.workers[key], HistoryOf(m, key)); }
    if after.workers[key].worker.None? { IdleKeeps(m, after, key); } else { StartKeeps(m, after, key); }
    EntryReplacedKeeps(m, after, key);
  }

  /** One more failure on record, and no process in the entry. */
  ghost predicate FailedOnce(m: Manager, after: Manager, key: PluginKey, now: nat) {
    && HistoryOf(after, key) == HistoryOf(m, key) + [now]
    && key in after.workers && after.workers[key].worker == None && after.nextHandle == m.nextHandle
  }

  lemma FailureDoes(m: Manager, key: PluginKey, now: nat)
    requires key in m.workers
    ensures var after := RecordFailure(m, key, m.workers[key].generation, now);
            FailedOnce(m, after, key, now) && after.stopped == m.stopped && after.live == m.live
  {
    var after := RecordFailure(m, key, m.workers[key].generation, now);
    assert after.workers[key] == Failed(m.limits, m.workers[key], now);
    assert after.history == m.history[key := HistoryOf(m, key) + [now]];
  }

  /** A new process in the entry, which is otherwise as it was and runs. */
  ghost predicate RestartedOnce(m: Manager, after: Manager, key: PluginKey, effective: nat) {
    && after.stopped == m.stopped && after.live == m.live + {m.nextHandle} && after.history == m.history
    && after.nextHandle == m.nextHandle + 1 && key in m.workers && key in after.workers
    && after.workers[key] == m.workers[key].(worker := Some(m.nextHandle), state := Running, nextRestart := None,
                                             effectiveConcurrency := effective)
  }

  /** A restart launches with what the entry shows, and ends in a running Worker or in one more failure. */
  lemma RestartDoes(m: Manager, key: PluginKey, launcher: Launcher, now: nat)
    requires key in m.workers && m.workers[key].state == Restarting
    ensures var w, after := m.workers[key], Restart(m, key, m.workers[key].generation, launcher, now);
            var shown := RuntimeConfig(key.0, key.1, w.runtimeConfigVersion, w.config, w.requestedConcurrency);
            var offered := launcher(shown);
            if offered.Some? && 1 <= offered.value <= w.requestedConcurrency then
              RestartedOnce(m, after, key, offered.value)
            else FailedOnce(m, after, key, now) && after.stopped == m.stopped && after.live == m.live
  {
    var w := m.workers[key];
    var begun := BeginRestart(m, key, w.generation);
    assert HistoryOf(begun, key) == HistoryOf(m, key);
    FailureDoes(begun, key, now);
  }

  /** What a poll does about one entry. A Worker that has exited or whose pipe is closed is shut down, once, and its
      failure recorded; one that is alive or cannot be inspected is left alone. A restart is tried exactly when the
      entry waits for one that is due. Nothing else happens. */
  lemma PollOneDoes(m: Manager, key: PluginKey, health: Health, launcher: Launcher, now: nat)
    requires key in m.workers
    ensures var w, after := m.workers[key], PollOne(m, key, m.workers[key], health, launcher, now);
            if w.worker.Some? && health in {Exited, ReaderClosed} then
              && FailedOnce(m, after, key, now)
              && after.stopped == m.stopped + multiset{w.worker.value} && after.live == m.live - {w.worker.value}
            else if w.worker == None && w.state == Restarting && w.nextRestart.Some? && w.nextRestart.value <= now then
              after == Restart(m, key, w.generation, launcher, now)
            else after == m
  {
    var w := m.workers[key];
    if w.worker.Some? && health in {Exited, ReaderClosed} {
      var shut := Stop(m, w.worker.value);
      assert HistoryOf(shut, key) == HistoryOf(m, key);
      FailureDoes(shut, key, now);
    }
  }

  lemma PollOneKeeps(m: Manager, key: PluginKey, health: Health, launcher: Launcher, now: nat)
    requires Inv(m) && Past(m, now) && key in m.workers
    ensures var after := PollOne(m, key, m.workers[key], health, launcher, now);
            Inv(after) && Past(after, now) && Leaked(after) == Leaked(m) && (after == m || EntryReplaced(m, after, key))
  {
    if m.workers[key].worker.Some? {
      if health.Exited? || health.ReaderClosed? { FailureKeeps(m, key, now); }
    } else if CanRestart(m, key, m.workers[key].generation) {
      RestartKeeps(m, key, launcher, now);
    }
  }

  /** The poll went from `m` to `after`. */
  ghost predicate Polled(m: Manager, after: Manager, now: nat) {
    Inv(after) && Past(after, now) && after.workers.Keys == m.workers.Keys && Leaked(after) == Leaked(m)
  }

  lemma OthersAsCopied(m: Manager, next: Manager, key: PluginKey, entries: map<PluginKey, ManagedWorker>,
                       rest: seq<PluginKey>)
    requires (next == m || EntryReplaced(m, next, key)) && key in m.workers && key !in rest
    requires forall k :: k in rest && k in entries ==> k in m.workers && m.workers[k] == entries[k]
    ensures next.workers.Keys == m.workers.Keys
    ensures forall k :: k in rest && k in entries ==> k in next.workers && next.workers[k] == entries[k]
  {
  }

  /** One entry is polled; the entries still to come are as they were copied. */
  lemma PollNext(m: Manager, entries: map<PluginKey, ManagedWorker>, order: seq<PluginKey>, health: Health,
                 launcher: Launcher, now: nat)
    requires Inv(m) && Past(m, now) && Distinct(order) && order != [] && order[0] in entries
    requires forall key :: key in order && key in entries ==> key in m.workers && m.workers[key] == entries[key]
    ensures var next := PollOne(m, order[0], entries[order[0]], health, launcher, now);
            && Polled(m, next, now)
            && forall k :: k in order[1..] && k in entries ==> k in next.workers && next.workers[k] == entries[k]
  {
    var key := order[0];
    assert key !in order[1..] && key in order;
    var next := PollOne(m, key, entries[key], health, launcher, now);
    assert Inv(next) && Past(next, now) && Leaked(next) == Leaked(m) && (next == m || EntryReplaced(m, next, key)) by {
      PollOneKeeps(m, key, health, launcher, now);
    }
    OthersAsCopied(m, next, key, entries, order[1..]);
  }

  lemma PollUnrolls(m: Manager, entries: map<PluginKey, ManagedWorker>, order: seq<PluginKey>,
                    health: PluginKey -> Health, launcher: Launcher, now: nat)
    requires order != []
    ensures var next := if order[0] in entries then
                          PollOne(m, order[0], entries[order[0]], health(order[0]), launcher, now) else m;
            Poll(m, entries, order, health, launcher, now) == Poll(next, entries, order[1..], health, launcher, now)
  {
  }

  lemma {:induction false} PollKeeps(m: Manager, entries: map<PluginKey, ManagedWorker>, order: seq<PluginKey>,
                                     health: PluginKey -> Health, launcher: Launcher, now: nat)
    requires Inv(m) && Past(m, now) && Distinct(order)
    requires forall key :: key in order && key in entries ==> key in m.workers && m.workers[key] == entries[key]
    ensures Polled(m, Poll(m, entries, order, health, launcher, now), now)
    decreases |order|
  {
    if order != [] {
      PollUnrolls(m, entries, order, health, launcher, now);
      if order[0] in entries {
        PollNext(m, entries, order, health(order[0]), launcher, now);
        var next := PollOne(m, order[0], entries[order[0]], health(order[0]), launcher, now);
        PollKeeps(next, entries, order[1..], health, launcher, now);
      } else {
        PollKeeps(m, entries, order[1..], health, launcher, now);
      }
    }
  }
}
