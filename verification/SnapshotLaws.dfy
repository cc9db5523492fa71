/** Runtime snapshots are all-or-nothing for the entry map; where they are not for the processes. */
module SnapshotLaws {
  import opened Basics
  import opened PluginManagers
  import opened ManagerLaws

  /** Kept from the current map: same process, same generation. */
  ghost predicate Kept(m: Manager, key: PluginKey, w: ManagedWorker) {
    key in m.workers && m.workers[key].worker == w.worker && m.workers[key].generation == w.generation
  }

  /** A new entry: running, without failures, either kept or launched by this call. */
  ghost predicate BuiltEntry(m: Manager, revision: nat, b: Building, key: PluginKey) {
    key in b.workers &&
    var w := b.workers[key];
    && w.worker.Some? && w.state.Running? && w.failures == [] && w.configRevision == revision
    && w.generation < b.nextGeneration
    && (Kept(m, key, w) || (w.worker.value in b.started && w.generation >= m.nextGeneration))
  }

  ghost predicate BuildOk(m: Manager, revision: nat, b: Building) {
    && m.nextHandle <= b.nextHandle && m.nextGeneration <= b.nextGeneration
    && Distinct(b.started) && b.live == m.live + Elements(b.started)
    && (forall h: Handle :: h in b.started <==> m.nextHandle <= h < b.nextHandle)
    && (forall h :: h in b.started ==> h in Handles(b.workers))
    && (forall key :: key in b.workers ==> BuiltEntry(m, revision, b, key))
    && DistinctHandles(b.workers) && DistinctGenerations(b.workers)
  }

  lemma OldBounds(m: Manager, key: PluginKey)
    requires Known(m) && key in m.workers
    ensures m.workers[key].generation < m.nextGeneration
    ensures m.workers[key].worker.Some? ==> m.workers[key].worker.value < m.nextHandle
  {
    if m.workers[key].worker.Some? { assert m.workers[key].worker.value in Handles(m.workers); }
  }

  lemma HandlesInsert(workers: map<PluginKey, ManagedWorker>, key: PluginKey, w: ManagedWorker)
    requires key !in workers && w.worker.Some?
    ensures Handles(workers[key := w]) == Handles(workers) + {w.worker.value}
  {
    var after := workers[key := w];
    forall h ensures h in Handles(after) <==> h in Handles(workers) + {w.worker.value} {
      if h in Handles(workers) {
        var k :| k in workers && workers[k].worker == Some(h);
        assert after[k].worker == Some(h);
      }
      if h == w.worker.value { assert after[key].worker == Some(h); }
    }
  }

  /** Two entries of a build share neither process nor generation with a new one. */
  lemma NewEntryDiffers(m: Manager, revision: nat, b: Building, key: PluginKey, w: ManagedWorker)
    requires Known(m) && BuildOk(m, revision, b) && key !in b.workers && w.worker.Some?
    requires Kept(m, key, w) || (w.worker.value == b.nextHandle && w.generation == b.nextGeneration)
    ensures DistinctHandles(b.workers[key := w]) && DistinctGenerations(b.workers[key := w])
  {
    forall k | k in b.workers ensures b.workers[k].worker != w.worker && b.workers[k].generation != w.generation {
      assert BuiltEntry(m, revision, b, k);
      if k in m.workers { OldBounds(m, k); }
      if key in m.workers { OldBounds(m, key); }
    }
  }

  lemma BuiltEntryStays(m: Manager, revision: nat, b: Building, after: Building, key: PluginKey)
    requires BuiltEntry(m, revision, b, key) && key in after.workers && after.workers[key] == b.workers[key]
    requires b.nextGeneration <= after.nextGeneration && forall h :: h in b.started ==> h in after.started
    ensures BuiltEntry(m, revision, after, key)
  {
  }

  ghost predicate CleanlyRunning(w: ManagedWorker, revision: nat) {
    w.worker.Some? && w.state.Running? && w.failures == [] && w.configRevision == revision
  }

  /** Adding an entry that is kept. */
  lemma KeepEntryOk(m: Manager, revision: nat, b: Building, key: PluginKey, w: ManagedWorker)
    requires Known(m) && BuildOk(m, revision, b) && key !in b.workers && CleanlyRunning(w, revision) && Kept(m, key, w)
    ensures BuildOk(m, revision, b.(workers := b.workers[key := w]))
  {
    var after := b.(workers := b.workers[key := w]);
    NewEntryDiffers(m, revision, b, key, w);
    HandlesInsert(b.workers, key, w);
    OldBounds(m, key);
    forall k | k in after.workers && k != key ensures BuiltEntry(m, revision, after, k) {
      BuiltEntryStays(m, revision, b, after, k);
    }
    assert BuiltEntry(m, revision, after, key);
  }

  /** Adding an entry that was just launched. */
  lemma LaunchEntryOk(m: Manager, revision: nat, b: Building, key: PluginKey, w: ManagedWorker, after: Building)
    requires Known(m) && BuildOk(m, revision, b) && key !in b.workers && CleanlyRunning(w, revision)
    requires w.worker.value == b.nextHandle && w.generation == b.nextGeneration
    requires after
             == Building(b.workers[key := w], b.started + [b.nextHandle], b.nextGeneration + 1, b.nextHandle + 1,
                         b.live + {b.nextHandle}, after.error)
    ensures BuildOk(m, revision, after)
  {
    NewEntryDiffers(m, revision, b, key, w);
    HandlesInsert(b.workers, key, w);
    forall k | k in after.workers && k != key ensures BuiltEntry(m, revision, after, k) {
      BuiltEntryStays(m, revision, b, after, k);
    }
    assert BuiltEntry(m, revision, after, key);
  }

  lemma ErrorBuildOk(m: Manager, revision: nat, b: Building, error: SnapshotError)
    requires BuildOk(m, revision, b)
    ensures BuildOk(m, revision, b.(error := Some(error)))
  {
    forall k | k in b.workers
      ensures BuiltEntry(m, revision, b.(error := Some(error)), k)
    {
      assert BuiltEntry(m, revision, b, k);
    }
  }

  lemma BuildOneKeys(m: Manager, revision: nat, b: Building, c: RuntimeConfig, launcher: Launcher)
    requires b.error.None?
    ensures var after := BuildOne(m, revision, b, c, launcher);
            after.error.None? ==> KeyFor(c) !in b.workers && after.workers.Keys == b.workers.Keys + {KeyFor(c)}
  {
  }

  lemma BuildOneOk(m: Manager, revision: nat, b: Building, c: RuntimeConfig, launcher: Launcher)
    requires Known(m) && BuildOk(m, revision, b) && b.error.None?
    ensures BuildOk(m, revision, BuildOne(m, revision, b, c, launcher))
  {
    var after := BuildOne(m, revision, b, c, launcher);
    if after.error.None? {
      var w := after.workers[KeyFor(c)];
      if after.started == b.started {
        KeepEntryOk(m, revision, b, KeyFor(c), w);
      } else {
        LaunchEntryOk(m, revision, b, KeyFor(c), w, after);
      }
    } else {
      ErrorBuildOk(m, revision, b, after.error.value);
    }
  }

  function KeysOf(configs: seq<RuntimeConfig>): set<PluginKey> {
    set c | c in configs :: KeyFor(c)
  }

  lemma {:induction false} BuildAllOk(m: Manager, revision: nat, b: Building, configs: seq<RuntimeConfig>,
                                      launcher: Launcher)
    requires Known(m) && BuildOk(m, revision, b) && b.error.None?
    ensures var after := Build(m, revision, b, configs, launcher);
            && BuildOk(m, revision, after)
            && (after.error.None? ==> after.workers.Keys == b.workers.Keys + KeysOf(configs))
    decreases |configs|
  {
    if configs != [] {
      var next := BuildOne(m, revision, b, configs[0], launcher);
      BuildOneOk(m, revision, b, configs[0], launcher);
      BuildOneKeys(m, revision, b, configs[0], launcher);
      assert configs == [configs[0]] + configs[1..];
      assert KeysOf(configs) == {KeyFor(configs[0])} + KeysOf(configs[1..]);
      if next.error.None? {
        BuildAllOk(m, revision, next, configs[1..], launcher);
      } else {
        assert Build(m, revision, next, configs[1..], launcher) == next;
      }
    }
  }

  lemma EmptyBuildOk(m: Manager, revision: nat)
    ensures BuildOk(m, revision, EmptyBuilding(m))
  {
  }

  /** The processes of a finished build: those kept and those started. */
  lemma BuiltHandles(m: Manager, revision: nat, b: Building)
    requires Known(m) && BuildOk(m, revision, b)
    ensures Handles(b.workers) == (Handles(m.workers) - Replaced(m.workers, b.workers)) + Elements(b.started)
    ensures Replaced(m.workers, b.workers) <= Handles(m.workers)
    ensures Handles(m.workers) !! Elements(b.started)
  {
    var replaced := Replaced(m.workers, b.workers);
    forall h | h in Handles(m.workers) ensures h !in b.started {
      var k :| k in m.workers && m.workers[k].worker == Some(h);
      OldBounds(m, k);
    }
    forall h | h in Handles(b.workers) ensures h in (Handles(m.workers) - replaced) + Elements(b.started) {
      var k :| k in b.workers && b.workers[k].worker == Some(h);
      assert BuiltEntry(m, revision, b, k);
      if h !in b.started {
        assert m.workers[k].worker == Some(h);
        assert h in Handles(m.workers);
      }
    }
    forall h | h in Handles(m.workers) && h !in replaced ensures h in Handles(b.workers) {
      var k :| k in m.workers && m.workers[k].worker == Some(h);
      assert k in b.workers && b.workers[k].worker == Some(h);
    }
  }

  lemma SwapProcesses(m: Manager, revision: nat, b: Building, after: Manager)
    requires Inv(m) && BuildOk(m, revision, b)
    requires var replaced := Replaced(m.workers, b.workers);
             && after.workers == b.workers && after.nextHandle == b.nextHandle
             && after.live == b.live - replaced && after.stopped == m.stopped + multiset(replaced)
    ensures ProcessesOk(after)
  {
    BuiltHandles(m, revision, b);
    var replaced := Replaced(m.workers, b.workers);
    assert forall h :: h in b.started ==> h !in m.live;
    forall h ensures after.stopped[h] <= 1 {
      if h in replaced { assert h in m.live; }
    }
  }

  lemma SwapEntries(m: Manager, revision: nat, b: Building, after: Manager)
    requires BuildOk(m, revision, b)
    requires after.limits == m.limits && after.workers == b.workers && after.nextGeneration == b.nextGeneration
    requires after.history == map key | key in b.workers :: []
    ensures EntriesOk(after)
  {
    forall key | key in after.workers ensures EntryOk(after.limits, after.workers[key], HistoryOf(after, key)) {
      assert BuiltEntry(m, revision, b, key);
      assert HistoryOf(after, key) == [];
    }
    forall key | key in after.workers ensures after.workers[key].generation < after.nextGeneration {
      assert BuiltEntry(m, revision, b, key);
    }
  }

  lemma SnapshotSucceeds(m: Manager, snapshot: RuntimeSnapshot, launcher: Launcher)
    requires Inv(m) && ApplySnapshot(m, snapshot, launcher).error.None?
    ensures var after := ApplySnapshot(m, snapshot, launcher).manager;
            && Inv(after) && after.workers.Keys == KeysOf(snapshot.plugins) && after.notices == map[]
            && (forall key :: key in after.workers ==>
                HistoryOf(after, key) == [] && CleanlyRunning(after.workers[key], snapshot.revision))
  {
    var after := ApplySnapshot(m, snapshot, launcher).manager;
    EmptyBuildOk(m, snapshot.revision);
    BuildAllOk(m, snapshot.revision, EmptyBuilding(m), snapshot.plugins, launcher);
    var b := Build(m, snapshot.revision, EmptyBuilding(m), snapshot.plugins, launcher);
    SwapProcesses(m, snapshot.revision, b, after);
    SwapEntries(m, snapshot.revision, b, after);
    forall key | key in after.workers
      ensures HistoryOf(after, key) == [] && CleanlyRunning(after.workers[key], snapshot.revision)
    {
      assert BuiltEntry(m, snapshot.revision, b, key);
    }
  }

  lemma SnapshotFails(m: Manager, snapshot: RuntimeSnapshot, launcher: Launcher)
    requires Inv(m) && ApplySnapshot(m, snapshot, launcher).error.Some?
    ensures var after := ApplySnapshot(m, snapshot, launcher).manager;
            && Inv(after) && after.workers == m.workers && after.notices == m.notices
            && after.sent == m.sent && after.history == m.history
  {
    var after := ApplySnapshot(m, snapshot, launcher).manager;
    if snapshot.revision != 0 && |snapshot.plugins| <= m.limits.maxWorkers {
      EmptyBuildOk(m, snapshot.revision);
      BuildAllOk(m, snapshot.revision, EmptyBuilding(m), snapshot.plugins, launcher);
      AbortKeeps(m, snapshot.revision, Build(m, snapshot.revision, EmptyBuilding(m), snapshot.plugins, launcher),
                 after);
    }
  }

  /** A snapshot is all-or-nothing for the entries and their notices: on any error they are as before; on
      success exactly the listed plugins run, at the snapshot's revision, with clean failure records. */
  lemma SnapshotAllOrNothing(m: Manager, snapshot: RuntimeSnapshot, launcher: Launcher)
    requires Inv(m)
    ensures var o := ApplySnapshot(m, snapshot, launcher);
            && Inv(o.manager)
            && (o.error.Some? ==> o.manager.workers == m.workers && o.manager.notices == m.notices
                                  && o.manager.sent == m.sent && o.manager.history == m.history)
            && (o.error.None? ==>
                  && o.manager.workers.Keys == KeysOf(snapshot.plugins) && o.manager.notices == map[]
                  && (forall key :: key in o.manager.workers ==>
                        HistoryOf(o.manager, key) == [] && CleanlyRunning(o.manager.workers[key], snapshot.revision)))
  {
    if ApplySnapshot(m, snapshot, launcher).error.None? {
      SnapshotSucceeds(m, snapshot, launcher);
    } else {
      SnapshotFails(m, snapshot, launcher);
    }
  }

  lemma StartedAreNew(m: Manager, revision: nat, b: Building)
    requires Accounted(m) && BuildOk(m, revision, b)
    ensures forall h :: h in b.started ==> h !in m.live && h !in m.stopped && h !in Handles(m.workers)
    ensures b.live - Elements(b.started) == m.live
  {
  }

  /** A failed launch: what this call started is shut down again. */
  lemma AbortStopped(m: Manager, revision: nat, b: Building, after: Manager)
    requires ProcessesOk(m) && BuildOk(m, revision, b)
    requires after.workers == m.workers && after.nextHandle == b.nextHandle
    requires after.live == b.live - Elements(b.started) && after.stopped == m.stopped + multiset(b.started)
    ensures ProcessesOk(after)
  {
    StartedAreNew(m, revision, b);
    forall h ensures multiset(b.started)[h] == if h in b.started then 1 else 0 { OnceInDistinct(b.started, h); }
    forall h ensures after.stopped[h] <= 1 && (h in after.stopped <==> h in m.stopped || h in b.started) {
      assert after.stopped[h] == m.stopped[h] + multiset(b.started)[h];
    }
  }

  /** A configuration error: what this call started keeps running. */
  lemma AbortLeaked(m: Manager, revision: nat, b: Building, after: Manager)
    requires ProcessesOk(m) && BuildOk(m, revision, b)
    requires after.workers == m.workers && after.stopped == m.stopped && after.nextHandle == b.nextHandle
    requires after.live == b.live
    ensures ProcessesOk(after)
  {
    StartedAreNew(m, revision, b);
  }

  /** What no entry holds afterwards: nothing new if everything is swapped in or shut down again, and what
      this call started if it just gives up. */
  lemma BuildLeaves(m: Manager, revision: nat, b: Building)
    requires Known(m) && BuildOk(m, revision, b)
    ensures b.live - Replaced(m.workers, b.workers) - Handles(b.workers) == Leaked(m)
    ensures b.live - Elements(b.started) - Handles(m.workers) == Leaked(m)
    ensures b.live - Handles(m.workers) == Leaked(m) + Elements(b.started) && Leaked(m) !! Elements(b.started)
  {
    BuiltHandles(m, revision, b);
    StartedAreNew(m, revision, b);
  }

  lemma AbortEntries(m: Manager, after: Manager)
    requires EntriesOk(m) && after.workers == m.workers && after.history == m.history && after.limits == m.limits
    requires after.nextGeneration >= m.nextGeneration
    ensures EntriesOk(after)
  {
    assert forall key :: HistoryOf(after, key) == HistoryOf(m, key);
  }

  lemma AbortKeeps(m: Manager, revision: nat, b: Building, after: Manager)
    requires Inv(m) && BuildOk(m, revision, b)
    requires after
             == m.(nextGeneration := b.nextGeneration, nextHandle := b.nextHandle, live := after.live,
                   stopped := after.stopped)
    requires || (after.live == b.live - Elements(b.started) && after.stopped == m.stopped + multiset(b.started))
             || (after.live == b.live && after.stopped == m.stopped)
    ensures Inv(after)
  {
    if after.live == b.live && after.stopped == m.stopped {
      AbortLeaked(m, revision, b, after);
    } else {
      AbortStopped(m, revision, b, after);
    }
    AbortEntries(m, after);
  }

  lemma {:induction false} OnceInDistinct(xs: seq<Handle>, h: Handle)
    requires Distinct(xs)
    ensures multiset(xs)[h] == if h in xs then 1 else 0
  {
    if xs != [] {
      OnceInDistinct(xs[1..], h);
      assert xs == [xs[0]] + xs[1..];
      assert xs[0] !in xs[1..];
    }
  }

  lemma SnapshotBuilds(m: Manager, snapshot: RuntimeSnapshot, launcher: Launcher) returns (b: Building)
    requires Known(m)
    ensures b == Build(m, snapshot.revision, EmptyBuilding(m), snapshot.plugins, launcher)
    ensures BuildOk(m, snapshot.revision, b)
  {
    EmptyBuildOk(m, snapshot.revision);
    BuildAllOk(m, snapshot.revision, EmptyBuilding(m), snapshot.plugins, launcher);
    b := Build(m, snapshot.revision, EmptyBuilding(m), snapshot.plugins, launcher);
  }

  lemma KeptOrReplaced(m: Manager, revision: nat, b: Building, key: PluginKey)
    requires Known(m) && BuildOk(m, revision, b) && key in m.workers && m.workers[key].worker.Some?
    ensures var h := m.workers[key].worker.value;
            var kept := key in b.workers && b.workers[key].worker == Some(h);
            && (kept <==> h !in Replaced(m.workers, b.workers)) && h !in Elements(b.started)
            && (kept ==> b.workers[key].generation == m.workers[key].generation)
  {
    var h := m.workers[key].worker.value;
    assert h in Handles(m.workers);
    BuiltHandles(m, revision, b);
    if key in b.workers && b.workers[key].worker == Some(h) {
      assert BuiltEntry(m, revision, b, key);
      OldBounds(m, key);
      assert h in Handles(b.workers);
    } else {
      assert h in Replaced(m.workers, b.workers);
    }
  }
}
