/** The plugin manager as the object it is. Every method is tied to the function that specifies it; the
    ghost fields record what an observer of the processes sees. */
module ManagerObject {
  import opened Basics
  import opened PluginManagers

  class PluginManager {
    const limits: RuntimeLimits
    var workers: map<PluginKey, ManagedWorker>
    var pauseNotices: map<PluginKey, PauseNotice>
    var pauseNoticeSent: set<PluginKey>
    var nextGeneration: nat
    var nextHandle: Handle
    ghost var live: set<Handle>
    ghost var stopped: multiset<Handle>
    ghost var history: map<PluginKey, seq<nat>>

    ghost function State(): Manager
      reads this
    {
      Manager(limits, workers, pauseNotices, pauseNoticeSent, nextGeneration, nextHandle, live, stopped, history)
    }

    constructor (limits: RuntimeLimits)
      ensures State() == Manager(limits, map[], map[], {}, 1, 0, {}, multiset{}, map[])
    {
      this.limits := limits;
      workers, pauseNotices, pauseNoticeSent, nextGeneration, nextHandle := map[], map[], {}, 1, 0;
      live, stopped, history := {}, multiset{}, map[];
    }

    /** Starts the Workers of a snapshot and swaps the map only when all of them are up. */
    method ApplySnapshot(snapshot: RuntimeSnapshot, launcher: Launcher) returns (error: Option<SnapshotError>)
      modifies this
      ensures SnapshotOutcome(State(), error) == PluginManagers.ApplySnapshot(old(State()), snapshot, launcher)
    {
      if snapshot.revision == 0 { return Some(ZeroRevision); }
      if |snapshot.plugins| > limits.maxWorkers { return Some(TooManyWorkers); }
      var built, started;
      built, started, error := BuildWorkers(snapshot, launcher);
      if error == Some(StartFailed) {
        ShutdownEach(started);
        return;
      }
      if error.Some? { return; }
      ghost var replaced := Replaced(workers, built);
      workers := built;
      live, stopped := live - replaced, stopped + multiset(replaced);
      pauseNotices, pauseNoticeSent := map[], {};
      history := map key | key in built :: [];
    }

    method BuildWorkers(snapshot: RuntimeSnapshot, launcher: Launcher)
      returns (built: map<PluginKey, ManagedWorker>, started: seq<Handle>, error: Option<SnapshotError>)
      modifies this`nextGeneration, this`nextHandle, this`live
      ensures Building(built, started, nextGeneration, nextHandle, live, error)
              == Build(old(State()), snapshot.revision, EmptyBuilding(old(State())), snapshot.plugins, launcher)
    {
      ghost var m := State();
      built, started, error := map[], [], None;
      var i := 0;
      assert snapshot.plugins[0..] == snapshot.plugins;
      while i < |snapshot.plugins|
        invariant 0 <= i <= |snapshot.plugins| && error.None?
        invariant Build(m, snapshot.revision, EmptyBuilding(m), snapshot.plugins, launcher)
                  == Build(m, snapshot.revision, Building(built, started, nextGeneration, nextHandle, live, None),
                           snapshot.plugins[i..], launcher)
      {
        var c := snapshot.plugins[i];
        assert snapshot.plugins[i..][1..] == snapshot.plugins[i + 1..];
        var key := KeyFor(c);
        if key in built { error := Some(Duplicate); return; }
        if c.schemaVersion == 0 { error := Some(ZeroSchemaVersion); return; }
        if c.requestedConcurrency == 0 { error := Some(ZeroConcurrency); return; }
        var concurrency := Min(c.requestedConcurrency, limits.maxConcurrency);
        if key in workers && Reusable(workers[key], c, concurrency) {
          var existing := workers[key];
          built :=
              built[key := Entry(existing.worker.value, c, concurrency, existing.effectiveConcurrency,
                                 snapshot.revision, existing.generation)];
        } else {
          var offered := Launch(launcher, c, concurrency);
          if offered.None? { error := Some(StartFailed); return; }
          built := built[key := Entry(nextHandle, c, concurrency, offered.value, snapshot.revision, nextGeneration)];
          started := started + [nextHandle];
          live := live + {nextHandle};
          nextGeneration, nextHandle := nextGeneration + 1, nextHandle + 1;
        }
        i := i + 1;
      }
    }

    /** Looks at every entry of the map as it was when the round began. */
    method PollHealth(order: seq<PluginKey>, health: PluginKey -> Health, launcher: Launcher, now: nat)
      modifies this
      ensures State() == PluginManagers.PollHealth(old(State()), order, health, launcher, now)
    {
      var entries := workers;
      var i := 0;
      assert order[0..] == order;
      while i < |order|
        invariant 0 <= i <= |order|
        invariant Poll(old(State()), entries, order, health, launcher, now)
                  == Poll(State(), entries, order[i..], health, launcher, now)
      {
        var key := order[i];
        assert order[i..][1..] == order[i + 1..];
        if key in entries {
          PollEntry(key, entries[key], health(key), launcher, now);
        }
        i := i + 1;
      }
    }

    method PollEntry(key: PluginKey, entry: ManagedWorker, health: Health, launcher: Launcher, now: nat)
      modifies this
      ensures State() == PollOne(old(State()), key, entry, health, launcher, now)
    {
      if entry.worker.Some? {
        if health.Exited? || health.ReaderClosed? {
          Shutdown(entry.worker.value);
          RecordFailure(key, entry.generation, now);
        }
      } else if entry.state.Restarting? && entry.nextRestart.Some? && entry.nextRestart.value <= now {
        Restart(key, entry.generation, launcher, now);
      }
    }

    method Restart(key: PluginKey, generation: nat, launcher: Launcher, now: nat)
      modifies this
      ensures State() == PluginManagers.Restart(old(State()), key, generation, launcher, now)
    {
      if key !in workers || workers[key].generation != generation || !workers[key].state.Restarting? { return; }
      var w := workers[key];
      workers := workers[key := w.(nextRestart := None)];
      var offered := Launch(launcher, ConfigOf(key, w), w.requestedConcurrency);
      FinishRestart(key, generation, offered, now);
    }

    /** The launch came back; the entry may have changed in between. */
    method FinishRestart(key: PluginKey, generation: nat, offered: Option<nat>, now: nat)
      modifies this
      ensures State() == PluginManagers.FinishRestart(old(State()), key, generation, offered, now)
    {
      if offered.None? {
        RecordFailure(key, generation, now);
        return;
      }
      var replacement := nextHandle;
      nextHandle := nextHandle + 1;
      live := live + {replacement};
      if key in workers && workers[key].generation == generation && workers[key].state.Restarting? {
        workers :=
            workers[key := workers[key].(worker := Some(replacement), state := Running,
                                         effectiveConcurrency := offered.value)];
      } else {
        Shutdown(replacement);
      }
    }

    /** One after the other. */
    method ShutdownEach(started: seq<Handle>)
      modifies this`live, this`stopped
      ensures live == old(live) - Elements(started) && stopped == old(stopped) + multiset(started)
    {
      var i := 0;
      while i < |started|
        invariant 0 <= i <= |started|
        invariant live == old(live) - Elements(started[..i]) && stopped == old(stopped) + multiset(started[..i])
      {
        assert started[..i + 1] == started[..i] + [started[i]];
        Shutdown(started[i]);
        i := i + 1;
      }
      assert started[..|started|] == started;
    }

    method Shutdown(h: Handle)
      modifies this`live, this`stopped
      ensures State() == Stop(old(State()), h)
    {
      live, stopped := live - {h}, stopped + multiset{h};
    }

    /** Counts a failure of the named generation and decides between restart and pause. */
    method RecordFailure(key: PluginKey, generation: nat, now: nat)
      modifies this`workers, this`pauseNotices, this`pauseNoticeSent, this`history
      ensures State() == PluginManagers.RecordFailure(old(State()), key, generation, now)
    {
      if key !in workers || workers[key].generation != generation { return; }
      var w := workers[key].(worker := None);
      var kept := Retain(w.failures, now);
      if kept == [] || w.windowStarted.None? {
        w := w.(windowStarted := Some(now));
      }
      w := w.(failures := kept + [now]);
      history := history[key := HistoryOf(State(), key) + [now]];
      if |w.failures| >= Max(limits.restartMaxAttempts, 1) {
        w := w.(state := Paused, pausedAt := Some(now), nextRestart := None);
        pauseNotices := pauseNotices[key := PauseNotice(w.configRevision, |w.failures|, w.windowStarted.value, now)];
        pauseNoticeSent := pauseNoticeSent - {key};
      } else {
        w := w.(state := Restarting, nextRestart := Some(now + RestartDelay(|w.failures|)));
      }
      workers := workers[key := w];
    }

    method Retain(failures: seq<nat>, now: nat) returns (kept: seq<nat>)
      ensures kept == InWindow(failures, now, limits.restartWindow)
    {
      kept := [];
      var i := 0;
      assert failures[0..] == failures;
      while i < |failures|
        invariant 0 <= i <= |failures|
        invariant kept + InWindow(failures[i..], now, limits.restartWindow)
                  == InWindow(failures, now, limits.restartWindow)
      {
        assert failures[i..][1..] == failures[i + 1..];
        if now <= failures[i] + limits.restartWindow {
          kept := kept + [failures[i]];
        }
        i := i + 1;
      }
    }

    method AcknowledgePause(ack: PauseAck)
      modifies this
      ensures State() == PluginManagers.AcknowledgePause(old(State()), ack)
    {
      if !ack.accepted { return; }
      pauseNotices := pauseNotices - {ack.key};
      pauseNoticeSent := pauseNoticeSent - {ack.key};
      if ack.key in workers && workers[ack.key].configRevision == ack.runtimeRevision {
        workers := workers[ack.key := workers[ack.key].(acknowledged := true)];
      }
    }

    method ShutdownAll()
      modifies this
      ensures State() == PluginManagers.ShutdownAll(old(State()))
    {
      live, stopped := live - Handles(workers), stopped + multiset(Handles(workers));
      workers, history := map[], map[];
    }
  }
}
