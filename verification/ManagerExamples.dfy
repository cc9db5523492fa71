/** Short runs from an empty plugin manager in which the exceptions of its laws occur. */
module ManagerExamples {
  import opened Basics
  import opened PluginManagers
  import opened ManagerLaws
  import opened SnapshotLaws
  import opened SnapshotVerdicts
  import opened ManagerRuns

  lemma RunPlus(limits: RuntimeLimits, events: seq<Event>, e: Event)
    ensures Run(limits, events + [e]) == Step(Run(limits, events), e)
  {
    assert (events + [e])[..|events|] == events;
  }

  // ----- a leak -----

  lemma LeaksAtOne(m: Manager, p: RuntimeConfig, q: RuntimeConfig, launcher: Launcher)
    requires m.workers == map[] && p.schemaVersion != 0 && q.schemaVersion == 0
    requires Launch(launcher, p, Concurrency(m, p)).Some?
    ensures LeaksAt(m, [p, q], launcher, 1) && Launches(m, [p, q], 1) == 1
  {
    var plugins := [p, q];
    assert plugins[..0] == [] && KeysOf(plugins[..0]) == {};
    assert Proceeds(m, plugins, launcher, 0) && !WellFormed(plugins, 1) && !SnapshotVerdicts.Reuses(m, plugins[0]);
  }

  lemma LeakOf(m: Manager, p: RuntimeConfig, q: RuntimeConfig, launcher: Launcher)
    requires Inv(m) && m.workers == map[] && Leaked(m) == {} && m.nextHandle == 0 && m.limits.maxWorkers >= 2
    requires p.schemaVersion != 0 && q.schemaVersion == 0 && Launch(launcher, p, Concurrency(m, p)).Some?
    ensures var after := ApplySnapshot(m, RuntimeSnapshot(1, [p, q]), launcher).manager;
            after.workers == map[] && Leaked(after) == {0}
  {
    var snapshot := RuntimeSnapshot(1, [p, q]);
    var o := ApplySnapshot(m, snapshot, launcher);
    LeaksAtOne(m, p, q, launcher);
    assert Launched(m, 1) == {0};
    assert Leaked(o.manager) == {0} by { SnapshotLeaks(m, snapshot, launcher); }
    assert o.error.Some? by {
      assert StopsOnConfiguration(m, snapshot.plugins, launcher, 1);
      SnapshotVerdict(m, snapshot, launcher);
    }
    assert o.manager.workers == m.workers by { SnapshotAllOrNothing(m, snapshot, launcher); }
  }

  lemma RunOne(limits: RuntimeLimits, e: Event)
    ensures Run(limits, [e]) == Step(InitialManager(limits), e)
  {
    assert Run(limits, []) == InitialManager(limits) && [] + [e] == [e];
    RunPlus(limits, [], e);
  }

  /** A new plugin and behind it one with version zero: the snapshot is refused, no entry is made, and the process of
      the first runs on. */
  lemma LeakExists(limits: RuntimeLimits, p: RuntimeConfig, q: RuntimeConfig, launcher: Launcher)
    requires limits.maxWorkers >= 2 && p.schemaVersion != 0 && q.schemaVersion == 0
    requires Launch(launcher, p, Min(p.requestedConcurrency, limits.maxConcurrency)).Some?
    ensures var after := Run(limits, [TakeSnapshot(RuntimeSnapshot(1, [p, q]), launcher)]);
            after.workers == map[] && Leaked(after) == {0}
  {
    RunOne(limits, TakeSnapshot(RuntimeSnapshot(1, [p, q]), launcher));
    InvInEveryState(limits, []);
    assert Run(limits, []) == InitialManager(limits);
    LeakOf(InitialManager(limits), p, q, launcher);
  }

  // ----- a late acknowledgement -----

  /** The one plugin runs, at this revision and not acknowledged. */
  predicate OneRunning(m: Manager, key: PluginKey, revision: nat) {
    && m.workers.Keys == {key} && m.workers[key].worker.Some? && m.workers[key].state.Running?
    && m.workers[key].configRevision == revision && !m.workers[key].acknowledged && m.workers[key].failures == []
  }

  ghost predicate OnePaused(m: Manager, key: PluginKey, revision: nat) {
    && m.workers.Keys == {key} && m.workers[key].state.Paused? && m.workers[key].configRevision == revision
    && !m.workers[key].acknowledged && key in m.notices && Describes(m.notices[key], m.workers[key])
  }

  lemma Starts(m: Manager, revision: nat, p: RuntimeConfig, launcher: Launcher)
    requires revision != 0 && m.limits.maxWorkers >= 1 && p.schemaVersion != 0
    requires KeyFor(p) in m.workers ==> !m.workers[KeyFor(p)].state.Running?
    requires Launch(launcher, p, Min(p.requestedConcurrency, m.limits.maxConcurrency)).Some?
    ensures var after := ApplySnapshot(m, RuntimeSnapshot(revision, [p]), launcher).manager;
            OneRunning(after, KeyFor(p), revision) && after.limits == m.limits
  {
    var b := BuildOne(m, revision, EmptyBuilding(m), p, launcher);
    assert [p][1..] == [];
    assert Build(m, revision, EmptyBuilding(m), [p], launcher) == Build(m, revision, b, [], launcher) == b;
  }

  function AllExited(key: PluginKey): Health {
    Exited
  }

  /** With a limit of one, a single failure pauses. */
  lemma Pauses(m: Manager, key: PluginKey, revision: nat, launcher: Launcher, now: nat)
    requires OneRunning(m, key, revision) && m.limits.restartMaxAttempts <= 1
    ensures var after := PollHealth(m, [key], AllExited, launcher, now);
            OnePaused(after, key, revision) && after.limits == m.limits
  {
    var after := PollOne(m, key, m.workers[key], Exited, launcher, now);
    assert [key][1..] == [];
    assert InWindow([], now, m.limits.restartWindow) + [now] == [now];
    assert after.workers[key] == Failed(m.limits, m.workers[key], now);
    assert PollHealth(m, [key], AllExited, launcher, now) == Poll(after, m.workers, [], AllExited, launcher, now);
  }

  /** A snapshot starts the plugin and the next poll pauses it. */
  lemma StartsAndPauses(limits: RuntimeLimits, events: seq<Event>, revision: nat, p: RuntimeConfig, launcher: Launcher)
    returns (more: seq<Event>)
    requires limits.maxWorkers >= 1 && limits.restartMaxAttempts <= 1 && revision != 0 && p.schemaVersion != 0
    requires Launch(launcher, p, Min(p.requestedConcurrency, limits.maxConcurrency)).Some?
    requires var m := Run(limits, events);
             m.limits == limits && (KeyFor(p) in m.workers ==> !m.workers[KeyFor(p)].state.Running?)
    ensures var m := Run(limits, more); OnePaused(m, KeyFor(p), revision) && m.limits == limits
  {
    var start := TakeSnapshot(RuntimeSnapshot(revision, [p]), launcher);
    var failing := PollWorkers([KeyFor(p)], AllExited, launcher, 0);
    RunPlus(limits, events, start);
    Starts(Run(limits, events), revision, p, launcher);
    more := events + [start] + [failing];
    RunPlus(limits, events + [start], failing);
    Pauses(Run(limits, events + [start]), KeyFor(p), revision, launcher, 0);
  }

  /** A plugin is paused, resumed by a new revision and paused again. The answer to the first pause comes late: it is
      accepted, withdraws the notice of the second pause, and nothing tells the Server of that one. */
  lemma LateAnswerLosesNotice(limits: RuntimeLimits, p: RuntimeConfig, launcher: Launcher) returns (events: seq<Event>)
    requires limits.maxWorkers >= 1 && limits.restartMaxAttempts <= 1 && p.schemaVersion != 0
    requires Launch(launcher, p, Min(p.requestedConcurrency, limits.maxConcurrency)).Some?
    ensures var late := Acknowledge(PauseAck(KeyFor(p), 1, true));
            NoticesOk(Run(limits, events)) && !NoticesOk(Run(limits, events + [late]))
  {
    assert Run(limits, []) == InitialManager(limits);
    var once := StartsAndPauses(limits, [], 1, p, launcher);
    events := StartsAndPauses(limits, once, 2, p, launcher);
    RunPlus(limits, events, Acknowledge(PauseAck(KeyFor(p), 1, true)));
    AckKeepsNoticesIff(Run(limits, events), PauseAck(KeyFor(p), 1, true));
  }
}
