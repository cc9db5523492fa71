/** The manager of plugin Worker processes: all-or-nothing runtime snapshots, health polling with a
    failure window, restarts, pauses and their notices. The state also records what only an observer of
    the processes can see: which are alive, which were shut down and how often, and when each entry failed. */
module PluginManagers {
  import opened Basics

  /** A Worker process. */
  type Handle = nat

  datatype WorkerState = Running | Restarting | Paused

  datatype ManagedWorker = ManagedWorker(
    worker: Option<Handle>,
    config: Bytes,
    runtimeConfigVersion: nat,
    requestedConcurrency: nat,
    effectiveConcurrency: nat,
    configRevision: nat,
    state: WorkerState,
    failures: seq<nat>,
    windowStarted: Option<nat>,
    nextRestart: Option<nat>,
    pausedAt: Option<nat>,
    acknowledged: bool,
    generation: nat)

  datatype RuntimeLimits = RuntimeLimits(maxWorkers: nat, maxConcurrency: nat, restartMaxAttempts: nat,
                                         restartWindow: nat)

  datatype RuntimeConfig = RuntimeConfig(pluginId: Text, version: Text, schemaVersion: nat, config: Bytes,
                                         requestedConcurrency: nat)

  datatype RuntimeSnapshot = RuntimeSnapshot(revision: nat, plugins: seq<RuntimeConfig>)

  datatype PauseNotice = PauseNotice(runtimeRevision: nat, failureCount: nat, windowStarted: nat, pausedAt: nat)

  datatype SnapshotError = ZeroRevision | TooManyWorkers | Duplicate | ZeroSchemaVersion | ZeroConcurrency | StartFailed

  datatype Manager = Manager(
    limits: RuntimeLimits,
    workers: map<PluginKey, ManagedWorker>,
    notices: map<PluginKey, PauseNotice>,
    sent: set<PluginKey>,
    nextGeneration: nat,
    // seen from outside
    nextHandle: Handle,
    live: set<Handle>,
    stopped: multiset<Handle>,
    history: map<PluginKey, seq<nat>>)

  function Max(a: nat, b: nat): nat {
    if a < b then b else a
  }

  function KeyFor(c: RuntimeConfig): PluginKey {
    (c.pluginId, c.version)
  }

  /** What launching a Worker yields: the concurrency it offers in its handshake, or nothing. */
  type Launcher = RuntimeConfig -> Option<nat>

  /** A handshake offering zero or more than was asked for is refused and the process terminated. */
  function Launch(launcher: Launcher, c: RuntimeConfig, concurrency: nat): (offered: Option<nat>)
    ensures offered.Some? ==> 1 <= offered.value <= concurrency
  {
    var offered := launcher(c);
    if offered.Some? && 1 <= offered.value <= concurrency then offered else None
  }

  // ----- runtime snapshots -----

  /** A snapshot under construction. */
  datatype Building = Building(
    workers: map<PluginKey, ManagedWorker>,
    started: seq<Handle>,
    nextGeneration: nat,
    nextHandle: Handle,
    live: set<Handle>,
    error: Option<SnapshotError>)

  /** A running Worker with the same configuration is kept. */
  predicate Reusable(existing: ManagedWorker, c: RuntimeConfig, concurrency: nat) {
    && existing.state.Running? && existing.worker.Some?
    && existing.config == c.config
    && existing.runtimeConfigVersion == c.schemaVersion
    && existing.requestedConcurrency == concurrency
  }

  function Entry(worker: Handle, c: RuntimeConfig, concurrency: nat, effective: nat, revision: nat,
                 generation: nat): ManagedWorker {
    ManagedWorker(Some(worker), c.config, c.schemaVersion, concurrency, effective, revision, Running,
                  [], None, None, None, false, generation)
  }

  function BuildOne(m: Manager, revision: nat, b: Building, c: RuntimeConfig, launcher: Launcher): Building {
    var key := KeyFor(c);
    if key in b.workers then b.(error := Some(Duplicate))
    else if c.schemaVersion == 0 then b.(error := Some(ZeroSchemaVersion))
    else if c.requestedConcurrency == 0 then b.(error := Some(ZeroConcurrency))
    else
      var concurrency := Min(c.requestedConcurrency, m.limits.maxConcurrency);
      if key in m.workers && Reusable(m.workers[key], c, concurrency) then
        var existing := m.workers[key];
        b.(workers :=
            b.workers[key := Entry(existing.worker.value, c, concurrency, existing.effectiveConcurrency, revision,
                                   existing.generation)])
      else
        match Launch(launcher, c, concurrency)
        case None => b.(error := Some(StartFailed))
        case Some(effective) =>
          Building(b.workers[key := Entry(b.nextHandle, c, concurrency, effective, revision, b.nextGeneration)],
                   b.started + [b.nextHandle], b.nextGeneration + 1, b.nextHandle + 1, b.live + {b.nextHandle}, None)
  }

  function Build(m: Manager, revision: nat, b: Building, configs: seq<RuntimeConfig>, launcher: Launcher): Building
    decreases |configs|
  {
    if configs == [] || b.error.Some? then b
    else Build(m, revision, BuildOne(m, revision, b, configs[0], launcher), configs[1..], launcher)
  }

  function EmptyBuilding(m: Manager): Building {
    Building(map[], [], m.nextGeneration, m.nextHandle, m.live, None)
  }

  /** The processes an entry map refers to. */
  function Handles(workers: map<PluginKey, ManagedWorker>): set<Handle> {
    set key | key in workers && workers[key].worker.Some? :: workers[key].worker.value
  }

  /** Old Workers that the new map does not keep under the same key. */
  function Replaced(previous: map<PluginKey, ManagedWorker>, active: map<PluginKey, ManagedWorker>): set<Handle> {
    set key | key in previous && previous[key].worker.Some?
        && !(key in active && active[key].worker == previous[key].worker)
      :: previous[key].worker.value
  }

  datatype SnapshotOutcome = SnapshotOutcome(manager: Manager, error: Option<SnapshotError>)

  /** Build everything, then swap. A failed launch shuts down what this call started; a configuration
      error returns without doing so. */
  function ApplySnapshot(m: Manager, snapshot: RuntimeSnapshot, launcher: Launcher): SnapshotOutcome {
    if snapshot.revision == 0 then SnapshotOutcome(m, Some(ZeroRevision))
    else if |snapshot.plugins| > m.limits.maxWorkers then SnapshotOutcome(m, Some(TooManyWorkers))
    else
      var b := Build(m, snapshot.revision, EmptyBuilding(m), snapshot.plugins, launcher);
      var counted := m.(nextGeneration := b.nextGeneration, nextHandle := b.nextHandle, live := b.live);
      if b.error == Some(StartFailed) then
        SnapshotOutcome(counted.(live := b.live - Elements(b.started), stopped := m.stopped + multiset(b.started)),
                        b.error)
      else if b.error.Some? then
        SnapshotOutcome(counted, b.error)
      else
        var replaced := Replaced(m.workers, b.workers);
        SnapshotOutcome(counted.(workers := b.workers,
                                 live := b.live - replaced,
                                 stopped := m.stopped + multiset(replaced),
                                 notices := map[], sent := {},
                                 history := map key | key in b.workers :: []), None)
  }

  // ----- failures, restarts and pauses -----

  /** Shut one process down. */
  function Stop(m: Manager, h: Handle): Manager {
    m.(live := m.live - {h}, stopped := m.stopped + multiset{h})
  }

  /** Failures not older than the window. */
  function InWindow(times: seq<nat>, now: nat, window: nat): seq<nat> {
    if times == [] then []
    else (if now <= times[0] + window then [times[0]] else []) + InWindow(times[1..], now, window)
  }

  function Power2(n: nat): nat {
    if n == 0 then 1 else 2 * Power2(n - 1)
  }

  /** Seconds until the next restart: doubled for each earlier failure in the window, up to ten times. */
  function RestartDelay(failures: nat): nat {
    Power2(Min(if failures == 0 then 0 else failures - 1, 10))
  }

  /** The entry after one more failure at `now`. */
  function Failed(limits: RuntimeLimits, w: ManagedWorker, now: nat): ManagedWorker {
    var kept := InWindow(w.failures, now, limits.restartWindow);
    var failures := kept + [now];
    var started := if kept == [] || w.windowStarted.None? then Some(now) else w.windowStarted;
    var base := w.(worker := None, failures := failures, windowStarted := started);
    if |failures| >= Max(limits.restartMaxAttempts, 1) then
      base.(state := Paused, pausedAt := Some(now), nextRestart := None)
    else base.(state := Restarting, nextRestart := Some(now + RestartDelay(|failures|)))
  }

  function HistoryOf(m: Manager, key: PluginKey): seq<nat> {
    if key in m.history then m.history[key] else []
  }

  /** A failure report counts only for the generation it names. */
  function RecordFailure(m: Manager, key: PluginKey, generation: nat, now: nat): Manager {
    if key !in m.workers || m.workers[key].generation != generation then m
    else
      var w := Failed(m.limits, m.workers[key], now);
      var after := m.(workers := m.workers[key := w], history := m.history[key := HistoryOf(m, key) + [now]]);
      if w.state.Paused? then
        after.(notices := m.notices[key := PauseNotice(w.configRevision, |w.failures|, w.windowStarted.value, now)],
               sent := m.sent - {key})
      else after
  }

  /** Claim a restart: only for the same generation, still waiting. */
  predicate CanRestart(m: Manager, key: PluginKey, generation: nat) {
    key in m.workers && m.workers[key].generation == generation && m.workers[key].state.Restarting?
  }

  function ConfigOf(key: PluginKey, w: ManagedWorker): RuntimeConfig {
    RuntimeConfig(key.0, key.1, w.runtimeConfigVersion, w.config, w.requestedConcurrency)
  }

  function BeginRestart(m: Manager, key: PluginKey, generation: nat): Manager
    requires CanRestart(m, key, generation)
  {
    m.(workers := m.workers[key := m.workers[key].(nextRestart := None)])
  }

  /** The launch came back, possibly much later: install the Worker if the entry is still the one that
      asked, otherwise shut it down again; a failed launch is one more failure. */
  function FinishRestart(m: Manager, key: PluginKey, generation: nat, offered: Option<nat>, now: nat): Manager {
    match offered
    case None => RecordFailure(m, key, generation, now)
    case Some(effective) =>
      var launched := m.(nextHandle := m.nextHandle + 1, live := m.live + {m.nextHandle});
      if CanRestart(m, key, generation) then
        launched.(workers :=
            m.workers[key := m.workers[key].(worker := Some(m.nextHandle), state := Running,
                                             effectiveConcurrency := effective)])
      else Stop(launched, m.nextHandle)
  }

  function Restart(m: Manager, key: PluginKey, generation: nat, launcher: Launcher, now: nat): Manager {
    if !CanRestart(m, key, generation) then m
    else
      var w := m.workers[key];
      FinishRestart(BeginRestart(m, key, generation), key, generation,
                    Launch(launcher, ConfigOf(key, w), w.requestedConcurrency), now)
  }

  /** What inspecting a Worker process shows. */
  datatype Health = Alive | Exited | ReaderClosed | Unknown

  /** One entry of the map that was copied when the poll began. */
  function PollOne(m: Manager, key: PluginKey, entry: ManagedWorker, health: Health, launcher: Launcher,
                   now: nat): Manager {
    if entry.worker.Some? then
      if health.Exited? || health.ReaderClosed? then
        RecordFailure(Stop(m, entry.worker.value), key, entry.generation, now)
      else m
    else if entry.state.Restarting? && entry.nextRestart.Some? && entry.nextRestart.value <= now then
      Restart(m, key, entry.generation, launcher, now)
    else m
  }

  function Poll(m: Manager, entries: map<PluginKey, ManagedWorker>, order: seq<PluginKey>,
                health: PluginKey -> Health, launcher: Launcher, now: nat): Manager
    decreases |order|
  {
    if order == [] then m
    else
      var after := if order[0] in entries then PollOne(m, order[0], entries[order[0]], health(order[0]), launcher, now)
          else m;
      Poll(after, entries, order[1..], health, launcher, now)
  }

  function PollHealth(m: Manager, order: seq<PluginKey>, health: PluginKey -> Health, launcher: Launcher,
                      now: nat): Manager {
    Poll(m, m.workers, order, health, launcher, now)
  }

  // ----- notices -----

  datatype PauseAck = PauseAck(key: PluginKey, runtimeRevision: nat, accepted: bool)

  /** Notices not yet handed to the connection. */
  function PendingNotices(m: Manager): map<PluginKey, PauseNotice> {
    map key | key in m.notices && key !in m.sent :: m.notices[key]
  }

  /** An accepted acknowledgement removes the notice whatever its revision; only the flag on the entry
      looks at the revision. */
  function AcknowledgePause(m: Manager, ack: PauseAck): Manager {
    if !ack.accepted then m
    else
      var after := m.(notices := m.notices - {ack.key}, sent := m.sent - {ack.key});
      if ack.key in m.workers && m.workers[ack.key].configRevision == ack.runtimeRevision then
        after.(workers := m.workers[ack.key := m.workers[ack.key].(acknowledged := true)])
      else after
  }

  function ShutdownAll(m: Manager): Manager {
    m.(workers := map[], live := m.live - Handles(m.workers), stopped := m.stopped + multiset(Handles(m.workers)),
       history := map[])
  }
}
