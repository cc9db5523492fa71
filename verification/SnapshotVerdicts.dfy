/** What a runtime snapshot comes to, read off the request before it is applied, and what it leaves running. */
module SnapshotVerdicts {
  import opened Basics
  import opened PluginManagers
  import opened ManagerLaws
  import opened SnapshotLaws

  /** The snapshot is looked at configuration by configuration. */
  predicate Admitted(m: Manager, snapshot: RuntimeSnapshot) {
    snapshot.revision != 0 && |snapshot.plugins| <= m.limits.maxWorkers
  }

  /** Both numbers set, and no earlier configuration for the same plugin. */
  predicate WellFormed(plugins: seq<RuntimeConfig>, i: nat)
    requires i < |plugins|
  {
    && plugins[i].schemaVersion != 0 && plugins[i].requestedConcurrency != 0
    && KeyFor(plugins[i]) !in KeysOf(plugins[..i])
  }

  /** What was asked for, up to the limit. */
  function Concurrency(m: Manager, c: RuntimeConfig): nat {
    if c.requestedConcurrency < m.limits.maxConcurrency then c.requestedConcurrency else m.limits.maxConcurrency
  }

  /** The plugin's Worker runs, with the configuration, the schema version and the concurrency asked for. */
  predicate Reuses(m: Manager, c: RuntimeConfig) {
    && (c.pluginId, c.version) in m.workers
    && var w := m.workers[(c.pluginId, c.version)];
    && w.state == Running && w.worker != None
    && w.config == c.config
    && w.runtimeConfigVersion == c.schemaVersion
    && w.requestedConcurrency == Concurrency(m, c)
  }

  /** The launch succeeds, and the handshake offers something and not more than was asked for. */
  predicate Starts(m: Manager, c: RuntimeConfig, launcher: Launcher) {
    launcher(c).Some? && 1 <= launcher(c).value <= Concurrency(m, c)
  }

  predicate Proceeds(m: Manager, plugins: seq<RuntimeConfig>, launcher: Launcher, i: nat)
    requires i < |plugins|
  {
    WellFormed(plugins, i) && (Reuses(m, plugins[i]) || Starts(m, plugins[i], launcher))
  }

  /** Everything before configuration `n` proceeds. */
  ghost predicate Reaches(m: Manager, plugins: seq<RuntimeConfig>, launcher: Launcher, n: nat) {
    n <= |plugins| && forall j :: 0 <= j < n ==> Proceeds(m, plugins, launcher, j)
  }

  /** How many of the first `n` need a new process. */
  function Launches(m: Manager, plugins: seq<RuntimeConfig>, n: nat): nat
    requires n <= |plugins|
  {
    if n == 0 then 0 else Launches(m, plugins, n - 1) + if Reuses(m, plugins[n - 1]) then 0 else 1
  }

  lemma {:induction false} LaunchesSome(m: Manager, plugins: seq<RuntimeConfig>, n: nat)
    requires n <= |plugins|
    ensures Launches(m, plugins, n) > 0 <==> exists j :: 0 <= j < n && !Reuses(m, plugins[j])
  {
    if n > 0 { LaunchesSome(m, plugins, n - 1); }
  }

  /** The entry shows what was asked for, runs and has a clean record. */
  ghost predicate AsAsked(m: Manager, revision: nat, c: RuntimeConfig, w: ManagedWorker) {
    && w.worker.Some? && w.state == Running && w.configRevision == revision
    && w.config == c.config && w.runtimeConfigVersion == c.schemaVersion
    && w.requestedConcurrency == Concurrency(m, c)
    && w.failures == [] && w.windowStarted == None && w.nextRestart == None && w.pausedAt == None && !w.acknowledged
  }

  /** The entry of a configuration, and where its process comes from. */
  ghost predicate Placed(m: Manager, revision: nat, b: Building, c: RuntimeConfig) {
    && (c.pluginId, c.version) in b.workers
    && var w := b.workers[(c.pluginId, c.version)];
    && AsAsked(m, revision, c, w)
    && if Reuses(m, c) then
         var kept := m.workers[(c.pluginId, c.version)];
         && w.worker == kept.worker && w.effectiveConcurrency == kept.effectiveConcurrency
         && w.generation == kept.generation
       else
         w.worker.value >= m.nextHandle && 1 <= w.effectiveConcurrency <= Concurrency(m, c)
  }

  /** `after` is `b` with one more configuration placed. */
  ghost predicate Added(m: Manager, revision: nat, b: Building, after: Building, c: RuntimeConfig) {
    && after.error.None? && after.workers.Keys == b.workers.Keys + {KeyFor(c)} && Placed(m, revision, after, c)
    && after.nextHandle == b.nextHandle + (if Reuses(m, c) then 0 else 1)
    && forall key :: key in b.workers ==> after.workers[key] == b.workers[key]
  }

  lemma OneProceeds(m: Manager, revision: nat, b: Building, c: RuntimeConfig, launcher: Launcher)
    requires b.error.None? && b.nextHandle >= m.nextHandle && KeyFor(c) !in b.workers
    requires c.schemaVersion != 0 && c.requestedConcurrency != 0 && (Reuses(m, c) || Starts(m, c, launcher))
    ensures var after := BuildOne(m, revision, b, c, launcher);
            Added(m, revision, b, after, c)
  {
  }

  /** The build after the first `n` configurations. */
  ghost predicate Progress(m: Manager, revision: nat, plugins: seq<RuntimeConfig>, n: nat, b: Building) {
    && n <= |plugins| && b.error.None? && b.workers.Keys == KeysOf(plugins[..n])
    && b.nextHandle == m.nextHandle + Launches(m, plugins, n)
    && forall j :: 0 <= j < n ==> Placed(m, revision, b, plugins[j])
  }

  lemma PlacedStays(m: Manager, revision: nat, b: Building, after: Building, c: RuntimeConfig)
    requires Placed(m, revision, b, c) && KeyFor(c) in after.workers && after.workers[KeyFor(c)] == b.workers[KeyFor(c)]
    ensures Placed(m, revision, after, c)
  {
  }

  lemma KeysOneMore(plugins: seq<RuntimeConfig>, n: nat)
    requires n < |plugins|
    ensures KeysOf(plugins[..n + 1]) == KeysOf(plugins[..n]) + {KeyFor(plugins[n])}
  {
    assert plugins[..n + 1] == plugins[..n] + [plugins[n]];
  }

  lemma OneMore(m: Manager, revision: nat, plugins: seq<RuntimeConfig>, n: nat, b: Building, after: Building)
    requires Progress(m, revision, plugins, n, b) && n < |plugins| && KeyFor(plugins[n]) !in b.workers
    requires Added(m, revision, b, after, plugins[n])
    ensures Progress(m, revision, plugins, n + 1, after)
  {
    KeysOneMore(plugins, n);
    forall j | 0 <= j < n ensures Placed(m, revision, after, plugins[j]) {
      PlacedStays(m, revision, b, after, plugins[j]);
    }
  }

  lemma ProceedsOnce(m: Manager, revision: nat, plugins: seq<RuntimeConfig>, launcher: Launcher, n: nat, b: Building)
    requires n < |plugins| && Proceeds(m, plugins, launcher, n) && Progress(m, revision, plugins, n, b)
    ensures Progress(m, revision, plugins, n + 1, BuildOne(m, revision, b, plugins[n], launcher))
  {
    OneProceeds(m, revision, b, plugins[n], launcher);
    OneMore(m, revision, plugins, n, b, BuildOne(m, revision, b, plugins[n], launcher));
  }

  lemma BuildUnrolls(m: Manager, revision: nat, b: Building, plugins: seq<RuntimeConfig>, launcher: Launcher, n: nat)
    requires n < |plugins| && b.error.None?
    ensures Build(m, revision, b, plugins[n..], launcher)
            == Build(m, revision, BuildOne(m, revision, b, plugins[n], launcher), plugins[n + 1..], launcher)
  {
    assert plugins[n..][0] == plugins[n] && plugins[n..][1..] == plugins[n + 1..];
  }

  lemma NothingBuilt(m: Manager, revision: nat, plugins: seq<RuntimeConfig>)
    ensures plugins[0..] == plugins && Progress(m, revision, plugins, 0, EmptyBuilding(m))
  {
    assert plugins[..0] == [];
  }

  lemma {:induction false} BuildReaches(m: Manager, revision: nat, plugins: seq<RuntimeConfig>, launcher: Launcher,
                                        n: nat)
    returns (b: Building)
    requires Reaches(m, plugins, launcher, n)
    ensures Build(m, revision, EmptyBuilding(m), plugins, launcher) == Build(m, revision, b, plugins[n..], launcher)
    ensures Progress(m, revision, plugins, n, b)
  {
    if n == 0 {
      b := EmptyBuilding(m);
      NothingBuilt(m, revision, plugins);
    } else {
      var before := BuildReaches(m, revision, plugins, launcher, n - 1);
      b := BuildOne(m, revision, before, plugins[n - 1], launcher);
      assert Progress(m, revision, plugins, n, b) by { ProceedsOnce(m, revision, plugins, launcher, n - 1, before); }
      assert before.error.None?;
      BuildUnrolls(m, revision, before, plugins, launcher, n - 1);
    }
  }

  /** The first configuration that does not proceed, if there is one. */
  lemma {:induction false} FirstStop(m: Manager, plugins: seq<RuntimeConfig>, launcher: Launcher, n: nat)
    returns (stop: nat)
    requires Reaches(m, plugins, launcher, n)
    ensures Reaches(m, plugins, launcher, stop) && (stop < |plugins| ==> !Proceeds(m, plugins, launcher, stop))
    decreases |plugins| - n
  {
    if n < |plugins| && Proceeds(m, plugins, launcher, n) {
      stop := FirstStop(m, plugins, launcher, n + 1);
    } else {
      stop := n;
    }
  }

  predicate Misconfigured(error: Option<SnapshotError>) {
    error == Some(Duplicate) || error == Some(ZeroSchemaVersion) || error == Some(ZeroConcurrency)
  }

  /** Where the build stops decides how it ends and how many processes it has launched by then. */
  lemma BuildStops(m: Manager, revision: nat, plugins: seq<RuntimeConfig>, launcher: Launcher, n: nat)
    requires Reaches(m, plugins, launcher, n) && (n < |plugins| ==> !Proceeds(m, plugins, launcher, n))
    ensures var b := Build(m, revision, EmptyBuilding(m), plugins, launcher);
            && (b.error.None? <==> n == |plugins|)
            && (n < |plugins| ==> (Misconfigured(b.error) <==> !WellFormed(plugins, n)))
            && (n < |plugins| ==> (b.error == Some(StartFailed) <==> WellFormed(plugins, n)))
            && b.nextHandle == m.nextHandle + Launches(m, plugins, n)
  {
    var b := BuildReaches(m, revision, plugins, launcher, n);
    if n < |plugins| {
      var last := BuildOne(m, revision, b, plugins[n], launcher);
      assert plugins[n..][0] == plugins[n];
      assert last.error.Some?;
      assert Build(m, revision, last, plugins[n..][1..], launcher) == last;
      assert Build(m, revision, b, plugins[n..], launcher) == last;
    }
  }

  lemma StopsOnce(m: Manager, plugins: seq<RuntimeConfig>, launcher: Launcher, n: nat, i: nat)
    requires Reaches(m, plugins, launcher, n) && (n < |plugins| ==> !Proceeds(m, plugins, launcher, n))
    requires Reaches(m, plugins, launcher, i) && i < |plugins| && !Proceeds(m, plugins, launcher, i)
    ensures n == i
  {
  }

  /** Configuration `i` is the first that does not proceed, for a reason in the configuration itself. */
  ghost predicate StopsOnConfiguration(m: Manager, plugins: seq<RuntimeConfig>, launcher: Launcher, i: nat) {
    i < |plugins| && Reaches(m, plugins, launcher, i) && !WellFormed(plugins, i)
  }

  /** Configuration `i` is the first that does not proceed, because its Worker does not start. */
  ghost predicate StopsOnLaunch(m: Manager, plugins: seq<RuntimeConfig>, launcher: Launcher, i: nat) {
    && i < |plugins| && Reaches(m, plugins, launcher, i) && WellFormed(plugins, i)
    && !Reuses(m, plugins[i]) && !Starts(m, plugins[i], launcher)
  }

  /** When a snapshot succeeds, when it fails on a launch and when on a configuration. */
  lemma SnapshotVerdict(m: Manager, snapshot: RuntimeSnapshot, launcher: Launcher)
    ensures var error := ApplySnapshot(m, snapshot, launcher).error;
            && (error.None? <==> Admitted(m, snapshot) && Reaches(m, snapshot.plugins, launcher, |snapshot.plugins|))
            && (error == Some(StartFailed) <==>
                Admitted(m, snapshot) && exists i :: StopsOnLaunch(m, snapshot.plugins, launcher, i))
            && (Admitted(m, snapshot) ==> error.None? || error == Some(StartFailed) || Misconfigured(error))
            && (Misconfigured(error) <==>
                Admitted(m, snapshot) && exists i :: StopsOnConfiguration(m, snapshot.plugins, launcher, i))
  {
    if Admitted(m, snapshot) {
      var plugins := snapshot.plugins;
      var n := FirstStop(m, plugins, launcher, 0);
      BuildStops(m, snapshot.revision, plugins, launcher, n);
      forall i | StopsOnLaunch(m, plugins, launcher, i) || StopsOnConfiguration(m, plugins, launcher, i)
        ensures n == i
      {
        StopsOnce(m, plugins, launcher, n, i);
      }
      if n < |plugins| {
        assert StopsOnLaunch(m, plugins, launcher, n) || StopsOnConfiguration(m, plugins, launcher, n);
      }
    }
  }

  /** The processes launched by a call that has launched `n` of them. */
  function Launched(m: Manager, n: nat): (handles: set<Handle>)
    ensures forall h: Handle :: h in handles <==> m.nextHandle <= h < m.nextHandle + n
  {
    if n == 0 then {} else Launched(m, n - 1) + {m.nextHandle + n - 1}
  }

  /** A snapshot that succeeds or fails on a launch leaves no process behind; after a failed launch the
      entries are as before and each process this call had launched was shut down once. */
  lemma NothingLeftOver(m: Manager, snapshot: RuntimeSnapshot, launcher: Launcher)
    requires Known(m)
    ensures var o := ApplySnapshot(m, snapshot, launcher);
            && (o.error.None? || o.error == Some(StartFailed) ==> Leaked(o.manager) == Leaked(m))
            && (o.error == Some(StartFailed) ==>
                  && o.manager.live == m.live
                  && forall i :: StopsOnLaunch(m, snapshot.plugins, launcher, i) ==>
                       forall h :: h in Launched(m, Launches(m, snapshot.plugins, i)) ==> o.manager.stopped[h] == 1)
  {
    var o := ApplySnapshot(m, snapshot, launcher);
    if Admitted(m, snapshot) {
      var b := SnapshotBuilds(m, snapshot, launcher);
      BuildLeaves(m, snapshot.revision, b);
      StartedAreNew(m, snapshot.revision, b);
      forall i, h | o.error == Some(StartFailed) && StopsOnLaunch(m, snapshot.plugins, launcher, i)
                    && h in Launched(m, Launches(m, snapshot.plugins, i))
        ensures o.manager.stopped[h] == 1
      {
        BuildStops(m, snapshot.revision, snapshot.plugins, launcher, i);
        OnceInDistinct(b.started, h);
      }
    }
  }

  /** Configuration `i` is refused behind others of which one needed a new process. */
  ghost predicate LeaksAt(m: Manager, plugins: seq<RuntimeConfig>, launcher: Launcher, i: nat) {
    StopsOnConfiguration(m, plugins, launcher, i) && exists j :: 0 <= j < i && !Reuses(m, plugins[j])
  }

  lemma ConfigurationLeaves(m: Manager, snapshot: RuntimeSnapshot, launcher: Launcher, i: nat)
    requires Known(m) && Admitted(m, snapshot) && StopsOnConfiguration(m, snapshot.plugins, launcher, i)
    ensures Leaked(ApplySnapshot(m, snapshot, launcher).manager)
            == Leaked(m) + Launched(m, Launches(m, snapshot.plugins, i))
    ensures Leaked(m) !! Launched(m, Launches(m, snapshot.plugins, i))
  {
    var o := ApplySnapshot(m, snapshot, launcher);
    var b := SnapshotBuilds(m, snapshot, launcher);
    BuildStops(m, snapshot.revision, snapshot.plugins, launcher, i);
    BuildLeaves(m, snapshot.revision, b);
    assert Elements(b.started) == Launched(m, Launches(m, snapshot.plugins, i));
  }

  lemma UntouchedUnlessAdmitted(m: Manager, snapshot: RuntimeSnapshot, launcher: Launcher)
    requires !Admitted(m, snapshot)
    ensures ApplySnapshot(m, snapshot, launcher).manager == m
  {
  }

  /** Processes are not all-or-nothing. A snapshot leaves processes running that no entry holds exactly when
      a configuration is refused behind one that needed a new process, everything before it having gone
      through; and then precisely the processes it had launched by then. */
  lemma SnapshotLeaks(m: Manager, snapshot: RuntimeSnapshot, launcher: Launcher)
    requires Known(m)
    ensures var after := ApplySnapshot(m, snapshot, launcher).manager;
            && (Leaked(after) != Leaked(m) <==>
                Admitted(m, snapshot) && exists i :: LeaksAt(m, snapshot.plugins, launcher, i))
            && (forall i :: Admitted(m, snapshot) && LeaksAt(m, snapshot.plugins, launcher, i) ==>
                  Leaked(after) == Leaked(m) + Launched(m, Launches(m, snapshot.plugins, i)))
  {
    var after := ApplySnapshot(m, snapshot, launcher).manager;
    if !Admitted(m, snapshot) {
      UntouchedUnlessAdmitted(m, snapshot, launcher);
    } else {
      forall i | StopsOnConfiguration(m, snapshot.plugins, launcher, i)
        ensures Leaked(after) == Leaked(m) + Launched(m, Launches(m, snapshot.plugins, i))
        ensures Leaked(after) != Leaked(m) <==> LeaksAt(m, snapshot.plugins, launcher, i)
      {
        ConfigurationLeaves(m, snapshot, launcher, i);
        LaunchesSome(m, snapshot.plugins, i);
        if Launches(m, snapshot.plugins, i) > 0 {
          assert m.nextHandle in Launched(m, Launches(m, snapshot.plugins, i));
        }
      }
      SnapshotVerdict(m, snapshot, launcher);
      NothingLeftOver(m, snapshot, launcher);
    }
  }

  /** The snapshot asks for this Worker as it runs. */
  ghost predicate Retained(m: Manager, plugins: seq<RuntimeConfig>, key: PluginKey) {
    exists j :: 0 <= j < |plugins| && KeyFor(plugins[j]) == key && Reuses(m, plugins[j])
  }

  lemma ProgressRetains(m: Manager, revision: nat, plugins: seq<RuntimeConfig>, b: Building, key: PluginKey)
    requires key in m.workers && m.workers[key].worker.Some? && m.workers[key].worker.value < m.nextHandle
    requires b.workers.Keys == KeysOf(plugins) && forall j :: 0 <= j < |plugins| ==> Placed(m, revision, b, plugins[j])
    ensures key in b.workers && b.workers[key].worker == m.workers[key].worker <==> Retained(m, plugins, key)
  {
    if key in b.workers {
      var j :| 0 <= j < |plugins| && KeyFor(plugins[j]) == key;
      assert Placed(m, revision, b, plugins[j]);
    }
    forall j | 0 <= j < |plugins| && KeyFor(plugins[j]) == key && Reuses(m, plugins[j])
      ensures key in b.workers && b.workers[key].worker == m.workers[key].worker
    {
      assert Placed(m, revision, b, plugins[j]);
    }
  }

  lemma BuildRetains(m: Manager, revision: nat, plugins: seq<RuntimeConfig>, launcher: Launcher, key: PluginKey)
    requires Known(m) && key in m.workers && m.workers[key].worker.Some? && Reaches(m, plugins, launcher, |plugins|)
    ensures var b := Build(m, revision, EmptyBuilding(m), plugins, launcher);
            key in b.workers && b.workers[key].worker == m.workers[key].worker <==> Retained(m, plugins, key)
  {
    var b := BuildReaches(m, revision, plugins, launcher, |plugins|);
    assert plugins[..|plugins|] == plugins && plugins[|plugins|..] == [];
    ProgressRetains(m, revision, plugins, b, key);
  }

  /** A successful snapshot keeps exactly the running Workers it asks for as they are, under their generation,
      and shuts each other one down once. */
  lemma ReuseAndReplacement(m: Manager, snapshot: RuntimeSnapshot, launcher: Launcher, key: PluginKey)
    requires Known(m) && key in m.workers && m.workers[key].worker.Some?
    requires ApplySnapshot(m, snapshot, launcher).error.None?
    ensures var after := ApplySnapshot(m, snapshot, launcher).manager;
            var h := m.workers[key].worker.value;
            && (Retained(m, snapshot.plugins, key) <==> key in after.workers && after.workers[key].worker == Some(h))
            && (Retained(m, snapshot.plugins, key) ==>
                  after.stopped[h] == m.stopped[h] && after.workers[key].generation == m.workers[key].generation)
            && (!Retained(m, snapshot.plugins, key) ==> after.stopped[h] == m.stopped[h] + 1 && h !in after.live)
  {
    SnapshotVerdict(m, snapshot, launcher);
    var b := SnapshotBuilds(m, snapshot, launcher);
    KeptOrReplaced(m, snapshot.revision, b, key);
    BuildRetains(m, snapshot.revision, snapshot.plugins, launcher, key);
  }

  /** What a successful snapshot leaves: an entry for each configuration and no other, each as asked for, with the
      Worker that already ran that way or a new one; and no notice. */
  lemma SnapshotAsAsked(m: Manager, snapshot: RuntimeSnapshot, launcher: Launcher)
    requires ApplySnapshot(m, snapshot, launcher).error.None?
    ensures var after := ApplySnapshot(m, snapshot, launcher).manager;
            && after.workers.Keys == (set c | c in snapshot.plugins :: (c.pluginId, c.version))
            && (forall c :: c in snapshot.plugins ==>
                  && (c.pluginId, c.version) in after.workers
                  && var w := after.workers[(c.pluginId, c.version)];
                  && AsAsked(m, snapshot.revision, c, w)
                  && if Reuses(m, c) then
                       var kept := m.workers[(c.pluginId, c.version)];
                       && w.worker == kept.worker && w.effectiveConcurrency == kept.effectiveConcurrency
                       && w.generation == kept.generation
                     else w.worker.value >= m.nextHandle && 1 <= w.effectiveConcurrency <= Concurrency(m, c))
            && after.notices == map[] && after.sent == {}
  {
    var plugins, revision := snapshot.plugins, snapshot.revision;
    SnapshotVerdict(m, snapshot, launcher);
    var b := BuildReaches(m, revision, plugins, launcher, |plugins|);
    assert plugins[..|plugins|] == plugins && plugins[|plugins|..] == [];
    forall c | c in plugins ensures Placed(m, revision, b, c) {
      var j :| 0 <= j < |plugins| && plugins[j] == c;
    }
  }
}
