/** The steps of a snapshot, and with them every step, keep the invariant; so it holds in every state. */
module InterleavingRuns {
  import opened Basics
  import opened PluginManagers
  import opened ManagerLaws
  import opened SnapshotLaws
  import ManagerRuns
  import opened Interleaving
  import opened InterleavingLaws

  lemma BeginSound(s: System, snapshot: RuntimeSnapshot)
    requires Sound(s) && s.change.Quiet?
    ensures Sound(Begin(s, snapshot))
  {
    if snapshot.revision != 0 && |snapshot.plugins| <= s.m.limits.maxWorkers {
      CopySound(s, s.(change := Constructing(snapshot.revision, s.m.workers, snapshot.plugins, map[], [])));
    }
  }

  lemma CopySound(s: System, t: System)
    requires Sound(s) && s.change.Quiet? && t == s.(change := t.change) && t.change.Constructing?
    requires t.change.current == s.m.workers && t.change.built == map[] && t.change.started == []
    ensures Sound(t)
  {
    forall g | Private(s, g) ensures Private(t, g) {}
    forall h | h in t.m.live ensures Located(t, h) { assert Located(s, h); }
    assert AllStamped(t, CurrentOf(t.change));
  }

  /** The snapshot ends without a trace, or only has to clean up. */
  lemma GiveUpSound(s: System, change: Change)
    requires Sound(s) && s.change.Constructing? && (change.Quiet? || change == Aborting(s.change.started))
    ensures Sound(s.(change := change))
  {
    var t := s.(change := change);
    forall g | Private(s, g) ensures Private(t, g) {}
    forall h | h in t.m.live ensures Located(t, h) { assert Located(s, h); }
  }

  /** One more entry under construction, taken from the copy. */
  ghost predicate Reuses(s: System, t: System, key: PluginKey, w: ManagedWorker) {
    && s.change.Constructing? && s.change.rest != [] && key !in s.change.built && CleanlyRunning(w, s.change.revision)
    && Kept(s.m.(workers := s.change.current), key, w)
    && t == s.(change := s.change.(rest := s.change.rest[1..], built := s.change.built[key := w]))
  }

  lemma ReuseSound(s: System, t: System, key: PluginKey, w: ManagedWorker)
    requires Sound(s) && Reuses(s, t, key, w)
    ensures Sound(t)
  {
    forall g | Private(s, g) ensures Private(t, g) {}
    assert Stamped(s, key, s.change.current[key].generation, s.change.current[key].worker);
    assert Named(s.change.current, w.generation);
    forall h | h in t.m.live ensures Located(t, h) {
      assert Located(s, h);
      if Private(s, s.seen.launched[h]) {
        forall k | k in t.change.built && k != key ensures t.change.built[k] == s.change.built[k] {}
      }
    }
    forall k | k in t.change.built ensures InProgress(t, k) {
      if k != key { assert InProgress(s, k); }
    }
    assert StartedOk(t) by {
      forall h | h in StartedOf(t.change)
        ensures s.seen.issued[s.seen.launched[h]] != key || !(key in s.change.built)
      {}
    }
  }

  /** One more entry under construction, with a process and a generation of its own. */
  ghost predicate LaunchesNew(s: System, t: System, key: PluginKey, w: ManagedWorker) {
    && s.change.Constructing? && s.change.rest != [] && key !in s.change.built && CleanlyRunning(w, s.change.revision)
    && w.worker == Some(s.m.nextHandle) && w.generation == s.m.nextGeneration
    && t == s.(m := s.m.(nextGeneration := s.m.nextGeneration + 1, nextHandle := s.m.nextHandle + 1,
                         live := s.m.live + {s.m.nextHandle}),
               change := s.change.(rest := s.change.rest[1..], built := s.change.built[key := w],
                                   started := s.change.started + [s.m.nextHandle]),
               seen := t.seen)
    && t.seen.launched == s.seen.launched[s.m.nextHandle := s.m.nextGeneration]
    && t.seen.issued == s.seen.issued[s.m.nextGeneration := key]
  }

  lemma NewPrivate(s: System, t: System, key: PluginKey, w: ManagedWorker, g: nat)
    requires LaunchesNew(s, t, key, w) && (Private(s, g) || (Sound(s) && g == s.m.nextGeneration))
    ensures Private(t, g)
  {
    if !Private(s, g) {
      assert !Named(s.m.workers, g) by {
        assert forall k :: k in s.m.workers ==> Stamped(s, k, s.m.workers[k].generation, s.m.workers[k].worker);
      }
      assert !Named(s.change.current, g) by {
        assert forall k :: k in s.change.current ==>
            Stamped(s, k, s.change.current[k].generation, s.change.current[k].worker);
      }
      forall k, worker ensures !Observes(s.round, k, g, worker) {
        if k in LeftOf(s.round) {
          assert Stamped(s, k, LeftOf(s.round)[k].generation, LeftOf(s.round)[k].worker);
        }
      }
    }
  }

  lemma NewStamps(s: System, t: System, key: PluginKey, w: ManagedWorker)
    requires Sound(s) && LaunchesNew(s, t, key, w)
    ensures AllStamped(t, t.m.workers) && RoundOk(t) && AllStamped(t, CurrentOf(t.change))
  {
    assert s.m.nextGeneration !in s.seen.issued && s.m.nextHandle !in s.seen.launched;
    assert Grows(s, t);
    StampsStay(s, t, s.m.workers);
    StampsStay(s, t, LeftOf(s.round));
    StampsStay(s, t, CurrentOf(s.change));
  }

  lemma NewBuilt(s: System, t: System, key: PluginKey, w: ManagedWorker)
    requires Sound(s) && LaunchesNew(s, t, key, w)
    ensures BuiltOk(t)
  {
    assert s.m.nextGeneration !in s.seen.issued && s.m.nextHandle !in s.seen.launched;
    assert Grows(s, t);
    forall k | k in t.change.built ensures InProgress(t, k) {
      if k != key {
        assert InProgress(s, k);
        StampStays(s, t, k, s.change.built[k].generation, s.change.built[k].worker);
      }
    }
  }

  lemma NewStarted(s: System, t: System, key: PluginKey, w: ManagedWorker)
    requires Sound(s) && LaunchesNew(s, t, key, w)
    ensures StartedOk(t)
  {
    assert s.m.nextGeneration !in s.seen.issued && s.m.nextHandle !in s.seen.launched;
    forall h | h in t.change.started
      ensures h in t.m.live && h in t.seen.launched && t.seen.launched[h] in t.seen.issued
      ensures Private(t, t.seen.launched[h])
      ensures var k := t.seen.issued[t.seen.launched[h]]; k in t.change.built && t.change.built[k].worker == Some(h)
    {
      if h == s.m.nextHandle {
        NewPrivate(s, t, key, w, s.m.nextGeneration);
      } else {
        assert h in s.change.started;
        NewPrivate(s, t, key, w, s.seen.launched[h]);
      }
    }
    assert s.m.nextHandle !in s.change.started;
  }

  lemma NewLocated(s: System, t: System, key: PluginKey, w: ManagedWorker, h: Handle)
    requires Sound(s) && LaunchesNew(s, t, key, w) && h in t.m.live
    ensures Located(t, h)
  {
    if h == s.m.nextHandle {
      NewPrivate(s, t, key, w, s.m.nextGeneration);
    } else {
      assert Located(s, h);
      var g := s.seen.launched[h];
      assert g < s.m.nextGeneration;
      if Private(s, g) {
        NewPrivate(s, t, key, w, g);
        forall k | k in t.change.built && k != key ensures t.change.built[k] == s.change.built[k] {}
      }
    }
  }

  lemma NewSound(s: System, t: System, key: PluginKey, w: ManagedWorker)
    requires Sound(s) && LaunchesNew(s, t, key, w)
    ensures Sound(t)
  {
    assert Books(t) by { assert s.m.nextHandle !in s.m.stopped; }
    assert EntriesOk(t.m) && Past(t.m, t.clock) by { assert forall k :: HistoryOf(t.m, k) == HistoryOf(s.m, k); }
    NewStamps(s, t, key, w);
    NewBuilt(s, t, key, w);
    NewStarted(s, t, key, w);
    forall h | h in t.m.live ensures Located(t, h) { NewLocated(s, t, key, w, h); }
  }

  lemma ReuseCase(s: System, launcher: Launcher)
    requires s.change.Constructing? && s.change.rest != []
    requires BuildStep(s, launcher).change.Constructing? && BuildStep(s, launcher).m.nextHandle == s.m.nextHandle
    ensures var t, key := BuildStep(s, launcher), KeyFor(s.change.rest[0]);
            key in t.change.built && Reuses(s, t, key, t.change.built[key])
  {
  }

  /** A build that went on with a new process. */
  lemma OneLaunched(m: Manager, revision: nat, b: Building, c: RuntimeConfig, launcher: Launcher)
    requires b.error.None? && BuildOne(m, revision, b, c, launcher).error.None?
    requires BuildOne(m, revision, b, c, launcher).nextHandle != b.nextHandle
    ensures var after, key := BuildOne(m, revision, b, c, launcher), KeyFor(c);
            && key !in b.workers && key in after.workers
            && var w := after.workers[key];
            && CleanlyRunning(w, revision) && w.worker == Some(b.nextHandle) && w.generation == b.nextGeneration
            && after == Building(b.workers[key := w], b.started + [b.nextHandle], b.nextGeneration + 1,
                                 b.nextHandle + 1, b.live + {b.nextHandle}, None)
  {
  }

  lemma LaunchCase(s: System, launcher: Launcher)
    requires s.change.Constructing? && s.change.rest != []
    requires BuildStep(s, launcher).change.Constructing? && BuildStep(s, launcher).m.nextHandle != s.m.nextHandle
    ensures var t, key := BuildStep(s, launcher), KeyFor(s.change.rest[0]);
            key in t.change.built && LaunchesNew(s, t, key, t.change.built[key])
  {
    var m, c := s.m.(workers := s.change.current), s.change.rest[0];
    var b := BuildOne(m, s.change.revision, UnderConstruction(s), c, launcher);
    OneLaunched(m, s.change.revision, UnderConstruction(s), c, launcher);
    LaunchedStep(s, BuildStep(s, launcher), b, KeyFor(c));
  }

  lemma LaunchedStep(s: System, t: System, b: Building, key: PluginKey)
    requires s.change.Constructing? && s.change.rest != [] && key !in s.change.built && key in b.workers
    requires var w := b.workers[key];
             && CleanlyRunning(w, s.change.revision)
             && w.worker == Some(s.m.nextHandle) && w.generation == s.m.nextGeneration
             && b == Building(s.change.built[key := w], s.change.started + [s.m.nextHandle], s.m.nextGeneration + 1,
                              s.m.nextHandle + 1, s.m.live + {s.m.nextHandle}, None)
    requires t == s.(m := s.m.(nextGeneration := b.nextGeneration, nextHandle := b.nextHandle, live := b.live),
                     change := s.change.(rest := s.change.rest[1..], built := b.workers, started := b.started),
                     seen := t.seen)
    requires t.seen.launched == s.seen.launched[s.m.nextHandle := s.m.nextGeneration]
    requires t.seen.issued == s.seen.issued[s.m.nextGeneration := key]
    ensures LaunchesNew(s, t, key, b.workers[key])
  {
  }

  /** What building the next configuration comes to. */
  lemma BuildCases(s: System, launcher: Launcher)
    requires s.change.Constructing? && s.change.rest != []
    ensures var t := BuildStep(s, launcher);
            || t == s.(change := Quiet) || t == s.(change := Aborting(s.change.started))
            || (exists key, w :: Reuses(s, t, key, w)) || (exists key, w :: LaunchesNew(s, t, key, w))
  {
    var t := BuildStep(s, launcher);
    if t.change.Constructing? {
      if t.m.nextHandle == s.m.nextHandle { ReuseCase(s, launcher); } else { LaunchCase(s, launcher); }
    }
  }

  lemma BuildSound(s: System, launcher: Launcher)
    requires Sound(s) && s.change.Constructing? && s.change.rest != []
    ensures Sound(BuildStep(s, launcher))
  {
    var t := BuildStep(s, launcher);
    BuildCases(s, launcher);
    if t == s.(change := Quiet) || t == s.(change := Aborting(s.change.started)) {
      GiveUpSound(s, t.change);
    } else if exists key, w :: Reuses(s, t, key, w) {
      var key, w :| Reuses(s, t, key, w);
      ReuseSound(s, t, key, w);
    } else {
      var key, w :| LaunchesNew(s, t, key, w);
      NewSound(s, t, key, w);
    }
  }

  lemma AbortSound(s: System)
    requires Sound(s) && s.change.Aborting?
    ensures Sound(Step(s, StopStarted))
  {
    var started := s.change.started;
    var t := s.(change := if started == [] then Quiet else Aborting(started[1..]));
    forall g | Private(s, g) ensures Private(t, g) {}
    forall h | h in t.m.live ensures Located(t, h) { assert Located(s, h); }
    assert Sound(t);
    if started != [] {
      assert started[0] in StartedOf(s.change);
      StopSound(t, started[0]);
    }
  }

  lemma SwapEntriesOk(s: System)
    requires Sound(s) && s.change.Constructing?
    ensures var t := SwapStep(s);
            EntriesOk(t.m) && Past(t.m, t.clock) && AllStamped(t, t.m.workers)
  {
    var t := SwapStep(s);
    assert forall key :: HistoryOf(t.m, key) == [];
    forall key | key in t.m.workers
      ensures EntryOk(t.m.limits, t.m.workers[key], HistoryOf(t.m, key))
      ensures Stamped(t, key, t.m.workers[key].generation, t.m.workers[key].worker)
    {
      assert InProgress(s, key);
    }
    forall key | key in t.m.workers ensures t.m.workers[key].generation < t.m.nextGeneration {
      assert Stamped(t, key, t.m.workers[key].generation, t.m.workers[key].worker);
    }
    forall a, b | a in t.m.workers && b in t.m.workers && t.m.workers[a].generation == t.m.workers[b].generation
      ensures a == b
    {
      assert Stamped(t, a, t.m.workers[a].generation, t.m.workers[a].worker);
      assert Stamped(t, b, t.m.workers[b].generation, t.m.workers[b].worker);
    }
  }

  lemma SwapPending(s: System)
    requires Sound(s) && s.change.Constructing?
    ensures PendingOk(SwapStep(s))
  {
    var t := SwapStep(s);
    forall h | h in PendingOf(t.change)
      ensures h in t.seen.launched && t.seen.launched[h] in t.seen.issued
      ensures !Holds(t.m, t.seen.issued[t.seen.launched[h]], h)
    {
      var key :| key in s.m.workers && s.m.workers[key].worker == Some(h)
                 && !(key in s.change.built && s.change.built[key].worker == s.m.workers[key].worker);
      assert Stamped(s, key, s.m.workers[key].generation, Some(h));
    }
  }

  lemma SwapLocated(s: System, h: Handle)
    requires Sound(s) && s.change.Constructing? && h in s.m.live
    ensures Located(SwapStep(s), h)
  {
    var t := SwapStep(s);
    assert Located(s, h);
    var g := s.seen.launched[h];
    var key := s.seen.issued[g];
    if Holds(s.m, key, h) && !Holds(t.m, key, h) {
      assert h in Replaced(s.m.workers, s.change.built);
    } else if !Holds(s.m, key, h) && h !in StartedOf(s.change) {
      assert Private(t, g);
    }
  }

  lemma SwapSound(s: System)
    requires Sound(s) && s.change.Constructing?
    ensures Sound(SwapStep(s))
  {
    var t := SwapStep(s);
    SwapEntriesOk(s);
    SwapPending(s);
    forall h | h in t.m.live ensures Located(t, h) { SwapLocated(s, h); }
    assert Books(t) && RoundOk(t) && AllStamped(t, CurrentOf(t.change)) && BuiltOk(t) && StartedOk(t);
  }

  lemma ReplacedSound(s: System, h: Handle)
    requires Sound(s) && s.change.Replacing? && h in s.change.replaced
    ensures Sound(Step(s, StopReplaced(h)))
  {
    assert h in PendingOf(s.change);
    StopSound(s, h);
    var u := s.(m := Stop(s.m, h));
    var t := Step(s, StopReplaced(h));
    forall g | Private(u, g) ensures Private(t, g) {}
    forall x | x in t.m.live ensures Located(t, x) { assert Located(u, x); }
  }

  /** Notices and marks concern nothing else. */
  lemma NoticesSound(s: System, after: Manager)
    requires Sound(s) && after == s.m.(notices := after.notices, sent := after.sent)
    ensures Sound(s.(m := after))
  {
    var t := s.(m := after);
    assert forall key :: HistoryOf(after, key) == HistoryOf(s.m, key);
    forall g | Private(s, g) ensures Private(t, g) {}
    forall h | h in t.m.live ensures Located(t, h) { assert Located(s, h); }
    assert StartedOk(t);
  }

  lemma EndSound(s: System)
    requires Sound(s) && s.change == Replacing({})
    ensures Sound(s.(change := Quiet))
  {
    var t := s.(change := Quiet);
    forall g | Private(s, g) ensures Private(t, g) {}
    forall h | h in t.m.live ensures Located(t, h) { assert Located(s, h); }
  }

  lemma AckSound(s: System, ack: PauseAck)
    requires Sound(s)
    ensures Sound(Step(s, Acknowledge(ack)))
  {
    var m, after := s.m, AcknowledgePause(s.m, ack);
    NoticesSound(s, m.(notices := after.notices, sent := after.sent));
    if ack.accepted && ack.key in m.workers && m.workers[ack.key].configRevision == ack.runtimeRevision {
      var noted := m.(notices := after.notices, sent := after.sent);
      assert EntryOk(noted.limits, noted.workers[ack.key], HistoryOf(noted, ack.key));
      ManagerRuns.FlagReplaces(noted, after, ack.key);
      assert Past(after, s.clock);
      YieldSound(s.(m := noted), after, ack.key);
    }
  }

  lemma StopAllSound(s: System)
    requires Sound(s)
    ensures Sound(Step(s, StopAll))
  {
    var t := Step(s, StopAll);
    forall h | h in Handles(s.m.workers) ensures h < s.m.nextHandle {
      var k :| k in s.m.workers && s.m.workers[k].worker == Some(h);
      assert Stamped(s, k, s.m.workers[k].generation, Some(h));
    }
    forall g | Private(s, g) ensures Private(t, g) {}
    forall k | k in s.m.workers && s.m.workers[k].worker.Some? ensures s.m.workers[k].worker.value !in t.m.live {
      assert s.m.workers[k].worker.value in Handles(s.m.workers);
    }
    forall h | h in t.m.live ensures Located(t, h) { assert Located(s, h); }
    StopAllStarted(s);
    assert Books(t) && RoundOk(t) && BuiltOk(t) && PendingOk(t);
  }

  lemma StopAllStarted(s: System)
    requires Sound(s)
    ensures StartedOk(Step(s, StopAll))
  {
    var t := Step(s, StopAll);
    forall h | h in StartedOf(s.change) ensures h in t.m.live && Private(t, s.seen.launched[h]) {
      forall k | k in s.m.workers ensures s.m.workers[k].worker != Some(h) {
        assert Stamped(s, k, s.m.workers[k].generation, s.m.workers[k].worker);
        assert Named(s.m.workers, s.m.workers[k].generation);
      }
    }
  }

  lemma StepSound(s: System, e: Event)
    requires Sound(s)
    ensures Sound(Step(s, e))
  {
    match e {
      case Pass(elapsed) => PassSound(s, elapsed);
      case BeginRound => if s.round.Idle? { BeginRoundSound(s); }
      case Look(key, health) => if s.round.Turn? && key in s.round.left { LookSound(s, key, health); }
      case Report => if s.round.Reporting? { RecordSound(s); }
      case Finish(offered) => if s.round.Starting? { FinishSound(s, offered); }
      case EndRound => if s.round == Turn(map[]) { ForgetSound(s, Idle); }
      case BeginSnapshot(snapshot) => if s.change.Quiet? { BeginSound(s, snapshot); }
      case BuildNext(launcher) => if s.change.Constructing? && s.change.rest != [] { BuildSound(s, launcher); }
      case StopStarted => if s.change.Aborting? { AbortSound(s); }
      case Swap => if s.change.Constructing? && s.change.rest == [] { SwapSound(s); }
      case StopReplaced(h) => if s.change.Replacing? && h in s.change.replaced { ReplacedSound(s, h); }
      case EndSnapshot =>
        if s.change == Replacing({}) {
          NoticesSound(s, s.m.(notices := map[], sent := {}));
          EndSound(s.(m := s.m.(notices := map[], sent := {})));
        }
      case Acknowledge(ack) => AckSound(s, ack);
      case StopAll => StopAllSound(s);
    }
  }

  lemma PassSound(s: System, elapsed: nat)
    requires Sound(s)
    ensures Sound(Step(s, Pass(elapsed)))
  {
    var t := Step(s, Pass(elapsed));
    forall g | Private(s, g) ensures Private(t, g) {}
    forall h | h in t.m.live ensures Located(t, h) { assert Located(s, h); }
    assert StartedOk(t);
  }

  /** In every state of every interleaving: each entry's breaker follows its failure history; generations and
      processes are never shared between plugins; every process launched is alive or was shut down; and every
      live process waits for its shutdown, or is held by the entry it was launched for and is then the one every
      note of the round about this generation names, or belongs to the snapshot that launched it, or to nobody. */
  lemma {:induction false} SoundInEveryState(limits: RuntimeLimits, events: seq<Event>)
    ensures Sound(Run(Initial(limits), events))
    decreases |events|
  {
    if events != [] {
      var n := |events| - 1;
      SoundInEveryState(limits, events[..n]);
      StepSound(Run(Initial(limits), events[..n]), events[n]);
    }
  }
}
