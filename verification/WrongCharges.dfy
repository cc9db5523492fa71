/** The generation fence in any interleaving: exactly when a failure is charged to an entry that holds another
    process; when a process is lost, and when a pause notice is. */
module WrongCharges {
  import opened Basics
  import opened PluginManagers
  import opened ManagerLaws
  import ManagerRuns
  import opened Interleaving
  import opened InterleavingLaws
  import opened InterleavingRuns
  import opened Overlaps

  // ----- wrong charges -----

  datatype Note = Note(generation: nat, worker: Option<Handle>)

  /** What the round has noted about this plugin. */
  function NoteOf(round: Round, key: PluginKey): Option<Note> {
    if key in LeftOf(round) then Some(Note(LeftOf(round)[key].generation, LeftOf(round)[key].worker))
    else if round.Reporting? && round.key == key then Some(Note(round.generation, Some(round.handle)))
    else if round.Starting? && round.key == key then Some(Note(round.generation, None))
    else None
  }

  /** The entry bears the generation the round has noted, with another process. */
  predicate Stray(s: System, key: PluginKey) {
    var note := NoteOf(s.round, key);
    && note.Some? && key in s.m.workers && s.m.workers[key].generation == note.value.generation
    && s.m.workers[key].worker != note.value.worker
  }

  /** The snapshot's copy has the noted generation too, with another process than the round's. */
  predicate CopiesDiffer(s: System, key: PluginKey) {
    var note := NoteOf(s.round, key);
    && note.Some? && PutsBack(s, key) && s.change.current[key].generation == note.value.generation
    && s.change.current[key].worker != note.value.worker
  }

  /** Only a swap leads a note astray, exactly where the two copies differ; and only for as long as it is kept. */
  predicate NextStray(s: System, e: Event, key: PluginKey) {
    if Swaps(s, e) then CopiesDiffer(s, key)
    else if e.StopAll? then false
    else Stray(s, key) && NoteOf(Step(s, e).round, key).Some?
  }

  lemma NoteIsObserved(s: System, key: PluginKey)
    requires NoteOf(s.round, key).Some?
    ensures Observes(s.round, key, NoteOf(s.round, key).value.generation, NoteOf(s.round, key).value.worker)
  {
  }

  lemma SwapStray(s: System, key: PluginKey)
    requires Sound(s) && Swaps(s, Swap)
    ensures Stray(SwapStep(s), key) <==> CopiesDiffer(s, key)
  {
    var note := NoteOf(s.round, key);
    if note.Some? && key in s.change.built {
      assert InProgress(s, key);
      NoteIsObserved(s, key);
      var w := s.change.built[key];
      if key in s.change.current {
        assert Stamped(s, key, s.change.current[key].generation, s.change.current[key].worker);
      }
      if w.generation == note.value.generation { assert w.worker.value !in StartedOf(s.change); }
    }
  }

  lemma LookKeepsEntry(s: System, key: PluginKey, health: Health, k: PluginKey)
    requires s.round.Turn? && key in s.round.left
    ensures var after := LookAt(s, key, health).m;
            && (k in after.workers <==> k in s.m.workers)
            && (k in s.m.workers ==> after.workers[k].generation == s.m.workers[k].generation
                                     && after.workers[k].worker == s.m.workers[k].worker)
  {
  }

  lemma LookKeepsNote(s: System, key: PluginKey, health: Health, k: PluginKey)
    requires s.round.Turn? && key in s.round.left
    ensures var after := NoteOf(LookAt(s, key, health).round, k); after.Some? ==> after == NoteOf(s.round, k)
  {
  }

  lemma LookStray(s: System, key: PluginKey, health: Health, k: PluginKey)
    requires s.round.Turn? && key in s.round.left
    ensures Stray(LookAt(s, key, health), k) <==> Stray(s, k) && NoteOf(LookAt(s, key, health).round, k).Some?
  {
    LookKeepsEntry(s, key, health, k);
    LookKeepsNote(s, key, health, k);
  }

  lemma RecordStray(m: Manager, key: PluginKey, generation: nat, now: nat, k: PluginKey)
    requires k != key
    ensures var after := RecordFailure(m, key, generation, now);
            (k in m.workers <==> k in after.workers) && (k in m.workers ==> after.workers[k] == m.workers[k])
  {
  }

  lemma FinishStray(m: Manager, key: PluginKey, generation: nat, offered: Option<nat>, now: nat, k: PluginKey)
    requires k != key
    ensures var after := FinishRestart(m, key, generation, offered, now);
            (k in m.workers <==> k in after.workers) && (k in m.workers ==> after.workers[k] == m.workers[k])
  {
  }

  lemma ReportStray(s: System, key: PluginKey)
    requires s.round.Reporting? && s.round.key !in s.round.left
    ensures var t := Step(s, Report);
            Stray(t, key) <==> Stray(s, key) && NoteOf(t.round, key).Some?
  {
    if key != s.round.key { RecordStray(s.m, s.round.key, s.round.generation, s.clock, key); }
  }

  lemma FinishedStray(s: System, offered: Option<nat>, key: PluginKey)
    requires s.round.Starting? && s.round.key !in s.round.left
    ensures var t := FinishStart(s, offered);
            Stray(t, key) <==> Stray(s, key) && NoteOf(t.round, key).Some?
  {
    if key != s.round.key { FinishStray(s.m, s.round.key, s.round.generation, offered, s.clock, key); }
  }

  lemma AsideStray(s: System, e: Event, key: PluginKey)
    requires Aside(e)
    ensures Stray(Step(s, e), key) <==> Stray(s, key) && NoteOf(Step(s, e).round, key).Some?
  {
  }

  lemma SnapshotStray(s: System, e: Event, key: PluginKey)
    requires e.BuildNext? || e.StopStarted? || e.StopReplaced?
    ensures Step(s, e).round == s.round && (Stray(Step(s, e), key) <==> Stray(s, key))
  {
    if e.BuildNext? && s.change.Constructing? && s.change.rest != [] { BuildCases(s, e.launcher); }
  }

  /** Exactly when a note goes astray, step by step; at first none is. */
  lemma StrayExact(s: System, e: Event, key: PluginKey)
    requires Sound(s)
    ensures Stray(Step(s, e), key) <==> NextStray(s, e, key)
  {
    if Aside(e) {
      AsideStray(s, e, key);
    } else if e.BuildNext? || e.StopStarted? || e.StopReplaced? {
      SnapshotStray(s, e, key);
    } else {
      match e {
        case Look(k, health) => if s.round.Turn? && k in s.round.left { LookStray(s, k, health, key); }
        case Report => if s.round.Reporting? { ReportStray(s, key); }
        case Finish(offered) => if s.round.Starting? { FinishedStray(s, offered, key); }
        case Swap => if Swaps(s, e) { SwapStray(s, key); }
        case StopAll =>
      }
    }
  }

  /** The step charges a failure to an entry that does not hold the process that failed, or does not wait for
      the restart that failed. */
  predicate Mischarges(s: System, e: Event) {
    || (e.Report? && s.round.Reporting? && Charges(s) && !Holds(s.m, s.round.key, s.round.handle))
    || (e == Finish(None) && s.round.Starting? && Charges(s) && s.m.workers[s.round.key].worker.Some?)
  }

  /** A failure is charged wrongly exactly if the round's note about the plugin has gone astray. */
  lemma MischargedIff(s: System, e: Event)
    requires Sound(s)
    ensures Mischarges(s, e) <==>
              ((e.Report? && s.round.Reporting?) || (e == Finish(None) && s.round.Starting?)) && Stray(s, s.round.key)
  {
    assert RoundOk(s);
  }

  /** As long as the note is not astray, a failure is charged exactly if the entry still holds the process. */
  lemma ChargedRightly(s: System)
    requires Sound(s) && s.round.Reporting? && !Stray(s, s.round.key)
    ensures Charges(s) <==> Holds(s.m, s.round.key, s.round.handle)
  {
    assert RoundOk(s);
    if Holds(s.m, s.round.key, s.round.handle) { HolderIs(s, s.round.key, s.round.handle); }
  }

  // ----- lost processes -----

  /** Alive, and neither an entry, nor the snapshot that launched it, nor the one that replaced it has it. */
  function Lost(s: System): set<Handle> {
    s.m.live - Handles(s.m.workers) - PendingOf(s.change) - Elements(StartedOf(s.change))
  }

  /** The next configuration is refused for what it says. */
  predicate Refuses(s: System) {
    && s.change.Constructing? && s.change.rest != []
    && var c := s.change.rest[0];
    KeyFor(c) in s.change.built || c.schemaVersion == 0 || c.requestedConcurrency == 0
  }

  lemma HeldInHandles(m: Manager, key: PluginKey, h: Handle)
    requires Holds(m, key, h)
    ensures h in Handles(m.workers)
  {
  }

  lemma NotedNotLost(s: System, key: PluginKey, h: Handle)
    requires Sound(s) && key in LeftOf(s.round) && LeftOf(s.round)[key].worker == Some(h)
    ensures h !in Lost(s)
  {
    var w := LeftOf(s.round)[key];
    assert Stamped(s, key, w.generation, w.worker) && Observes(s.round, key, w.generation, w.worker);
    if h in s.m.live {
      assert Located(s, h);
      if Holds(s.m, key, h) { HeldInHandles(s.m, key, h); }
    }
  }

  /** Shutting a process down loses nothing. */
  lemma StopLost(s: System, h: Handle)
    requires h !in Lost(s)
    ensures Lost(s.(m := Stop(s.m, h))) == Lost(s)
  {
  }

  lemma ClaimLost(m: Manager, key: PluginKey, generation: nat)
    requires CanRestart(m, key, generation)
    ensures Handles(BeginRestart(m, key, generation).workers) == Handles(m.workers)
  {
    SameHandles(m, BeginRestart(m, key, generation));
  }

  /** What the look leaves of the map and the processes. */
  lemma LookCases(s: System, key: PluginKey, health: Health)
    requires s.round.Turn? && key in s.round.left
    ensures var t := LookAt(s, key, health);
            && t.change == s.change
            && (if Stops(s, key, health) then t.m == Stop(s.m, s.round.left[key].worker.value)
                else t.m == s.m || (CanRestart(s.m, key, s.round.left[key].generation)
                                    && t.m == BeginRestart(s.m, key, s.round.left[key].generation)))
  {
  }

  lemma LookLost(s: System, key: PluginKey, health: Health)
    requires Sound(s) && s.round.Turn? && key in s.round.left
    ensures Lost(LookAt(s, key, health)) == Lost(s)
  {
    var entry, t := s.round.left[key], LookAt(s, key, health);
    LookCases(s, key, health);
    if Stops(s, key, health) {
      NotedNotLost(s, key, entry.worker.value);
      StopLost(s, entry.worker.value);
      assert Lost(t) == Lost(s.(m := t.m));
    } else {
      assert Handles(t.m.workers) == Handles(s.m.workers) by {
        if t.m != s.m { ClaimLost(s.m, key, entry.generation); }
      }
    }
  }

  lemma SameHandles(m: Manager, after: Manager)
    requires after.workers.Keys == m.workers.Keys
    requires forall k :: k in m.workers ==> after.workers[k].worker == m.workers[k].worker
    ensures Handles(after.workers) == Handles(m.workers)
  {
  }

  /** Giving up a dead process loses nothing. */
  lemma EmptiedLost(m: Manager, after: Manager, key: PluginKey)
    requires EntryReplaced(m, after, key) && after.live == m.live && after.workers[key].worker.None?
    requires m.workers[key].worker.Some? ==> m.workers[key].worker.value !in m.live
    ensures after.live - Handles(after.workers) == m.live - Handles(m.workers)
  {
    forall h | h in m.live ensures h in Handles(m.workers) <==> h in Handles(after.workers) {
      if h in Handles(m.workers) {
        var k :| k in m.workers && m.workers[k].worker == Some(h);
        assert k in after.workers && after.workers[k].worker == Some(h);
      }
      if h in Handles(after.workers) {
        var k :| k in after.workers && after.workers[k].worker == Some(h);
        assert k in m.workers && m.workers[k].worker == Some(h);
      }
    }
  }

  lemma RecordLost(s: System)
    requires Sound(s) && (s.round.Reporting? || s.round.Starting?)
    ensures var after := RecordFailure(s.m, s.round.key, s.round.generation, s.clock);
            after.live - Handles(after.workers) == s.m.live - Handles(s.m.workers)
  {
    if Charges(s) {
      var after := RecordFailure(s.m, s.round.key, s.round.generation, s.clock);
      RecordYields(s);
      if s.m.workers[s.round.key].worker.Some? { NothingHeld(s, s.round.key, s.m.workers[s.round.key].worker.value); }
      EmptiedLost(s.m, after, s.round.key);
    }
  }

  lemma InstalledLost(m: Manager, after: Manager, key: PluginKey)
    requires EntryReplaced(m, after, key) && after.live == m.live + {m.nextHandle} && m.nextHandle !in m.live
    requires m.workers[key].worker.None? && after.workers[key].worker == Some(m.nextHandle)
    ensures after.live - Handles(after.workers) == m.live - Handles(m.workers)
  {
    forall h | h in after.live && h != m.nextHandle ensures h in Handles(m.workers) <==> h in Handles(after.workers) {
      if h in Handles(m.workers) {
        var k :| k in m.workers && m.workers[k].worker == Some(h);
        assert k in after.workers && after.workers[k].worker == Some(h);
      }
      if h in Handles(after.workers) {
        var k :| k in after.workers && after.workers[k].worker == Some(h);
        assert k in m.workers && m.workers[k].worker == Some(h);
      }
    }
    assert after.workers[key].worker.value in Handles(after.workers);
  }

  lemma FinishLost(s: System, offered: Option<nat>)
    requires Sound(s) && s.round.Starting?
    ensures var after := FinishRestart(s.m, s.round.key, s.round.generation, offered, s.clock);
            after.live - Handles(after.workers) == s.m.live - Handles(s.m.workers)
  {
    assert s.m.nextHandle !in s.m.live;
    if offered.None? {
      RecordLost(s);
    } else if CanRestart(s.m, s.round.key, s.round.generation) {
      InstallEntry(s, offered.value);
      InstalledLost(s.m, FinishRestart(s.m, s.round.key, s.round.generation, offered, s.clock), s.round.key);
    }
  }

  lemma RefusedLost(s: System)
    requires Sound(s) && s.change.Constructing?
    ensures Lost(s.(change := Quiet)) == Lost(s) + Elements(s.change.started)
  {
    forall h | h in s.change.started ensures h in s.m.live && h !in Handles(s.m.workers) {
      assert h in StartedOf(s.change);
      StartedElsewhere(s, h);
    }
  }

  lemma RefusedIff(s: System, launcher: Launcher)
    requires s.change.Constructing? && s.change.rest != []
    ensures BuildStep(s, launcher).change.Quiet? <==> Refuses(s)
  {
  }

  lemma LaunchedLost(s: System, t: System, key: PluginKey, w: ManagedWorker)
    requires LaunchesNew(s, t, key, w)
    ensures Lost(t) == Lost(s) - {s.m.nextHandle}
  {
    assert Elements(t.change.started) == Elements(s.change.started) + {s.m.nextHandle};
  }

  lemma BuildLost(s: System, launcher: Launcher)
    requires Sound(s) && s.change.Constructing? && s.change.rest != []
    ensures Lost(BuildStep(s, launcher)) == if Refuses(s) then Lost(s) + Elements(s.change.started) else Lost(s)
  {
    var t := BuildStep(s, launcher);
    BuildCases(s, launcher);
    RefusedIff(s, launcher);
    if t.change.Quiet? {
      RefusedLost(s);
    } else if exists key, w :: LaunchesNew(s, t, key, w) {
      var key, w :| LaunchesNew(s, t, key, w);
      LaunchedLost(s, t, key, w);
      assert s.m.nextHandle !in s.m.live;
    }
  }

  lemma SwapLost(s: System)
    requires Sound(s) && Swaps(s, Swap)
    ensures Lost(SwapStep(s)) == Lost(s)
  {
    var t := SwapStep(s);
    forall h | h in s.m.live ensures h in Lost(t) <==> h in Lost(s) {
      if h in Handles(s.m.workers) {
        var key :| key in s.m.workers && s.m.workers[key].worker == Some(h);
        if key in s.change.built && s.change.built[key].worker == Some(h) { HeldInHandles(t.m, key, h); }
      } else if h in s.change.started {
        assert h in StartedOf(s.change);
        HeldInHandles(t.m, s.seen.issued[s.seen.launched[h]], h);
      } else if h in Handles(s.change.built) {
        var key :| key in s.change.built && s.change.built[key].worker == Some(h);
        assert InProgress(s, key);
        CopiedLive(s, key);
        HeldInHandles(s.m, key, h);
      }
    }
  }

  lemma ShutdownLost(s: System, e: Event)
    requires Sound(s) && (e.StopStarted? || e.StopReplaced?)
    ensures Lost(Step(s, e)) == Lost(s)
  {
    if e.StopStarted? && s.change.Aborting? && s.change.started != [] {
      var started := s.change.started;
      assert started == [started[0]] + started[1..];
      assert Elements(started) == {started[0]} + Elements(started[1..]);
    }
  }

  lemma AckHandles(m: Manager, ack: PauseAck)
    ensures Handles(AcknowledgePause(m, ack).workers) == Handles(m.workers) && AcknowledgePause(m, ack).live == m.live
  {
    SameHandles(m, AcknowledgePause(m, ack));
  }

  lemma AsideLost(s: System, e: Event)
    requires Aside(e)
    ensures Lost(Step(s, e)) == Lost(s)
  {
    if e.Acknowledge? {
      AckHandles(s.m, e.ack);
    } else {
      assert Step(s, e).m.workers == s.m.workers;
    }
  }

  /** In any interleaving a process is lost exactly when a snapshot is refused for what a configuration says after
      it has launched something, and then exactly what it has launched is. */
  lemma LostOnlyBySnapshots(s: System, e: Event)
    requires Sound(s)
    ensures Lost(Step(s, e)) == if e.BuildNext? && Refuses(s) then Lost(s) + Elements(s.change.started) else Lost(s)
    ensures e.BuildNext? && Refuses(s) ==> Lost(s) !! Elements(s.change.started)
  {
    if Aside(e) {
      AsideLost(s, e);
    } else if e.StopStarted? || e.StopReplaced? {
      ShutdownLost(s, e);
    } else {
      match e {
        case Look(key, health) => if s.round.Turn? && key in s.round.left { LookLost(s, key, health); }
        case Report => if s.round.Reporting? { RecordLost(s); }
        case Finish(offered) => if s.round.Starting? { FinishLost(s, offered); }
        case BuildNext(launcher) => if s.change.Constructing? && s.change.rest != [] { BuildLost(s, launcher); }
        case Swap => if Swaps(s, e) { SwapLost(s); }
        case StopAll => assert Handles(map[]) == {};
      }
    }
  }

  // ----- lost notices -----

  /** A pause that is recorded between the swap and the end of a snapshot loses its notice: the end of a snapshot
      keeps every pause reported exactly if none was. */
  lemma EndKeepsNoticesIff(s: System)
    requires ManagerRuns.NoticesOk(s.m) && s.change == Replacing({})
    ensures ManagerRuns.NoticesOk(Step(s, EndSnapshot).m) <==>
              forall key :: key in s.m.workers && s.m.workers[key].state.Paused? ==> s.m.workers[key].acknowledged
  {
  }
}
