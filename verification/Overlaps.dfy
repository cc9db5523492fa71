/** What goes wrong when a health round and a snapshot overlap, and exactly when: an entry that runs holds a dead
    process, a process is shut down again, a failure is charged to an entry that holds another process, a
    process is lost, a notice is lost. */
module Overlaps {
  import opened Basics
  import opened PluginManagers
  import opened ManagerLaws
  import opened Interleaving
  import opened InterleavingLaws
  import opened InterleavingRuns

  // ----- entries that hold a dead process -----

  /** The entries whose process was shut down. */
  function DeadIn(m: Manager): set<PluginKey> {
    set key | key in m.workers && m.workers[key].worker.Some? && m.workers[key].worker.value !in m.live
  }

  function DeadKeys(s: System): set<PluginKey> {
    DeadIn(s.m)
  }

  /** This look shuts the process of its copied entry down. */
  predicate Stops(s: System, key: PluginKey, health: Health) {
    s.round.Turn? && key in s.round.left && s.round.left[key].worker.Some? && Dead(health)
  }

  /** The round's failure is charged to the entry: it bears the generation the round has noted. */
  predicate Charges(s: System) {
    && (s.round.Reporting? || s.round.Starting?)
    && s.round.key in s.m.workers && s.m.workers[s.round.key].generation == s.round.generation
  }

  predicate Swaps(s: System, e: Event) {
    e.Swap? && s.change.Constructing? && s.change.rest == []
  }

  /** The snapshot puts this process, taken from its copy, into the map. */
  predicate PutsBack(s: System, key: PluginKey) {
    && s.change.Constructing? && key in s.change.built && key in s.change.current
    && s.change.built[key].worker.Some? && s.change.built[key].worker == s.change.current[key].worker
  }

  /** The entries with a dead process after a step, from those before it: a look adds its entry if that still holds
      the process; a report takes it out; a swap puts back a process that the entry has given up since the copy,
      or that was dead in it already. */
  function NextDead(s: System, e: Event): set<PluginKey> {
    match e
    case Look(key, health) =>
      if Stops(s, key, health) && Holds(s.m, key, s.round.left[key].worker.value) then DeadKeys(s) + {key}
      else DeadKeys(s)
    case Report => if s.round.Reporting? && Charges(s) then DeadKeys(s) - {s.round.key} else DeadKeys(s)
    case Finish(offered) =>
      if s.round.Starting? && Charges(s) && offered.None? then DeadKeys(s) - {s.round.key} else DeadKeys(s)
    case Swap =>
      if Swaps(s, e) then
        set key | key in s.change.built && PutsBack(s, key)
                  && (!Holds(s.m, key, s.change.built[key].worker.value) || key in DeadKeys(s))
      else DeadKeys(s)
    case StopAll => {}
    case _ => DeadKeys(s)
  }

  /** A process is held by no other entry than the one it was launched for. */
  lemma HolderIs(s: System, key: PluginKey, h: Handle)
    requires AllStamped(s, s.m.workers) && Holds(s.m, key, h)
    ensures h in s.seen.launched && s.seen.launched[h] in s.seen.issued && s.seen.issued[s.seen.launched[h]] == key
    ensures s.seen.launched[h] == s.m.workers[key].generation
  {
    assert Stamped(s, key, s.m.workers[key].generation, Some(h));
  }

  /** Shutting down a process that no entry but this one can hold. */
  lemma StopDead(m: Manager, h: Handle, key: PluginKey)
    requires forall k :: k in m.workers && k != key ==> m.workers[k].worker != Some(h)
    ensures DeadIn(Stop(m, h)) == if Holds(m, key, h) then DeadIn(m) + {key} else DeadIn(m)
  {
  }

  lemma StopElsewhere(m: Manager, h: Handle)
    requires forall key :: key in m.workers ==> m.workers[key].worker != Some(h)
    ensures DeadIn(Stop(m, h)) == DeadIn(m)
  {
  }

  lemma EmptiedDead(m: Manager, after: Manager, key: PluginKey)
    requires EntryReplaced(m, after, key) && after.live == m.live && after.workers[key].worker.None?
    ensures DeadIn(after) == DeadIn(m) - {key}
  {
  }

  lemma InstalledDead(m: Manager, after: Manager, key: PluginKey)
    requires EntryReplaced(m, after, key) && after.live == m.live + {m.nextHandle} && m.workers[key].worker.None?
    requires after.workers[key].worker == Some(m.nextHandle)
    requires forall k :: k in m.workers && m.workers[k].worker.Some? ==> m.workers[k].worker.value < m.nextHandle
    ensures DeadIn(after) == DeadIn(m)
  {
  }

  lemma GrownDead(m: Manager, after: Manager)
    requires after.workers == m.workers && m.live <= after.live
    requires forall h :: h in after.live ==> h in m.live || h >= m.nextHandle
    requires forall k :: k in m.workers && m.workers[k].worker.Some? ==> m.workers[k].worker.value < m.nextHandle
    ensures DeadIn(after) == DeadIn(m)
  {
  }

  lemma NotedElsewhere(s: System, key: PluginKey, h: Handle)
    requires Sound(s) && key in LeftOf(s.round) && LeftOf(s.round)[key].worker == Some(h)
    ensures forall k :: k in s.m.workers && k != key ==> s.m.workers[k].worker != Some(h)
  {
    assert Stamped(s, key, LeftOf(s.round)[key].generation, Some(h));
    forall k | k in s.m.workers && k != key ensures s.m.workers[k].worker != Some(h) {
      assert Stamped(s, k, s.m.workers[k].generation, s.m.workers[k].worker);
    }
  }

  lemma ClaimDead(m: Manager, key: PluginKey, generation: nat)
    requires CanRestart(m, key, generation)
    ensures DeadIn(BeginRestart(m, key, generation)) == DeadIn(m)
  {
  }

  lemma LookDead(s: System, key: PluginKey, health: Health)
    requires Sound(s) && s.round.Turn? && key in s.round.left
    ensures DeadKeys(LookAt(s, key, health)) == NextDead(s, Look(key, health))
  {
    var entry := s.round.left[key];
    if Stops(s, key, health) {
      NotedElsewhere(s, key, entry.worker.value);
      StopDead(s.m, entry.worker.value, key);
    } else if Claims(s, key, entry) {
      ClaimDead(s.m, key, entry.generation);
    }
  }

  lemma RecordDead(s: System)
    requires Sound(s) && (s.round.Reporting? || s.round.Starting?)
    ensures DeadIn(RecordFailure(s.m, s.round.key, s.round.generation, s.clock))
            == if Charges(s) then DeadKeys(s) - {s.round.key} else DeadKeys(s)
  {
    if Charges(s) {
      var after := RecordFailure(s.m, s.round.key, s.round.generation, s.clock);
      assert EntryReplaced(s.m, after, s.round.key) && after.live == s.m.live by { RecordYields(s); }
      assert after.workers[s.round.key].worker.None?;
      EmptiedDead(s.m, after, s.round.key);
    }
  }

  lemma InstallDead(s: System, effective: nat)
    requires Sound(s) && s.round.Starting? && CanRestart(s.m, s.round.key, s.round.generation)
    ensures DeadIn(FinishRestart(s.m, s.round.key, s.round.generation, Some(effective), s.clock)) == DeadKeys(s)
  {
    MapBelow(s);
    InstallEntry(s, effective);
    InstalledDead(s.m, FinishRestart(s.m, s.round.key, s.round.generation, Some(effective), s.clock), s.round.key);
  }

  lemma DiscardDead(m: Manager, key: PluginKey, generation: nat, effective: nat, now: nat)
    requires !CanRestart(m, key, generation) && m.nextHandle !in m.live
    ensures DeadIn(FinishRestart(m, key, generation, Some(effective), now)) == DeadIn(m)
  {
    assert FinishRestart(m, key, generation, Some(effective), now).live == m.live;
  }

  lemma FinishDead(s: System, offered: Option<nat>)
    requires Sound(s) && s.round.Starting?
    ensures DeadIn(FinishRestart(s.m, s.round.key, s.round.generation, offered, s.clock))
            == NextDead(s, Finish(offered))
  {
    if offered.None? {
      RecordDead(s);
    } else if CanRestart(s.m, s.round.key, s.round.generation) {
      InstallDead(s, offered.value);
    } else {
      assert s.m.nextHandle !in s.m.live;
      DiscardDead(s.m, s.round.key, s.round.generation, offered.value, s.clock);
    }
  }

  /** Entries hold processes that were launched. */
  lemma MapBelow(s: System)
    requires Books(s) && AllStamped(s, s.m.workers)
    ensures forall key :: key in s.m.workers && s.m.workers[key].worker.Some? ==>
              s.m.workers[key].worker.value < s.m.nextHandle
  {
    forall key | key in s.m.workers && s.m.workers[key].worker.Some?
      ensures s.m.workers[key].worker.value < s.m.nextHandle
    {
      HolderIs(s, key, s.m.workers[key].worker.value);
    }
  }

  /** A process taken from the copy is alive exactly if the entry still holds it, alive. */
  lemma CopiedLive(s: System, key: PluginKey)
    requires Sound(s) && PutsBack(s, key)
    ensures var h := s.change.built[key].worker.value;
            h in s.m.live <==> Holds(s.m, key, h) && key !in DeadKeys(s)
  {
    var h := s.change.built[key].worker.value;
    assert Stamped(s, key, s.change.current[key].generation, Some(h));
    if h in s.m.live {
      assert Located(s, h);
      assert Named(s.change.current, s.seen.launched[h]);
      assert StartedOk(s);
    }
  }

  lemma SwapDead(s: System)
    requires Sound(s) && Swaps(s, Swap)
    ensures DeadKeys(SwapStep(s)) == NextDead(s, Swap)
  {
    var t := SwapStep(s);
    forall key | key in s.change.built ensures key in DeadKeys(t) <==> key in NextDead(s, Swap) {
      assert InProgress(s, key);
      if PutsBack(s, key) {
        CopiedLive(s, key);
      } else {
        assert s.change.built[key].worker.value in StartedOf(s.change);
      }
    }
    assert forall key :: key in NextDead(s, Swap) ==> key in s.change.built;
  }

  lemma StartedElsewhere(s: System, h: Handle)
    requires Sound(s) && h in StartedOf(s.change)
    ensures forall key :: key in s.m.workers ==> s.m.workers[key].worker != Some(h)
  {
    forall key | key in s.m.workers ensures s.m.workers[key].worker != Some(h) {
      assert Stamped(s, key, s.m.workers[key].generation, s.m.workers[key].worker);
      assert Named(s.m.workers, s.m.workers[key].generation);
    }
  }

  lemma PendingElsewhere(s: System, h: Handle)
    requires Sound(s) && h in PendingOf(s.change)
    ensures forall key :: key in s.m.workers ==> s.m.workers[key].worker != Some(h)
  {
    forall key | key in s.m.workers ensures s.m.workers[key].worker != Some(h) {
      assert Stamped(s, key, s.m.workers[key].generation, s.m.workers[key].worker);
      assert PendingOk(s);
    }
  }

  lemma BuildDead(s: System, launcher: Launcher)
    requires Sound(s) && s.change.Constructing? && s.change.rest != []
    ensures DeadKeys(BuildStep(s, launcher)) == DeadKeys(s)
  {
    BuildCases(s, launcher);
    MapBelow(s);
    GrownDead(s.m, BuildStep(s, launcher).m);
  }

  /** Steps that concern neither processes nor the map. */
  predicate Aside(e: Event) {
    e.Pass? || e.BeginRound? || e.EndRound? || e.BeginSnapshot? || e.EndSnapshot? || e.Acknowledge?
  }

  lemma AsideDead(s: System, e: Event)
    requires Aside(e)
    ensures DeadKeys(Step(s, e)) == DeadKeys(s)
  {
  }

  lemma ShutdownDead(s: System, e: Event)
    requires Sound(s) && (e.StopStarted? || e.StopReplaced?)
    ensures DeadKeys(Step(s, e)) == DeadKeys(s)
  {
    if e.StopStarted? && s.change.Aborting? && s.change.started != [] {
      StartedElsewhere(s, s.change.started[0]);
      StopElsewhere(s.m, s.change.started[0]);
    }
    if e.StopReplaced? && s.change.Replacing? && e.handle in s.change.replaced {
      PendingElsewhere(s, e.handle);
      StopElsewhere(s.m, e.handle);
    }
  }

  /** Exactly when an entry holds a dead process, step by step; at first none does. */
  lemma DeadEntriesExact(s: System, e: Event)
    requires Sound(s)
    ensures DeadKeys(Step(s, e)) == NextDead(s, e)
  {
    if Aside(e) {
      AsideDead(s, e);
    } else if e.StopStarted? || e.StopReplaced? {
      ShutdownDead(s, e);
    } else {
      match e {
        case Look(key, health) => if s.round.Turn? && key in s.round.left { LookDead(s, key, health); }
        case Report => if s.round.Reporting? { RecordDead(s); }
        case Finish(offered) => if s.round.Starting? { FinishDead(s, offered); }
        case BuildNext(launcher) => if s.change.Constructing? && s.change.rest != [] { BuildDead(s, launcher); }
        case Swap => if Swaps(s, e) { SwapDead(s); }
        case StopAll =>
      }
    }
  }
}
