/** Exactly when a process is shut down that was shut down before, in any interleaving, and that none is if
    rounds and snapshots take turns. */
module SecondShutdowns {
  import opened Basics
  import opened PluginManagers
  import opened Interleaving
  import opened InterleavingLaws
  import opened InterleavingRuns
  import opened Overlaps

  /** Replaced by the snapshot, not yet shut down by it, and shut down all the same. */
  function Cold(s: System): set<Handle> {
    set h | h in PendingOf(s.change) && h !in s.m.live
  }

  /** The processes the swap takes out of the map dead. */
  function TakenDead(s: System): set<Handle> {
    if !s.change.Constructing? then {}
    else
      set key | key in DeadKeys(s) && key in s.m.workers && s.m.workers[key].worker.Some?
                && s.m.workers[key].worker.value in Replaced(s.m.workers, s.change.built)
        :: s.m.workers[key].worker.value
  }

  /** From those before the step: a look adds the process it shuts down, if it waits to be; a swap starts with the
      processes that were dead in the map. */
  function NextCold(s: System, e: Event): set<Handle> {
    match e
    case Look(key, health) =>
      if Stops(s, key, health) && s.round.left[key].worker.value in PendingOf(s.change) then
        Cold(s) + {s.round.left[key].worker.value}
      else Cold(s)
    case Swap => if Swaps(s, e) then TakenDead(s) else Cold(s)
    case StopReplaced(h) => Cold(s) - {h}
    case _ => Cold(s)
  }

  lemma SwapCold(s: System)
    requires Swaps(s, Swap)
    ensures Cold(SwapStep(s)) == TakenDead(s)
  {
    var t := SwapStep(s);
    forall h ensures h in Cold(t) <==> h in TakenDead(s) {
      if h in Cold(t) {
        var key :| key in s.m.workers && s.m.workers[key].worker == Some(h);
        assert key in DeadKeys(s);
      }
    }
  }

  lemma PendingBelow(s: System, h: Handle)
    requires Sound(s) && h in PendingOf(s.change)
    ensures h < s.m.nextHandle
  {
    assert PendingOk(s);
  }

  lemma StopAllCold(s: System)
    requires Sound(s)
    ensures Cold(Step(s, StopAll)) == Cold(s)
  {
    forall h | h in PendingOf(s.change) ensures h !in Handles(s.m.workers) { PendingElsewhere(s, h); }
  }

  lemma FinishCold(s: System, offered: Option<nat>)
    requires Sound(s) && s.round.Starting?
    ensures Cold(FinishStart(s, offered)) == Cold(s)
  {
    forall h | h in PendingOf(s.change) ensures h < s.m.nextHandle { PendingBelow(s, h); }
    assert s.m.nextHandle !in s.m.live;
  }

  lemma AsideCold(s: System, e: Event)
    requires Aside(e)
    ensures Cold(Step(s, e)) == Cold(s)
  {
  }

  lemma LookCold(s: System, key: PluginKey, health: Health)
    requires s.round.Turn? && key in s.round.left
    ensures Cold(LookAt(s, key, health)) == NextCold(s, Look(key, health))
  {
  }

  lemma BuildCold(s: System, launcher: Launcher)
    requires s.change.Constructing? && s.change.rest != []
    ensures Cold(BuildStep(s, launcher)) == Cold(s) == {}
  {
    BuildCases(s, launcher);
  }

  lemma ShutdownCold(s: System, e: Event)
    requires e.StopStarted? || e.StopReplaced?
    ensures Cold(Step(s, e)) == NextCold(s, e)
  {
  }

  /** Step by step, which of the replaced processes were shut down by somebody else. */
  lemma ColdExact(s: System, e: Event)
    requires Sound(s)
    ensures Cold(Step(s, e)) == NextCold(s, e)
  {
    if Aside(e) {
      AsideCold(s, e);
    } else if e.StopStarted? || e.StopReplaced? {
      ShutdownCold(s, e);
    } else {
      match e {
        case Look(key, health) => if s.round.Turn? && key in s.round.left { LookCold(s, key, health); }
        case Report => if s.round.Reporting? { RecordCold(s); }
        case Finish(offered) => if s.round.Starting? { FinishCold(s, offered); }
        case BuildNext(launcher) => if s.change.Constructing? && s.change.rest != [] { BuildCold(s, launcher); }
        case Swap => if Swaps(s, e) { SwapCold(s); }
        case StopAll => StopAllCold(s);
      }
    }
  }

  lemma RecordCold(s: System)
    requires s.round.Reporting?
    ensures Cold(Step(s, Report)) == Cold(s)
  {
  }

  /** The process of a copied entry is alive exactly if the entry still holds it, alive, or it waits for the
      snapshot to shut it down and nobody has. */
  lemma NotedLive(s: System, key: PluginKey)
    requires Sound(s) && key in LeftOf(s.round) && LeftOf(s.round)[key].worker.Some?
    ensures var h := LeftOf(s.round)[key].worker.value;
            h in s.m.live <==>
              || (Holds(s.m, key, h) && key !in DeadKeys(s))
              || (h in PendingOf(s.change) && h !in Cold(s))
  {
    var w := LeftOf(s.round)[key];
    var h := w.worker.value;
    assert Stamped(s, key, w.generation, w.worker);
    assert Observes(s.round, key, w.generation, w.worker);
    if h in s.m.live { assert Located(s, h); }
  }

  /** The step shuts down a process that was shut down before. */
  ghost predicate ShutsAgain(s: System, e: Event, h: Handle) {
    match e
    case Look(key, health) =>
      && Stops(s, key, health) && s.round.left[key].worker == Some(h)
      && !(Holds(s.m, key, h) && key !in DeadKeys(s)) && !(h in PendingOf(s.change) && h !in Cold(s))
    case StopReplaced(other) => other == h && h in Cold(s)
    case StopAll => exists key :: key in DeadKeys(s) && Holds(s.m, key, h)
    case _ => false
  }

  lemma LookAgain(s: System, key: PluginKey, health: Health, h: Handle)
    requires Sound(s) && s.round.Turn? && key in s.round.left
    ensures h in s.m.stopped && LookAt(s, key, health).m.stopped[h] > s.m.stopped[h]
            <==> ShutsAgain(s, Look(key, health), h)
  {
    if Stops(s, key, health) && s.round.left[key].worker == Some(h) {
      NotedLive(s, key);
      ObservedIsShared(s, key, h);
      assert Books(s);
    }
  }

  lemma StopAllAgain(s: System, h: Handle)
    requires Sound(s)
    ensures h in s.m.stopped && ShutdownAll(s.m).stopped[h] > s.m.stopped[h] <==> ShutsAgain(s, StopAll, h)
  {
    MapBelow(s);
    assert Books(s);
    if h in Handles(s.m.workers) && h in s.m.stopped {
      var key :| key in s.m.workers && s.m.workers[key].worker == Some(h);
      assert key in DeadKeys(s) && Holds(s.m, key, h);
    }
    forall key | key in DeadKeys(s) && Holds(s.m, key, h) ensures h in Handles(s.m.workers) && h in s.m.stopped {}
  }

  lemma ReplacedAgain(s: System, h: Handle, other: Handle)
    requires Sound(s) && s.change.Replacing? && other in s.change.replaced
    ensures h in s.m.stopped && Stop(s.m, other).stopped[h] > s.m.stopped[h] <==> ShutsAgain(s, StopReplaced(other), h)
  {
    if other == h {
      PendingBelow(s, h);
      assert Books(s);
    }
  }

  lemma FinishAgain(m: Manager, key: PluginKey, generation: nat, offered: Option<nat>, now: nat, h: Handle)
    requires h < m.nextHandle
    ensures FinishRestart(m, key, generation, offered, now).stopped[h] == m.stopped[h]
  {
  }

  lemma AbortAgain(s: System, h: Handle)
    requires Sound(s) && h in s.m.stopped
    ensures Step(s, StopStarted).m.stopped[h] == s.m.stopped[h]
  {
    if s.change.Aborting? && s.change.started != [] { assert s.change.started[0] in StartedOf(s.change); }
  }

  lemma OthersAgain(s: System, e: Event, h: Handle)
    requires Sound(s) && h in s.m.stopped && !e.Look? && !e.StopReplaced? && !e.StopAll?
    ensures Step(s, e).m.stopped[h] == s.m.stopped[h]
  {
    if e.StopStarted? {
      AbortAgain(s, h);
    } else if e.Finish? {
      assert h < s.m.nextHandle;
      if s.round.Starting? { FinishAgain(s.m, s.round.key, s.round.generation, e.offered, s.clock, h); }
    } else if e.BuildNext? {
      if s.change.Constructing? && s.change.rest != [] { BuildCases(s, e.launcher); }
    }
  }

  /** In any interleaving, exactly when a process that was shut down is shut down again. */
  lemma ShutsAgainIff(s: System, e: Event, h: Handle)
    requires Sound(s)
    ensures h in s.m.stopped && Step(s, e).m.stopped[h] > s.m.stopped[h] <==> ShutsAgain(s, e, h)
  {
    if e.Look? {
      if s.round.Turn? && e.key in s.round.left { LookAgain(s, e.key, e.health, h); }
    } else if e.StopAll? {
      StopAllAgain(s, h);
    } else if e.StopReplaced? {
      if s.change.Replacing? && e.handle in s.change.replaced { ReplacedAgain(s, h, e.handle); }
    } else if h in s.m.stopped {
      OthersAgain(s, e, h);
    }
  }
}
