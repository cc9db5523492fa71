/** An Agent that runs its health rounds, its snapshots and its shutdown one after the other, as its event loop
    does, sees none of what overlaps can do. */
module TakingTurns {
  import opened Basics
  import opened PluginManagers
  import opened Interleaving
  import opened InterleavingLaws
  import opened InterleavingRuns
  import opened Overlaps
  import opened SecondShutdowns
  import opened WrongCharges

  /** Rounds wait for the snapshot to end, snapshots for the round, the shutdown of everything for both. */
  predicate WaitsForTurn(s: System, e: Event) {
    && (e.BeginRound? ==> s.change.Quiet?) && (e.BeginSnapshot? ==> s.round.Idle?)
    && (e.StopAll? ==> s.round.Idle? && s.change.Quiet?)
  }

  ghost predicate TakeTurns(s: System, events: seq<Event>) {
    forall i :: 0 <= i < |events| ==> WaitsForTurn(Run(s, events[..i]), events[i])
  }

  /** The entries hold what they held when they were copied. */
  ghost predicate StillHeld(m: Manager, entries: map<PluginKey, ManagedWorker>) {
    forall key :: key in entries && entries[key].worker.Some? ==> Holds(m, key, entries[key].worker.value)
  }

  /** Both copies are up to date, no process was shut down twice, no entry holds a dead process but the one being
      reported, and the next failure will be charged where it belongs. */
  ghost predicate Undisturbed(s: System) {
    && (s.round.Idle? || s.change.Quiet?)
    && StillHeld(s.m, LeftOf(s.round)) && StillHeld(s.m, CurrentOf(s.change))
    && (s.round.Reporting? ==> Holds(s.m, s.round.key, s.round.handle))
    && DeadKeys(s) == (if s.round.Reporting? then {s.round.key} else {}) && Cold(s) == {}
    && (forall key :: !Stray(s, key)) && (forall h :: s.m.stopped[h] <= 1)
  }

  // ----- the copies -----

  lemma HeldBeside(m: Manager, after: Manager, key: PluginKey, entries: map<PluginKey, ManagedWorker>)
    requires StillHeld(m, entries) && key !in entries
    requires forall k :: k in m.workers && k != key ==>
              k in after.workers && after.workers[k].worker == m.workers[k].worker
    ensures StillHeld(after, entries)
  {
  }

  lemma LookHeld(s: System, key: PluginKey, health: Health)
    requires s.round.Turn? && key in s.round.left && StillHeld(s.m, s.round.left)
    ensures var t := LookAt(s, key, health);
            && StillHeld(t.m, LeftOf(t.round))
            && (t.round.Reporting? ==> Holds(t.m, t.round.key, t.round.handle))
  {
    HeldBeside(s.m, LookAt(s, key, health).m, key, s.round.left - {key});
  }

  lemma RecordHeld(m: Manager, key: PluginKey, generation: nat, now: nat, left: map<PluginKey, ManagedWorker>)
    requires StillHeld(m, left) && key !in left
    ensures StillHeld(RecordFailure(m, key, generation, now), left)
  {
    HeldBeside(m, RecordFailure(m, key, generation, now), key, left);
  }

  lemma FinishHeld(m: Manager, key: PluginKey, generation: nat, offered: Option<nat>, now: nat,
                   left: map<PluginKey, ManagedWorker>)
    requires StillHeld(m, left) && key !in left
    ensures StillHeld(FinishRestart(m, key, generation, offered, now), left)
  {
    var after := FinishRestart(m, key, generation, offered, now);
    assert forall k :: k in m.workers && k != key ==>
             k in after.workers && after.workers[k].worker == m.workers[k].worker;
    HeldBeside(m, after, key, left);
  }

  /** Steps that leave every entry its process. */
  predicate KeepsEntries(m: Manager, after: Manager) {
    forall key :: key in m.workers ==> key in after.workers && after.workers[key].worker == m.workers[key].worker
  }

  lemma SnapshotKeeps(s: System, e: Event)
    requires Aside(e) || e.BuildNext? || e.StopStarted? || e.StopReplaced?
    ensures KeepsEntries(s.m, Step(s, e).m)
  {
    if e.BuildNext? && s.change.Constructing? && s.change.rest != [] { BuildCases(s, e.launcher); }
  }

  lemma HeldStays(m: Manager, after: Manager, entries: map<PluginKey, ManagedWorker>)
    requires StillHeld(m, entries) && KeepsEntries(m, after)
    ensures StillHeld(after, entries)
  {
  }

  /** The round's copy and report hold. */
  ghost predicate RoundHeld(s: System) {
    StillHeld(s.m, LeftOf(s.round)) && (s.round.Reporting? ==> Holds(s.m, s.round.key, s.round.handle))
  }

  lemma LeftSnapshot(s: System, e: Event)
    requires RoundHeld(s) && (Aside(e) || e.BuildNext? || e.StopStarted? || e.StopReplaced?)
    ensures RoundHeld(Step(s, e))
  {
    SnapshotKeeps(s, e);
    HeldStays(s.m, Step(s, e).m, LeftOf(s.round));
  }

  lemma LeftRound(s: System, e: Event)
    requires Sound(s) && RoundHeld(s) && (e.Look? || e.Report? || e.Finish?)
    ensures RoundHeld(Step(s, e))
  {
    match e {
      case Look(key, health) => if s.round.Turn? && key in s.round.left { LookHeld(s, key, health); }
      case Report =>
        if s.round.Reporting? { RecordHeld(s.m, s.round.key, s.round.generation, s.clock, s.round.left); }
      case Finish(offered) =>
        if s.round.Starting? { FinishHeld(s.m, s.round.key, s.round.generation, offered, s.clock, s.round.left); }
    }
  }

  lemma LeftStep(s: System, e: Event)
    requires Sound(s) && Undisturbed(s) && WaitsForTurn(s, e)
    ensures RoundHeld(Step(s, e))
  {
    if e.Look? || e.Report? || e.Finish? {
      LeftRound(s, e);
    } else if !e.Swap? && !e.StopAll? {
      LeftSnapshot(s, e);
    }
  }

  lemma CopyKept(s: System, e: Event)
    requires Aside(e) || e.BuildNext? || e.StopStarted? || e.StopReplaced?
    ensures CurrentOf(Step(s, e).change) == CurrentOf(s.change) || CurrentOf(Step(s, e).change) == map[]
            || (e.BeginSnapshot? && CurrentOf(Step(s, e).change) == s.m.workers)
  {
    if e.BuildNext? && s.change.Constructing? && s.change.rest != [] { BuildCases(s, e.launcher); }
  }

  lemma CopyStep(s: System, e: Event)
    requires Undisturbed(s) && WaitsForTurn(s, e)
    ensures StillHeld(Step(s, e).m, CurrentOf(Step(s, e).change))
  {
    if Aside(e) || e.BuildNext? || e.StopStarted? || e.StopReplaced? {
      SnapshotKeeps(s, e);
      CopyKept(s, e);
      HeldStays(s.m, Step(s, e).m, CurrentOf(s.change));
      HeldStays(s.m, Step(s, e).m, s.m.workers);
    } else if !s.change.Quiet? {
      assert s.round.Idle?;
    }
  }

  // ----- and so nothing goes wrong -----

  lemma TurnsStay(s: System, e: Event)
    requires (s.round.Idle? || s.change.Quiet?) && WaitsForTurn(s, e)
    ensures Step(s, e).round.Idle? || Step(s, e).change.Quiet?
  {
  }

  /** The entry that may hold a dead process: the one being reported. */
  function Reported(round: Round): set<PluginKey> {
    if round.Reporting? then {round.key} else {}
  }

  lemma DeadLook(s: System, key: PluginKey, health: Health)
    requires Undisturbed(s)
    ensures NextDead(s, Look(key, health)) == Reported(Step(s, Look(key, health)).round)
  {
    if Stops(s, key, health) {
      assert Holds(s.m, key, s.round.left[key].worker.value);
    }
  }

  lemma DeadReport(s: System)
    requires Sound(s) && Undisturbed(s)
    ensures NextDead(s, Report) == Reported(Step(s, Report).round)
  {
    if s.round.Reporting? { ChargedRightly(s); }
  }

  lemma DeadFinish(s: System, offered: Option<nat>)
    requires Undisturbed(s)
    ensures NextDead(s, Finish(offered)) == Reported(Step(s, Finish(offered)).round)
  {
  }

  lemma DeadSwap(s: System)
    requires Undisturbed(s)
    ensures NextDead(s, Swap) == Reported(Step(s, Swap).round)
  {
    if Swaps(s, Swap) { assert s.round.Idle?; }
  }

  lemma DeadOther(s: System, e: Event)
    requires Undisturbed(s) && WaitsForTurn(s, e) && !e.Look? && !e.Report? && !e.Finish? && !e.Swap?
    ensures NextDead(s, e) == Reported(Step(s, e).round)
  {
  }

  lemma DeadStep(s: System, e: Event)
    requires Sound(s) && Undisturbed(s) && WaitsForTurn(s, e)
    ensures var t := Step(s, e);
            DeadKeys(t) == if t.round.Reporting? then {t.round.key} else {}
  {
    DeadEntriesExact(s, e);
    match e {
      case Look(key, health) => DeadLook(s, key, health);
      case Report => DeadReport(s);
      case Finish(offered) => DeadFinish(s, offered);
      case Swap => DeadSwap(s);
      case _ => DeadOther(s, e);
    }
  }

  lemma ColdStep(s: System, e: Event)
    requires Sound(s) && Undisturbed(s)
    ensures Cold(Step(s, e)) == {}
  {
    ColdExact(s, e);
    if Swaps(s, e) { assert DeadKeys(s) == {} && TakenDead(s) == {}; }
  }

  lemma StrayStep(s: System, e: Event, key: PluginKey)
    requires Sound(s) && Undisturbed(s)
    ensures !Stray(Step(s, e), key)
  {
    StrayExact(s, e, key);
  }

  lemma NoneAgain(s: System, e: Event, h: Handle)
    requires Undisturbed(s) && WaitsForTurn(s, e)
    ensures !ShutsAgain(s, e, h)
  {
  }

  lemma FinishOnce(m: Manager, key: PluginKey, generation: nat, offered: Option<nat>, now: nat, h: Handle)
    ensures FinishRestart(m, key, generation, offered, now).stopped[h] <= m.stopped[h] + 1
  {
  }

  /** Every step shuts a process down at most once. */
  lemma OnceAStep(s: System, e: Event, h: Handle)
    ensures Step(s, e).m.stopped[h] <= s.m.stopped[h] + 1
  {
    if e.Finish? {
      if s.round.Starting? { FinishOnce(s.m, s.round.key, s.round.generation, e.offered, s.clock, h); }
    } else if e.BuildNext? {
      if s.change.Constructing? && s.change.rest != [] { BuildCases(s, e.launcher); }
    } else if e.StopAll? {
      assert multiset(Handles(s.m.workers))[h] <= 1;
    }
  }

  lemma UndisturbedStep(s: System, e: Event)
    requires Sound(s) && Undisturbed(s) && WaitsForTurn(s, e)
    ensures Undisturbed(Step(s, e))
  {
    TurnsStay(s, e);
    LeftStep(s, e);
    CopyStep(s, e);
    DeadStep(s, e);
    ColdStep(s, e);
    forall key ensures !Stray(Step(s, e), key) { StrayStep(s, e, key); }
    forall h ensures Step(s, e).m.stopped[h] <= 1 {
      NoneAgain(s, e, h);
      ShutsAgainIff(s, e, h);
      OnceAStep(s, e, h);
    }
  }

  /** In every state of a run in which they take turns: no process was shut down twice, no entry holds a dead
      process but the one being reported, and no failure is charged to the wrong entry. */
  lemma {:induction false} OncePerProcess(limits: RuntimeLimits, events: seq<Event>)
    requires TakeTurns(Initial(limits), events)
    ensures Undisturbed(Run(Initial(limits), events))
    decreases |events|
  {
    if events != [] {
      var n := |events| - 1;
      assert forall i :: 0 <= i < n ==> events[..n][..i] == events[..i] && events[..n][i] == events[i];
      OncePerProcess(limits, events[..n]);
      SoundInEveryState(limits, events[..n]);
      assert WaitsForTurn(Run(Initial(limits), events[..n]), events[n]);
      UndisturbedStep(Run(Initial(limits), events[..n]), events[n]);
    }
  }
}
