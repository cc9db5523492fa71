/** A Worker runs with the configuration its entry shows. In every interleaving of health rounds and snapshots, the
    process an entry holds was launched with that entry's configuration, schema version and concurrency. */
module LaunchRecords {
  import opened Basics
  import opened PluginManagers
  import opened Interleaving
  import opened InterleavingLaws

  /** The configuration a plugin's entry shows, field by field. */
  ghost predicate Shows(key: PluginKey, w: ManagedWorker, c: RuntimeConfig) {
    && c.pluginId == key.0 && c.version == key.1
    && c.config == w.config && c.schemaVersion == w.runtimeConfigVersion
    && c.requestedConcurrency == w.requestedConcurrency
  }

  /** Its generation was issued for what it shows, and its process was launched with that. */
  ghost predicate OnRecord(s: System, key: PluginKey, w: ManagedWorker) {
    && w.generation in s.seen.asked && Shows(key, w, s.seen.asked[w.generation])
    && (w.worker.Some? ==> w.worker.value in s.seen.given && Shows(key, w, s.seen.given[w.worker.value]))
  }

  ghost predicate AllOnRecord(s: System, entries: map<PluginKey, ManagedWorker>) {
    forall key :: key in entries ==> OnRecord(s, key, entries[key])
  }

  /** The map, every copy of it and what is under construction are on record; so is the restart under way. */
  ghost predicate Recorded(s: System) {
    && AllOnRecord(s, s.m.workers) && AllOnRecord(s, LeftOf(s.round))
    && AllOnRecord(s, CurrentOf(s.change)) && AllOnRecord(s, BuiltOf(s.change))
    && (s.round.Starting? ==> s.round.generation in s.seen.asked && s.seen.asked[s.round.generation] == s.round.config
                              && KeyFor(s.round.config) == s.round.key)
    && (forall g :: g in s.seen.asked ==> g < s.m.nextGeneration)
    && (forall h :: h in s.seen.given ==> h < s.m.nextHandle)
  }

  /** Records only grow. */
  ghost predicate Adds(s: System, t: System) {
    && (forall g :: g in s.seen.asked ==> g in t.seen.asked && t.seen.asked[g] == s.seen.asked[g])
    && (forall h :: h in s.seen.given ==> h in t.seen.given && t.seen.given[h] == s.seen.given[h])
  }

  lemma RecordStays(s: System, t: System, entries: map<PluginKey, ManagedWorker>)
    requires Adds(s, t) && AllOnRecord(s, entries)
    ensures AllOnRecord(t, entries)
  {
    forall key | key in entries ensures OnRecord(t, key, entries[key]) { assert OnRecord(s, key, entries[key]); }
  }

  /** An entry that shows the same under the same generation, and holds the same process or none. */
  ghost predicate Alike(w: ManagedWorker, after: ManagedWorker) {
    && after.config == w.config && after.runtimeConfigVersion == w.runtimeConfigVersion
    && after.requestedConcurrency == w.requestedConcurrency && after.generation == w.generation
    && (after.worker.Some? ==> after.worker == w.worker)
  }

  /** Nothing but entries that stay alike has changed. */
  lemma AlikeRecorded(s: System, t: System)
    requires Recorded(s) && t.seen.asked == s.seen.asked && t.seen.given == s.seen.given && t.change == s.change
    requires t.m.nextGeneration >= s.m.nextGeneration && t.m.nextHandle >= s.m.nextHandle
    requires forall key :: key in t.m.workers ==> key in s.m.workers && Alike(s.m.workers[key], t.m.workers[key])
    requires AllOnRecord(s, LeftOf(t.round))
    requires t.round.Starting? ==>
               && t.round.generation in s.seen.asked && s.seen.asked[t.round.generation] == t.round.config
               && KeyFor(t.round.config) == t.round.key
    ensures Recorded(t)
  {
    forall key | key in t.m.workers ensures OnRecord(t, key, t.m.workers[key]) {
      assert OnRecord(s, key, s.m.workers[key]);
    }
    RecordStays(s, t, LeftOf(t.round));
    RecordStays(s, t, CurrentOf(t.change));
    RecordStays(s, t, BuiltOf(t.change));
  }

  lemma FailureAlike(m: Manager, key: PluginKey, generation: nat, now: nat)
    ensures var after := RecordFailure(m, key, generation, now);
            && after.nextGeneration == m.nextGeneration && after.nextHandle == m.nextHandle
            && forall k :: k in after.workers ==> k in m.workers && Alike(m.workers[k], after.workers[k])
  {
  }

  /** A round that goes on with fewer copied entries. */
  lemma RoundRecorded(s: System, round: Round)
    requires Recorded(s) && !s.round.Idle? && !round.Starting?
    requires forall key :: key in LeftOf(round) ==> key in s.round.left && LeftOf(round)[key] == s.round.left[key]
    ensures Recorded(s.(round := round))
  {
    forall key | key in LeftOf(round) ensures OnRecord(s, key, LeftOf(round)[key]) {
      assert OnRecord(s, key, s.round.left[key]);
    }
    AlikeRecorded(s, s.(round := round));
  }

  lemma StopRecorded(s: System, h: Handle)
    requires Recorded(s)
    ensures Recorded(s.(m := Stop(s.m, h)))
  {
    AlikeRecorded(s, s.(m := Stop(s.m, h)));
  }

  lemma ClaimRecorded(s: System, key: PluginKey, generation: nat)
    requires Recorded(s) && s.round.Turn? && CanRestart(s.m, key, generation)
    ensures var rest, config := s.round.left - {key}, ConfigOf(key, s.m.workers[key]);
            Recorded(s.(m := BeginRestart(s.m, key, generation), round := Starting(rest, key, generation, config)))
  {
    var rest, config := s.round.left - {key}, ConfigOf(key, s.m.workers[key]);
    assert OnRecord(s, key, s.m.workers[key]);
    forall k | k in rest ensures OnRecord(s, k, rest[k]) { assert OnRecord(s, k, s.round.left[k]); }
    AlikeRecorded(s, s.(m := BeginRestart(s.m, key, generation), round := Starting(rest, key, generation, config)));
  }

  lemma LookRecorded(s: System, key: PluginKey, health: Health)
    requires Recorded(s) && s.round.Turn? && key in s.round.left
    ensures Recorded(LookAt(s, key, health))
  {
    var entry, rest := s.round.left[key], s.round.left - {key};
    if entry.worker.Some? && Dead(health) {
      StopRecorded(s, entry.worker.value);
      RoundRecorded(s.(m := Stop(s.m, entry.worker.value)),
                    Reporting(rest, key, entry.generation, entry.worker.value));
    } else if Claims(s, key, entry) {
      ClaimRecorded(s, key, entry.generation);
    } else {
      RoundRecorded(s, Turn(rest));
    }
  }

  lemma ReportRecorded(s: System)
    requires Recorded(s) && (s.round.Reporting? || s.round.Starting?)
    ensures Recorded(s.(m := RecordFailure(s.m, s.round.key, s.round.generation, s.clock), round := Turn(s.round.left)))
  {
    RoundRecorded(s, Turn(s.round.left));
    var quiet := s.(round := Turn(s.round.left));
    FailureAlike(s.m, s.round.key, s.round.generation, s.clock);
    AlikeRecorded(quiet, quiet.(m := RecordFailure(s.m, s.round.key, s.round.generation, s.clock)));
  }

  lemma FinishRecorded(s: System, offered: Option<nat>)
    requires Recorded(s) && s.round.Starting?
    ensures Recorded(FinishStart(s, offered))
  {
    var t := FinishStart(s, offered);
    if offered.None? {
      ReportRecorded(s);
    } else {
      assert Adds(s, t);
      RecordStays(s, t, s.m.workers);
      RecordStays(s, t, LeftOf(s.round));
      RecordStays(s, t, CurrentOf(s.change));
      RecordStays(s, t, BuiltOf(s.change));
      forall key | key in t.m.workers ensures OnRecord(t, key, t.m.workers[key]) {
        assert OnRecord(t, key, s.m.workers[key]);
      }
    }
  }

  /** One more entry under construction, taken over from the copy, which shows what is asked for. */
  ghost predicate TakesOver(s: System, t: System, key: PluginKey, w: ManagedWorker) {
    && s.change.Constructing? && t.change.Constructing? && key in s.change.current && Alike(s.change.current[key], w)
    && t == s.(change := s.change.(rest := t.change.rest, built := s.change.built[key := w]))
  }

  /** One more entry under construction, with a process launched for it. */
  ghost predicate Starts(s: System, t: System, key: PluginKey, w: ManagedWorker, c: RuntimeConfig) {
    && s.change.Constructing? && t.change.Constructing?
    && t.change.current == s.change.current && t.change.built == s.change.built[key := w]
    && t.m == s.m.(nextGeneration := s.m.nextGeneration + 1, nextHandle := s.m.nextHandle + 1, live := t.m.live)
    && t.round == s.round && Shows(key, w, c)
    && w.generation == s.m.nextGeneration && w.worker == Some(s.m.nextHandle)
    && t.seen.given == s.seen.given[s.m.nextHandle := c] && t.seen.asked == s.seen.asked[s.m.nextGeneration := c]
  }

  /** What building the next configuration comes to: nothing more, or one of the two. */
  lemma BuildNextIs(s: System, launcher: Launcher)
    requires s.change.Constructing? && s.change.rest != []
    ensures var t := BuildStep(s, launcher);
            || (t == s.(change := t.change) && !t.change.Constructing?)
            || (exists key, w :: TakesOver(s, t, key, w)) || (exists key, w, c :: Starts(s, t, key, w, c))
  {
    var t := BuildStep(s, launcher);
    var c := s.change.rest[0];
    if t.change.Constructing? {
      var w := t.change.built[KeyFor(c)];
      var config := c.(requestedConcurrency := Min(c.requestedConcurrency, s.m.limits.maxConcurrency));
      assert TakesOver(s, t, KeyFor(c), w) || Starts(s, t, KeyFor(c), w, config);
    }
  }

  lemma TakeOverRecorded(s: System, t: System, key: PluginKey, w: ManagedWorker)
    requires Recorded(s) && TakesOver(s, t, key, w)
    ensures Recorded(t)
  {
    assert Adds(s, t);
    RecordStays(s, t, s.m.workers);
    RecordStays(s, t, LeftOf(s.round));
    RecordStays(s, t, s.change.current);
    RecordStays(s, t, s.change.built);
    assert OnRecord(t, key, s.change.current[key]);
  }

  lemma StartRecorded(s: System, t: System, key: PluginKey, w: ManagedWorker, c: RuntimeConfig)
    requires Recorded(s) && Starts(s, t, key, w, c)
    ensures Recorded(t)
  {
    assert Adds(s, t);
    RecordStays(s, t, s.m.workers);
    RecordStays(s, t, LeftOf(s.round));
    RecordStays(s, t, s.change.current);
    RecordStays(s, t, s.change.built);
  }

  lemma BuildRecorded(s: System, launcher: Launcher)
    requires Recorded(s) && s.change.Constructing? && s.change.rest != []
    ensures Recorded(BuildStep(s, launcher))
  {
    var t := BuildStep(s, launcher);
    BuildNextIs(s, launcher);
    if exists key, w :: TakesOver(s, t, key, w) {
      var key, w :| TakesOver(s, t, key, w);
      TakeOverRecorded(s, t, key, w);
    } else if exists key, w, c :: Starts(s, t, key, w, c) {
      var key, w, c :| Starts(s, t, key, w, c);
      StartRecorded(s, t, key, w, c);
    } else {
      ChangeEnds(s, t);
    }
  }

  lemma SwapRecorded(s: System)
    requires Recorded(s) && s.change.Constructing?
    ensures Recorded(SwapStep(s))
  {
    var t := SwapStep(s);
    assert Adds(s, t);
    RecordStays(s, t, s.change.built);
    RecordStays(s, t, LeftOf(s.round));
  }

  lemma BeginRecorded(s: System, snapshot: RuntimeSnapshot)
    requires Recorded(s)
    ensures Recorded(Begin(s, snapshot))
  {
    var t := Begin(s, snapshot);
    assert Adds(s, t);
    RecordStays(s, t, s.m.workers);
    RecordStays(s, t, LeftOf(s.round));
  }

  /** Shutting down and clearing up touch no entry and no record. */
  ghost predicate OnlyEnds(s: System, t: System) {
    && t.round == s.round && !t.change.Constructing? && t.m.workers == s.m.workers
    && t.seen.given == s.seen.given && t.seen.asked == s.seen.asked
    && t.m.nextGeneration == s.m.nextGeneration && t.m.nextHandle == s.m.nextHandle
  }

  /** The snapshot gives up, goes on shutting down or ends. */
  lemma ChangeEnds(s: System, t: System)
    requires Recorded(s) && OnlyEnds(s, t)
    ensures Recorded(t)
  {
    assert Adds(s, t);
    RecordStays(s, t, s.m.workers);
    RecordStays(s, t, LeftOf(s.round));
  }

  lemma AbortRecorded(s: System)
    requires Recorded(s)
    ensures Recorded(Step(s, StopStarted))
  {
    if s.change.Aborting? {
      var started := s.change.started;
      if started == [] {
        ChangeEnds(s, s.(change := Quiet));
      } else {
        ChangeEnds(s, s.(m := Stop(s.m, started[0]), change := Aborting(started[1..])));
      }
    }
  }

  lemma ReplacingRecorded(s: System, h: Handle)
    requires Recorded(s)
    ensures Recorded(Step(s, StopReplaced(h)))
  {
    if s.change.Replacing? && h in s.change.replaced {
      ChangeEnds(s, s.(m := Stop(s.m, h), change := Replacing(s.change.replaced - {h})));
    }
  }

  lemma EndRecorded(s: System)
    requires Recorded(s)
    ensures Recorded(Step(s, EndSnapshot))
  {
    if s.change.Replacing? { ChangeEnds(s, Step(s, EndSnapshot)); }
  }

  /** The entries stay alike or leave. */
  lemma EntriesRecorded(s: System, m: Manager)
    requires Recorded(s) && m.nextGeneration == s.m.nextGeneration && m.nextHandle == s.m.nextHandle
    requires forall key :: key in m.workers ==> key in s.m.workers && Alike(s.m.workers[key], m.workers[key])
    ensures Recorded(s.(m := m))
  {
    AlikeRecorded(s, s.(m := m));
  }

  lemma PassRecorded(s: System, elapsed: nat)
    requires Recorded(s)
    ensures Recorded(s.(clock := s.clock + elapsed))
  {
    AlikeRecorded(s, s.(clock := s.clock + elapsed));
  }

  lemma BeginRoundRecorded(s: System)
    requires Recorded(s) && s.round.Idle?
    ensures Recorded(s.(round := Turn(s.m.workers)))
  {
    AlikeRecorded(s, s.(round := Turn(s.m.workers)));
  }

  lemma StepRecorded(s: System, e: Event)
    requires Recorded(s)
    ensures Recorded(Step(s, e))
  {
    match e {
      case Pass(elapsed) => PassRecorded(s, elapsed);
      case BeginRound => if s.round.Idle? { BeginRoundRecorded(s); }
      case Look(key, health) => if s.round.Turn? && key in s.round.left { LookRecorded(s, key, health); }
      case Report => if s.round.Reporting? { ReportRecorded(s); }
      case Finish(offered) => if s.round.Starting? { FinishRecorded(s, offered); }
      case EndRound => if s.round == Turn(map[]) { RoundRecorded(s, Idle); }
      case Acknowledge(ack) => EntriesRecorded(s, AcknowledgePause(s.m, ack));
      case StopAll => EntriesRecorded(s, ShutdownAll(s.m));
      case _ => ChangeRecorded(s, e);
    }
  }

  lemma ChangeRecorded(s: System, e: Event)
    requires Recorded(s)
    requires e.BeginSnapshot? || e.BuildNext? || e.StopStarted? || e.Swap? || e.StopReplaced? || e.EndSnapshot?
    ensures Recorded(Step(s, e))
  {
    match e {
      case BeginSnapshot(snapshot) => if s.change.Quiet? { BeginRecorded(s, snapshot); }
      case BuildNext(launcher) => if s.change.Constructing? && s.change.rest != [] { BuildRecorded(s, launcher); }
      case Swap => if s.change.Constructing? && s.change.rest == [] { SwapRecorded(s); }
      case StopStarted => AbortRecorded(s);
      case StopReplaced(h) => ReplacingRecorded(s, h);
      case EndSnapshot => EndRecorded(s);
    }
  }

  lemma {:induction false} RecordedInEveryState(limits: RuntimeLimits, events: seq<Event>)
    ensures Recorded(Run(Initial(limits), events))
    decreases |events|
  {
    if events != [] {
      var n := |events| - 1;
      RecordedInEveryState(limits, events[..n]);
      StepRecorded(Run(Initial(limits), events[..n]), events[n]);
    }
  }

  /** In every state of every interleaving, snapshots that keep a Worker and restarts that outlive one included: the
      process an entry holds was launched for that plugin with the configuration, the schema version and the
      concurrency the entry shows. */
  lemma LaunchedAsShown(limits: RuntimeLimits, events: seq<Event>)
    ensures var s := Run(Initial(limits), events);
            forall key :: key in s.m.workers && s.m.workers[key].worker.Some? ==>
              && s.m.workers[key].worker.value in s.seen.given
              && var w, c := s.m.workers[key], s.seen.given[s.m.workers[key].worker.value];
                 && (c.pluginId, c.version) == key && c.config == w.config
                 && c.schemaVersion == w.runtimeConfigVersion && c.requestedConcurrency == w.requestedConcurrency
  {
    RecordedInEveryState(limits, events);
    var s := Run(Initial(limits), events);
    forall key | key in s.m.workers ensures OnRecord(s, key, s.m.workers[key]) {}
  }
}
