/** What every interleaving of health rounds and snapshots keeps: the breaker of every entry, the account of
    processes, and where each live process is to be found. */
module InterleavingLaws {
  import opened Basics
  import opened PluginManagers
  import opened ManagerLaws
  import opened SnapshotLaws
  import opened Interleaving

  // ----- who knows which generation and which process -----

  function LeftOf(round: Round): map<PluginKey, ManagedWorker> {
    if round.Idle? then map[] else round.left
  }

  /** What the round has noted down about an entry: its generation and its process. */
  predicate Observes(round: Round, key: PluginKey, generation: nat, worker: Option<Handle>) {
    var left := LeftOf(round);
    || (key in left && left[key].generation == generation && left[key].worker == worker)
    || (round.Reporting? && round.key == key && round.generation == generation && worker == Some(round.handle))
    || (round.Starting? && round.key == key && round.generation == generation && worker == None)
  }

  function StartedOf(change: Change): seq<Handle> {
    if change.Constructing? || change.Aborting? then change.started else []
  }

  function CurrentOf(change: Change): map<PluginKey, ManagedWorker> {
    if change.Constructing? then change.current else map[]
  }

  function BuiltOf(change: Change): map<PluginKey, ManagedWorker> {
    if change.Constructing? then change.built else map[]
  }

  /** Taken out of the map and not shut down by the snapshot yet. */
  function PendingOf(change: Change): set<Handle> {
    if change.Replacing? then change.replaced else {}
  }

  predicate Named(entries: map<PluginKey, ManagedWorker>, generation: nat) {
    exists key :: key in entries && entries[key].generation == generation
  }

  /** Neither the map nor a copy of it has this generation. */
  ghost predicate Private(s: System, generation: nat) {
    && !Named(s.m.workers, generation) && !Named(CurrentOf(s.change), generation)
    && (forall key, worker :: !Observes(s.round, key, generation, worker))
  }

  /** The entry holds this process. */
  predicate Holds(m: Manager, key: PluginKey, h: Handle) {
    key in m.workers && m.workers[key].worker == Some(h)
  }

  // ----- the invariant -----

  /** Generation and process of an entry are on record for this plugin. */
  ghost predicate Stamped(s: System, key: PluginKey, generation: nat, worker: Option<Handle>) {
    && generation in s.seen.issued && s.seen.issued[generation] == key
    && (worker.Some? ==> worker.value in s.seen.launched && s.seen.launched[worker.value] == generation)
  }

  ghost predicate AllStamped(s: System, entries: map<PluginKey, ManagedWorker>) {
    forall key :: key in entries ==> Stamped(s, key, entries[key].generation, entries[key].worker)
  }

  /** Every process ever launched is on record, and is alive or was shut down. */
  ghost predicate Books(s: System) {
    && (forall h: Handle :: h in s.seen.launched <==> h < s.m.nextHandle)
    && (forall h :: h in s.seen.launched ==> s.seen.launched[h] in s.seen.issued)
    && (forall g :: g in s.seen.issued ==> g < s.m.nextGeneration)
    && (forall h: Handle :: h in s.m.live || h in s.m.stopped <==> h < s.m.nextHandle)
    && (forall h :: h in s.m.live ==> h !in s.m.stopped)
  }

  ghost predicate RoundOk(s: System) {
    && AllStamped(s, LeftOf(s.round))
    && (s.round.Reporting? ==>
          && s.round.key !in s.round.left && s.round.handle !in s.m.live
          && Stamped(s, s.round.key, s.round.generation, Some(s.round.handle)))
    && (s.round.Starting? ==>
          s.round.key !in s.round.left && Stamped(s, s.round.key, s.round.generation, None))
  }

  /** An entry under construction runs, and is reused from the copy or was launched by this snapshot. */
  ghost predicate InProgress(s: System, key: PluginKey) {
    && s.change.Constructing? && key in s.change.built
    && var w := s.change.built[key];
    && CleanlyRunning(w, s.change.revision) && Stamped(s, key, w.generation, w.worker)
    && (|| (&& key in s.change.current && s.change.current[key].worker == w.worker
            && s.change.current[key].generation == w.generation)
        || w.worker.value in s.change.started)
  }

  ghost predicate BuiltOk(s: System) {
    forall key :: key in BuiltOf(s.change) ==> InProgress(s, key)
  }

  /** What this snapshot launched is alive and its own. */
  ghost predicate StartedOk(s: System) {
    && Distinct(StartedOf(s.change))
    && forall h :: h in StartedOf(s.change) ==>
         && h in s.m.live && h in s.seen.launched && s.seen.launched[h] in s.seen.issued
         && Private(s, s.seen.launched[h])
         && (s.change.Constructing? ==>
               var key := s.seen.issued[s.seen.launched[h]];
               key in s.change.built && s.change.built[key].worker == Some(h))
  }

  ghost predicate PendingOk(s: System) {
    forall h :: h in PendingOf(s.change) ==>
      h in s.seen.launched && s.seen.launched[h] in s.seen.issued && !Holds(s.m, s.seen.issued[s.seen.launched[h]], h)
  }

  ghost predicate ChangeOk(s: System) {
    AllStamped(s, CurrentOf(s.change)) && BuiltOk(s) && StartedOk(s) && PendingOk(s)
  }

  /** Where a live process is: waiting for its shutdown; or held by the entry it was launched for, and then it is
      the process that every note about this generation names; or known to nobody but the snapshot that
      launched it, or to nobody at all. */
  ghost predicate Located(s: System, h: Handle) {
    && h in s.seen.launched && s.seen.launched[h] in s.seen.issued
    && var generation := s.seen.launched[h];
    var key := s.seen.issued[generation];
    || h in PendingOf(s.change)
    || (Holds(s.m, key, h) && forall worker :: Observes(s.round, key, generation, worker) ==> worker == Some(h))
    || (Private(s, generation) && (h in StartedOf(s.change) || !Named(BuiltOf(s.change), generation)))
  }

  ghost predicate Sound(s: System) {
    && EntriesOk(s.m) && Past(s.m, s.clock) && Books(s) && AllStamped(s, s.m.workers)
    && RoundOk(s) && ChangeOk(s) && forall h :: h in s.m.live ==> Located(s, h)
  }

  // ----- steps of the round -----

  lemma BeginRoundSound(s: System)
    requires Sound(s) && s.round.Idle?
    ensures Sound(s.(round := Turn(s.m.workers)))
  {
    var after := s.(round := Turn(s.m.workers));
    forall g | Private(s, g) ensures Private(after, g) {
      forall key, worker ensures !Observes(after.round, key, g, worker) {}
    }
    forall h | h in after.m.live ensures Located(after, h) { assert Located(s, h); }
  }

  /** Dropping notes. */
  ghost predicate Forgets(before: Round, after: Round) {
    forall key, generation, worker :: Observes(after, key, generation, worker) ==>
          Observes(before, key, generation, worker)
  }

  lemma ForgetSound(s: System, round: Round)
    requires Sound(s) && Forgets(s.round, round) && RoundOk(s.(round := round))
    ensures Sound(s.(round := round))
  {
    var after := s.(round := round);
    forall g | Private(s, g) ensures Private(after, g) {}
    forall h | h in after.m.live ensures Located(after, h) { assert Located(s, h); }
  }

  /** Shutting a process down, once or again, unless the snapshot still counts on it. */
  lemma StopSound(s: System, h: Handle)
    requires Sound(s) && h < s.m.nextHandle && h !in StartedOf(s.change)
    ensures Sound(s.(m := Stop(s.m, h)))
  {
    var after := s.(m := Stop(s.m, h));
    SameEntriesOk(s.m, after.m, s.clock);
    forall g | Private(s, g) ensures Private(after, g) {}
    forall x | x in after.m.live ensures Located(after, x) { assert Located(s, x); }
    assert StartedOk(after);
  }

  lemma ObservedIsShared(s: System, key: PluginKey, h: Handle)
    requires Sound(s) && key in LeftOf(s.round) && LeftOf(s.round)[key].worker == Some(h)
    ensures h < s.m.nextHandle && h !in StartedOf(s.change)
  {
    var w := LeftOf(s.round)[key];
    assert Stamped(s, key, w.generation, w.worker);
    assert Observes(s.round, key, w.generation, w.worker);
  }

  lemma LookStopSound(s: System, key: PluginKey)
    requires Sound(s) && s.round.Turn? && key in s.round.left && s.round.left[key].worker.Some?
    ensures var entry := s.round.left[key];
            var h := entry.worker.value;
            Sound(s.(m := Stop(s.m, h), round := Reporting(s.round.left - {key}, key, entry.generation, h)))
  {
    var entry := s.round.left[key];
    var h := entry.worker.value;
    ObservedIsShared(s, key, h);
    StopSound(s, h);
    var stopped := s.(m := Stop(s.m, h));
    ForgetSound(stopped, Reporting(s.round.left - {key}, key, entry.generation, h));
  }

  /** One entry changes. It keeps its process or gives up one that is dead. */
  ghost predicate Yields(m: Manager, after: Manager, key: PluginKey) {
    && EntryReplaced(m, after, key)
    && after.live == m.live && after.stopped == m.stopped && after.nextHandle == m.nextHandle
    && (|| after.workers[key].worker == m.workers[key].worker
        || (after.workers[key].worker.None? && m.workers[key].worker.value !in m.live))
  }

  lemma YieldLocated(s: System, t: System, key: PluginKey, h: Handle)
    requires Yields(s.m, t.m, key) && t == s.(m := t.m) && AllStamped(s, s.m.workers) && h in s.m.live && Located(s, h)
    ensures Located(t, h)
  {
    var g := s.seen.launched[h];
    if Private(s, g) { YieldPrivate(s, t, key, g); }
  }

  lemma YieldPrivate(s: System, t: System, key: PluginKey, g: nat)
    requires EntryReplaced(s.m, t.m, key) && t == s.(m := t.m) && Private(s, g)
    ensures Private(t, g)
  {
  }

  lemma YieldChange(s: System, t: System, key: PluginKey)
    requires Yields(s.m, t.m, key) && t == s.(m := t.m) && ChangeOk(s)
    ensures ChangeOk(t)
  {
    forall h | h in StartedOf(s.change) ensures Private(t, s.seen.launched[h]) {
      YieldPrivate(s, t, key, s.seen.launched[h]);
    }
    assert BuiltOk(t);
  }

  lemma YieldStamps(s: System, t: System, key: PluginKey)
    requires Yields(s.m, t.m, key) && t == s.(m := t.m) && AllStamped(s, s.m.workers)
    ensures AllStamped(t, t.m.workers)
  {
    forall k | k in t.m.workers ensures Stamped(t, k, t.m.workers[k].generation, t.m.workers[k].worker) {
      assert Stamped(s, k, s.m.workers[k].generation, s.m.workers[k].worker);
    }
  }

  lemma YieldSound(s: System, after: Manager, key: PluginKey)
    requires Sound(s) && Yields(s.m, after, key) && Past(after, s.clock)
    ensures Sound(s.(m := after))
  {
    var t := s.(m := after);
    assert EntriesOk(after) by { EntryReplacedKeeps(s.m, after, key); }
    assert AllStamped(t, after.workers) by { YieldStamps(s, t, key); }
    assert ChangeOk(t) by { YieldChange(s, t, key); }
    forall h | h in after.live ensures Located(t, h) { YieldLocated(s, t, key, h); }
    assert RoundOk(t);
  }

  lemma ForgetTask(s: System)
    requires Sound(s) && !s.round.Idle?
    ensures Sound(s.(round := Turn(s.round.left)))
  {
    ForgetSound(s, Turn(s.round.left));
  }

  lemma NoteClaim(s: System, key: PluginKey, config: RuntimeConfig)
    requires Sound(s) && s.round.Turn? && key in s.round.left && s.round.left[key].worker.None?
    ensures Sound(s.(round := Starting(s.round.left - {key}, key, s.round.left[key].generation, config)))
  {
    ForgetSound(s, Starting(s.round.left - {key}, key, s.round.left[key].generation, config));
  }

  lemma ClaimSound(s: System, key: PluginKey)
    requires Sound(s) && s.round.Turn? && key in s.round.left && CanRestart(s.m, key, s.round.left[key].generation)
    requires s.round.left[key].worker.None?
    ensures var generation := s.round.left[key].generation;
            Sound(s.(m := BeginRestart(s.m, key, generation),
                     round := Starting(s.round.left - {key}, key, generation, ConfigOf(key, s.m.workers[key]))))
  {
    var after := BeginRestart(s.m, key, s.round.left[key].generation);
    assert Yields(s.m, after, key) && Past(after, s.clock) by {
      assert EntryOk(s.m.limits, s.m.workers[key], HistoryOf(s.m, key));
      BegunReplaces(s.m, key);
    }
    YieldSound(s, after, key);
    NoteClaim(s.(m := after), key, ConfigOf(key, s.m.workers[key]));
  }

  lemma LookSound(s: System, key: PluginKey, health: Health)
    requires Sound(s) && s.round.Turn? && key in s.round.left
    ensures Sound(LookAt(s, key, health))
  {
    var entry := s.round.left[key];
    if entry.worker.Some? && Dead(health) {
      LookStopSound(s, key);
    } else if Claims(s, key, entry) {
      ClaimSound(s, key);
    } else {
      ForgetSound(s, Turn(s.round.left - {key}));
    }
  }

  /** While a failure is being reported or a restart is under way no live process of that generation is held. */
  lemma NothingHeld(s: System, key: PluginKey, h: Handle)
    requires Sound(s) && (s.round.Reporting? || s.round.Starting?) && s.round.key == key && Holds(s.m, key, h)
    requires s.m.workers[key].generation == s.round.generation
    ensures h !in s.m.live
  {
    assert Stamped(s, key, s.m.workers[key].generation, Some(h));
    if h in s.m.live {
      assert Located(s, h) && PendingOk(s) && StartedOk(s);
      var noted := if s.round.Reporting? then Some(s.round.handle) else None;
      assert Observes(s.round, key, s.round.generation, noted);
      assert Named(s.m.workers, s.round.generation);
    }
  }

  lemma RecordYields(s: System)
    requires Sound(s) && (s.round.Reporting? || s.round.Starting?)
    requires s.round.key in s.m.workers && s.m.workers[s.round.key].generation == s.round.generation
    ensures var after := RecordFailure(s.m, s.round.key, s.round.generation, s.clock);
            Yields(s.m, after, s.round.key) && Past(after, s.clock)
  {
    var m, key := s.m, s.round.key;
    assert EntryOk(m.limits, m.workers[key], HistoryOf(m, key));
    FailureReplaces(m, key, s.clock);
    if m.workers[key].worker.Some? { NothingHeld(s, key, m.workers[key].worker.value); }
  }

  lemma RecordSound(s: System)
    requires Sound(s) && (s.round.Reporting? || s.round.Starting?)
    ensures Sound(s.(m := RecordFailure(s.m, s.round.key, s.round.generation, s.clock), round := Turn(s.round.left)))
  {
    var after := RecordFailure(s.m, s.round.key, s.round.generation, s.clock);
    if s.round.key in s.m.workers && s.m.workers[s.round.key].generation == s.round.generation {
      RecordYields(s);
      YieldSound(s, after, s.round.key);
    }
    ForgetTask(s.(m := after));
  }

  /** One more process on record, for a generation already issued; alive or shut down at once. */
  ghost predicate Launches(s: System, t: System, generation: nat) {
    && generation in s.seen.issued && t.seen.issued == s.seen.issued
    && t.seen.launched == s.seen.launched[s.m.nextHandle := generation]
    && t.m.nextHandle == s.m.nextHandle + 1 && t.m.nextGeneration == s.m.nextGeneration
  }

  lemma StampStays(s: System, t: System, key: PluginKey, generation: nat, worker: Option<Handle>)
    requires Books(s) && Stamped(s, key, generation, worker)
    requires forall h :: h in s.seen.launched ==> h in t.seen.launched && t.seen.launched[h] == s.seen.launched[h]
    requires forall g :: g in s.seen.issued ==> g in t.seen.issued && t.seen.issued[g] == s.seen.issued[g]
    ensures Stamped(t, key, generation, worker)
  {
  }

  /** Records only grow. */
  ghost predicate Grows(s: System, t: System) {
    && (forall h :: h in s.seen.launched ==> h in t.seen.launched && t.seen.launched[h] == s.seen.launched[h])
    && (forall g :: g in s.seen.issued ==> g in t.seen.issued && t.seen.issued[g] == s.seen.issued[g])
  }

  lemma StampsStay(s: System, t: System, entries: map<PluginKey, ManagedWorker>)
    requires Books(s) && Grows(s, t) && AllStamped(s, entries)
    ensures AllStamped(t, entries)
  {
    forall key | key in entries ensures Stamped(t, key, entries[key].generation, entries[key].worker) {
      StampStays(s, t, key, entries[key].generation, entries[key].worker);
    }
  }

  /** A launched process that nobody wants any more is shut down at once. */
  ghost predicate Discards(s: System, t: System) {
    && s.round.Starting? && Launches(s, t, s.round.generation)
    && t == s.(m := t.m, seen := t.seen)
    && t.m == s.m.(nextHandle := s.m.nextHandle + 1, stopped := s.m.stopped + multiset{s.m.nextHandle})
  }

  lemma DiscardedStamps(s: System, t: System)
    requires Books(s) && Discards(s, t) && AllStamped(s, s.m.workers) && RoundOk(s)
    requires AllStamped(s, CurrentOf(s.change))
    ensures AllStamped(t, t.m.workers) && RoundOk(t) && AllStamped(t, CurrentOf(t.change))
  {
    assert Grows(s, t);
    StampsStay(s, t, s.m.workers);
    StampsStay(s, t, LeftOf(s.round));
    StampsStay(s, t, CurrentOf(s.change));
  }

  lemma DiscardedPlaces(s: System, t: System)
    requires Books(s) && Discards(s, t) && ChangeOk(s) && forall h :: h in s.m.live ==> Located(s, h)
    requires AllStamped(t, CurrentOf(t.change))
    ensures ChangeOk(t) && forall h :: h in t.m.live ==> Located(t, h)
  {
    assert Grows(s, t);
    forall g | Private(s, g) ensures Private(t, g) {}
    forall h | h in t.m.live ensures Located(t, h) { assert Located(s, h); }
    assert BuiltOk(t) && StartedOk(t) && PendingOk(t);
  }

  lemma DiscardSound(s: System, t: System)
    requires Sound(s) && Discards(s, t)
    ensures Sound(t)
  {
    assert EntriesOk(t.m) && Past(t.m, t.clock) by { SameEntriesOk(s.m, t.m, s.clock); }
    assert Books(t) by { assert s.m.nextHandle !in s.m.live && s.m.nextHandle !in s.m.stopped; }
    DiscardedStamps(s, t);
    DiscardedPlaces(s, t);
  }

  /** The restarted Worker is put into its entry. */
  lemma InstallEntry(s: System, effective: nat)
    requires Sound(s) && s.round.Starting? && CanRestart(s.m, s.round.key, s.round.generation)
    ensures var after := FinishRestart(s.m, s.round.key, s.round.generation, Some(effective), s.clock);
            && EntriesOk(after) && Past(after, s.clock) && EntryReplaced(s.m, after, s.round.key)
            && s.m.workers[s.round.key].worker.None? && Holds(after, s.round.key, s.m.nextHandle)
            && after.stopped == s.m.stopped && after.live == s.m.live + {s.m.nextHandle}
            && after.nextHandle == s.m.nextHandle + 1
  {
    var m, key := s.m, s.round.key;
    assert EntryOk(m.limits, m.workers[key], HistoryOf(m, key));
    InstallReplaces(m, key, effective, s.clock);
    EntryReplacedKeeps(m, FinishRestart(m, key, s.round.generation, Some(effective), s.clock), key);
  }

  ghost predicate Installs(s: System, t: System) {
    && s.round.Starting? && Launches(s, t, s.round.generation)
    && t == s.(m := t.m, seen := t.seen, round := Turn(s.round.left))
    && EntryReplaced(s.m, t.m, s.round.key) && s.m.workers[s.round.key].worker.None?
    && s.m.workers[s.round.key].generation == s.round.generation && Holds(t.m, s.round.key, s.m.nextHandle)
    && t.m.stopped == s.m.stopped && t.m.live == s.m.live + {s.m.nextHandle}
  }

  lemma InstalledPrivate(s: System, t: System, g: nat)
    requires Installs(s, t) && Private(s, g)
    ensures Private(t, g)
  {
    forall key, worker ensures !Observes(t.round, key, g, worker) { assert !Observes(s.round, key, g, worker); }
  }

  lemma InstalledBooks(s: System, t: System)
    requires Books(s) && Installs(s, t)
    ensures Books(t)
  {
    assert s.m.nextHandle !in s.m.stopped;
  }

  lemma InstalledStamps(s: System, t: System)
    requires Books(s) && Installs(s, t) && AllStamped(s, s.m.workers) && RoundOk(s)
    requires AllStamped(s, CurrentOf(s.change))
    ensures AllStamped(t, t.m.workers) && RoundOk(t) && AllStamped(t, CurrentOf(t.change))
  {
    assert Grows(s, t);
    StampsStay(s, t, LeftOf(s.round));
    StampsStay(s, t, CurrentOf(s.change));
    StampsStay(s, t, s.m.workers);
    forall k | k in t.m.workers ensures Stamped(t, k, t.m.workers[k].generation, t.m.workers[k].worker) {
      assert Stamped(t, k, s.m.workers[k].generation, s.m.workers[k].worker);
    }
  }

  lemma InstalledLocated(s: System, t: System, h: Handle)
    requires Sound(s) && Installs(s, t) && h in t.m.live
    ensures Located(t, h)
  {
    if h == s.m.nextHandle {
      forall worker ensures !Observes(t.round, s.round.key, s.round.generation, worker) {}
    } else {
      assert Located(s, h);
      var g := s.seen.launched[h];
      if Private(s, g) { InstalledPrivate(s, t, g); }
      if Holds(s.m, s.seen.issued[g], h) {
        forall worker | Observes(t.round, s.seen.issued[g], g, worker)
          ensures Observes(s.round, s.seen.issued[g], g, worker)
        {}
      }
    }
  }

  lemma InstalledChange(s: System, t: System)
    requires Sound(s) && Installs(s, t)
    ensures ChangeOk(t)
  {
    InstalledStamps(s, t);
    forall h | h in StartedOf(s.change) ensures Private(t, s.seen.launched[h]) {
      InstalledPrivate(s, t, s.seen.launched[h]);
    }
    assert Grows(s, t);
    assert BuiltOk(t) && StartedOk(t) && PendingOk(t);
  }

  lemma FinishSound(s: System, offered: Option<nat>)
    requires Sound(s) && s.round.Starting?
    ensures Sound(FinishStart(s, offered))
  {
    var t := FinishStart(s, offered);
    if offered.None? {
      RecordSound(s);
    } else if CanRestart(s.m, s.round.key, s.round.generation) {
      InstallEntry(s, offered.value);
      assert Installs(s, t);
      InstalledBooks(s, t);
      InstalledStamps(s, t);
      InstalledChange(s, t);
      forall h | h in t.m.live ensures Located(t, h) { InstalledLocated(s, t, h); }
    } else {
      assert s.m.live + {s.m.nextHandle} - {s.m.nextHandle} == s.m.live;
      DiscardSound(s, t.(round := s.round));
      ForgetTask(t.(round := s.round));
    }
  }
}
