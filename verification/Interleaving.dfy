/** Health rounds and snapshots as they really run. Both work on a copy of the entry map and both wait: a round
    before each entry, while a Worker shuts down and while one starts; a snapshot while each Worker starts, while
    the replaced ones shut down, and before it clears the notices. Whatever else the manager is asked to do
    happens at one of these points. */
module Interleaving {
  import opened Basics
  import opened PluginManagers
  import ManagerRuns

  /** Where the health round is; `left` are the copied entries it has not looked at, `config` is what the claimed
      entry asked for. */
  datatype Round =
    | Idle
    | Turn(left: map<PluginKey, ManagedWorker>)
    | Reporting(left: map<PluginKey, ManagedWorker>, key: PluginKey, generation: nat, handle: Handle)
    | Starting(left: map<PluginKey, ManagedWorker>, key: PluginKey, generation: nat, config: RuntimeConfig)

  /** Where the snapshot is; `current` is its copy of the entries. */
  datatype Change =
    | Quiet
    | Constructing(
        revision: nat, current: map<PluginKey, ManagedWorker>, rest: seq<RuntimeConfig>,
        built: map<PluginKey, ManagedWorker>, started: seq<Handle>)
    | Aborting(started: seq<Handle>)
    | Replacing(replaced: set<Handle>)

  /** An observer's records: the generation each process was launched for and the configuration it was launched
      with, the plugin each generation was issued to and the configuration it was issued for. */
  datatype Records = Records(
    launched: map<Handle, nat>, given: map<Handle, RuntimeConfig>,
    issued: map<nat, PluginKey>, asked: map<nat, RuntimeConfig>)

  datatype System = System(m: Manager, round: Round, change: Change, clock: nat, seen: Records)

  datatype Event =
    | Pass(elapsed: nat)
    | BeginRound
    | Look(key: PluginKey, health: Health)
    | Report
    | Finish(offered: Option<nat>)
    | EndRound
    | BeginSnapshot(snapshot: RuntimeSnapshot)
    | BuildNext(launcher: Launcher)
    | StopStarted
    | Swap
    | StopReplaced(handle: Handle)
    | EndSnapshot
    | Acknowledge(ack: PauseAck)
    | StopAll

  predicate Dead(health: Health) {
    health.Exited? || health.ReaderClosed?
  }

  /** The restart of this copied entry is due and can be claimed. */
  predicate Claims(s: System, key: PluginKey, entry: ManagedWorker) {
    && entry.worker.None? && entry.state.Restarting?
    && entry.nextRestart.Some? && entry.nextRestart.value <= s.clock && CanRestart(s.m, key, entry.generation)
  }

  /** Look at one copied entry: shut a dead Worker down, or claim a restart that is due. */
  function LookAt(s: System, key: PluginKey, health: Health): System
    requires s.round.Turn? && key in s.round.left
  {
    var entry, rest := s.round.left[key], s.round.left - {key};
    if entry.worker.Some? && Dead(health) then
      s.(m := Stop(s.m, entry.worker.value), round := Reporting(rest, key, entry.generation, entry.worker.value))
    else if Claims(s, key, entry) then
      s.(m := BeginRestart(s.m, key, entry.generation),
         round := Starting(rest, key, entry.generation, ConfigOf(key, s.m.workers[key])))
    else s.(round := Turn(rest))
  }

  function FinishStart(s: System, offered: Option<nat>): System
    requires s.round.Starting?
  {
    s.(m := FinishRestart(s.m, s.round.key, s.round.generation, offered, s.clock), round := Turn(s.round.left),
       seen := if offered.None? then s.seen
               else s.seen.(launched := s.seen.launched[s.m.nextHandle := s.round.generation],
                            given := s.seen.given[s.m.nextHandle := s.round.config]))
  }

  /** The snapshot under construction, as one value. */
  function UnderConstruction(s: System): Building
    requires s.change.Constructing?
  {
    Building(s.change.built, s.change.started, s.m.nextGeneration, s.m.nextHandle, s.m.live, None)
  }

  /** The next configuration, reused from the copy or launched. A configuration error ends the snapshot there; a
      failed launch first shuts down what was started. */
  function BuildStep(s: System, launcher: Launcher): System
    requires s.change.Constructing? && s.change.rest != []
  {
    var c := s.change.rest[0];
    var b := BuildOne(s.m.(workers := s.change.current), s.change.revision, UnderConstruction(s), c, launcher);
    if b.error == Some(StartFailed) then s.(change := Aborting(s.change.started))
    else if b.error.Some? then s.(change := Quiet)
    else
      var next := s.(m := s.m.(nextGeneration := b.nextGeneration, nextHandle := b.nextHandle, live := b.live),
                     change := s.change.(rest := s.change.rest[1..], built := b.workers, started := b.started));
      if b.nextHandle == s.m.nextHandle then next
      else
        var config := c.(requestedConcurrency := Min(c.requestedConcurrency, s.m.limits.maxConcurrency));
        next.(seen := Records(s.seen.launched[s.m.nextHandle := s.m.nextGeneration],
                              s.seen.given[s.m.nextHandle := config],
                              s.seen.issued[s.m.nextGeneration := KeyFor(c)],
                              s.seen.asked[s.m.nextGeneration := config]))
  }

  /** The new map takes the place of whatever the map is by now. */
  function SwapStep(s: System): System
    requires s.change.Constructing?
  {
    s.(m := s.m.(workers := s.change.built, history := map key | key in s.change.built :: []),
       change := Replacing(Replaced(s.m.workers, s.change.built)))
  }

  function Begin(s: System, snapshot: RuntimeSnapshot): System {
    if snapshot.revision == 0 || |snapshot.plugins| > s.m.limits.maxWorkers then s
    else s.(change := Constructing(snapshot.revision, s.m.workers, snapshot.plugins, map[], []))
  }

  /** One step; one that is not enabled changes nothing. */
  function Step(s: System, e: Event): System {
    match e
    case Pass(elapsed) => s.(clock := s.clock + elapsed)
    case BeginRound => if s.round.Idle? then s.(round := Turn(s.m.workers)) else s
    case Look(key, health) => if s.round.Turn? && key in s.round.left then LookAt(s, key, health) else s
    case Report =>
      if s.round.Reporting? then
        s.(m := RecordFailure(s.m, s.round.key, s.round.generation, s.clock), round := Turn(s.round.left))
      else s
    case Finish(offered) => if s.round.Starting? then FinishStart(s, offered) else s
    case EndRound => if s.round == Turn(map[]) then s.(round := Idle) else s
    case BeginSnapshot(snapshot) => if s.change.Quiet? then Begin(s, snapshot) else s
    case BuildNext(launcher) => if s.change.Constructing? && s.change.rest != [] then BuildStep(s, launcher) else s
    case StopStarted =>
      if !s.change.Aborting? then s
      else if s.change.started == [] then s.(change := Quiet)
      else s.(m := Stop(s.m, s.change.started[0]), change := Aborting(s.change.started[1..]))
    case Swap => if s.change.Constructing? && s.change.rest == [] then SwapStep(s) else s
    case StopReplaced(h) =>
      if s.change.Replacing? && h in s.change.replaced then
        s.(m := Stop(s.m, h), change := Replacing(s.change.replaced - {h}))
      else s
    case EndSnapshot =>
      if s.change == Replacing({}) then s.(m := s.m.(notices := map[], sent := {}), change := Quiet) else s
    case Acknowledge(ack) => s.(m := AcknowledgePause(s.m, ack))
    case StopAll => s.(m := ShutdownAll(s.m))
  }

  function Initial(limits: RuntimeLimits): System {
    System(ManagerRuns.InitialManager(limits), Idle, Quiet, 0, Records(map[], map[], map[], map[]))
  }

  function Run(s: System, events: seq<Event>): System
    decreases |events|
  {
    if events == [] then s else Step(Run(s, events[..|events| - 1]), events[|events| - 1])
  }

  // ----- undisturbed, the steps are the operations -----

  /** The round goes on as soon as it can. */
  function Settle(s: System, launcher: Launcher): System {
    match s.round
    case Reporting(_, _, _, _) => Step(s, Report)
    case Starting(_, _, _, config) => Step(s, Finish(Launch(launcher, config, config.requestedConcurrency)))
    case _ => s
  }

  function WholeRound(s: System, order: seq<PluginKey>, health: PluginKey -> Health, launcher: Launcher): System
    decreases |order|
  {
    if order == [] then s
    else WholeRound(Settle(Step(s, Look(order[0], health(order[0]))), launcher), order[1..], health, launcher)
  }

  /** The round went on from `s` to `after` as a poll of this entry would. */
  ghost predicate Polls(s: System, key: PluginKey, health: Health, launcher: Launcher, after: System)
    requires s.round.Turn? && key in s.round.left
  {
    && after.m == PollOne(s.m, key, s.round.left[key], health, launcher, s.clock)
    && after.round == Turn(s.round.left - {key}) && after.clock == s.clock
  }

  lemma UndisturbedStop(s: System, key: PluginKey, health: Health, launcher: Launcher)
    requires s.round.Turn? && key in s.round.left && s.round.left[key].worker.Some? && Dead(health)
    ensures Polls(s, key, health, launcher, Settle(LookAt(s, key, health), launcher))
  {
    var looked := LookAt(s, key, health);
    assert Settle(looked, launcher) == Step(looked, Report);
  }

  lemma UndisturbedClaim(s: System, key: PluginKey, health: Health, launcher: Launcher)
    requires s.round.Turn? && key in s.round.left && Claims(s, key, s.round.left[key])
    ensures Polls(s, key, health, launcher, Settle(LookAt(s, key, health), launcher))
  {
    var looked, w := LookAt(s, key, health), s.m.workers[key];
    assert Settle(looked, launcher)
           == FinishStart(looked, Launch(launcher, ConfigOf(key, w), w.requestedConcurrency));
  }

  lemma UndisturbedLook(s: System, key: PluginKey, health: Health, launcher: Launcher)
    requires s.round.Turn? && key in s.round.left
    ensures Polls(s, key, health, launcher, Settle(Step(s, Look(key, health)), launcher))
  {
    var entry := s.round.left[key];
    if entry.worker.Some? && Dead(health) {
      UndisturbedStop(s, key, health, launcher);
    } else if Claims(s, key, entry) {
      UndisturbedClaim(s, key, health, launcher);
    } else {
      assert LookAt(s, key, health) == s.(round := Turn(s.round.left - {key}));
    }
  }

  /** With nothing in between, the steps of a round are the poll of its entries in one go. */
  lemma {:induction false} UndisturbedRound(s: System, order: seq<PluginKey>, health: PluginKey -> Health,
                                            launcher: Launcher)
    requires s.round.Turn? && Distinct(order)
    ensures var after := WholeRound(s, order, health, launcher);
            && after.m == Poll(s.m, s.round.left, order, health, launcher, s.clock)
            && after.round == Turn(s.round.left - Elements(order)) && after.clock == s.clock
    decreases |order|
  {
    if order != [] {
      var key, left := order[0], s.round.left;
      var next := Settle(Step(s, Look(key, health(key))), launcher);
      if key in left { UndisturbedLook(s, key, health(key), launcher); }
      assert next.round == Turn(left - {key});
      UndisturbedRound(next, order[1..], health, launcher);
      assert order == [key] + order[1..];
      PollIgnores(next.m, left, order[1..], key, health, launcher, s.clock);
      assert left - {key} - Elements(order[1..]) == left - Elements(order);
    }
  }

  lemma {:induction false} PollIgnores(m: Manager, entries: map<PluginKey, ManagedWorker>, order: seq<PluginKey>,
                                       key: PluginKey, health: PluginKey -> Health, launcher: Launcher, now: nat)
    requires key !in order
    ensures Poll(m, entries - {key}, order, health, launcher, now) == Poll(m, entries, order, health, launcher, now)
    decreases |order|
  {
    if order != [] {
      var k := order[0];
      var next := if k in entries then PollOne(m, k, entries[k], health(k), launcher, now) else m;
      PollIgnores(next, entries, order[1..], key, health, launcher, now);
    }
  }

  /** The snapshot goes on as soon as it can, up to the shutdowns. */
  function BuildAll(s: System, launcher: Launcher): System
    decreases if s.change.Constructing? then |s.change.rest| else 0
  {
    if s.change.Constructing? && s.change.rest != [] then BuildAll(BuildStep(s, launcher), launcher) else s
  }

  function StopEach(s: System, order: seq<Handle>): System
    decreases |order|
  {
    if order == [] then s else StopEach(Step(s, StopReplaced(order[0])), order[1..])
  }

  function AbortAll(s: System): System
    decreases if s.change.Aborting? then |s.change.started| else 0
  {
    if s.change.Aborting? && s.change.started != [] then AbortAll(Step(s, StopStarted)) else Step(s, StopStarted)
  }

  /** A snapshot with nothing in between; the replaced Workers end in any order. */
  function WholeSnapshot(s: System, snapshot: RuntimeSnapshot, launcher: Launcher, order: seq<Handle>): System {
    var built := BuildAll(Step(s, BeginSnapshot(snapshot)), launcher);
    match built.change
    case Quiet => built
    case Aborting(_) => AbortAll(built)
    case _ => Step(StopEach(Step(built, Swap), order), EndSnapshot)
  }

  /** The manager with what a build has used up so far. */
  function Spent(m: Manager, b: Building): Manager {
    m.(nextGeneration := b.nextGeneration, nextHandle := b.nextHandle, live := b.live)
  }

  /** Where the build of the remaining configurations leaves the system. */
  ghost predicate Finishes(s: System, b: Building, after: System)
    requires s.change.Constructing?
  {
    && after.m == Spent(s.m, b) && after.round == s.round && after.clock == s.clock
    && (b.error.None? ==>
          after.change == s.change.(rest := [], built := b.workers, started := b.started))
    && (b.error == Some(StartFailed) ==> after.change == Aborting(b.started))
    && (b.error.Some? && b.error != Some(StartFailed) ==> after.change == Quiet)
  }

  /** The first of the remaining configurations goes through. */
  lemma BuildsOne(s: System, launcher: Launcher)
    requires s.change.Constructing? && s.change.rest != []
    ensures var b := BuildOne(s.m.(workers := s.change.current), s.change.revision, UnderConstruction(s),
                              s.change.rest[0], launcher);
            var next := BuildStep(s, launcher);
            if b.error.None? then
              && next.change == s.change.(rest := s.change.rest[1..], built := b.workers, started := b.started)
              && next.m == Spent(s.m, b) && next.round == s.round && next.clock == s.clock
              && UnderConstruction(next) == b
            else Finishes(s, b, next)
  {
  }

  lemma FinishesLater(s: System, next: System, b: Building, after: System)
    requires s.change.Constructing? && next.change.Constructing? && Finishes(next, b, after)
    requires next.change == s.change.(rest := next.change.rest, built := next.change.built,
                                      started := next.change.started)
    requires next.m == s.m.(nextGeneration := next.m.nextGeneration, nextHandle := next.m.nextHandle,
                            live := next.m.live)
    requires next.round == s.round && next.clock == s.clock
    ensures Finishes(s, b, after)
  {
  }

  lemma {:induction false} BuildsAll(s: System, launcher: Launcher)
    requires s.change.Constructing?
    ensures Finishes(s, Build(s.m.(workers := s.change.current), s.change.revision, UnderConstruction(s),
                              s.change.rest, launcher), BuildAll(s, launcher))
    decreases |s.change.rest|
  {
    if s.change.rest != [] {
      var m := s.m.(workers := s.change.current);
      var b := BuildOne(m, s.change.revision, UnderConstruction(s), s.change.rest[0], launcher);
      var next := BuildStep(s, launcher);
      BuildsOne(s, launcher);
      if b.error.None? {
        BuildsAll(next, launcher);
        var n := next.m.(workers := s.change.current);
        BuildFrame(m, n, s.change.revision, b, s.change.rest[1..], launcher);
        FinishesLater(s, next, Build(n, s.change.revision, b, s.change.rest[1..], launcher), BuildAll(next, launcher));
      }
    }
  }

  /** A build looks only at limits and entries. */
  lemma {:induction false} BuildFrame(m: Manager, n: Manager, revision: nat, b: Building, configs: seq<RuntimeConfig>,
                                      launcher: Launcher)
    requires m.limits == n.limits && m.workers == n.workers
    ensures Build(m, revision, b, configs, launcher) == Build(n, revision, b, configs, launcher)
    decreases |configs|
  {
    if configs != [] && b.error.None? {
      BuildFrame(m, n, revision, BuildOne(m, revision, b, configs[0], launcher), configs[1..], launcher);
    }
  }

  /** The manager after these were shut down. */
  function StoppedAll(m: Manager, handles: seq<Handle>): Manager {
    m.(live := m.live - Elements(handles), stopped := m.stopped + multiset(handles))
  }

  lemma StoppedOneMore(m: Manager, handles: seq<Handle>)
    requires handles != []
    ensures StoppedAll(Stop(m, handles[0]), handles[1..]) == StoppedAll(m, handles)
  {
    assert handles == [handles[0]] + handles[1..];
    assert Elements(handles) == {handles[0]} + Elements(handles[1..]);
  }

  lemma {:induction false} StopsEach(s: System, order: seq<Handle>)
    requires s.change.Replacing? && Distinct(order) && Elements(order) <= s.change.replaced
    ensures StopEach(s, order)
            == s.(m := StoppedAll(s.m, order), change := Replacing(s.change.replaced - Elements(order)))
    decreases |order|
  {
    if order == [] {
      assert StoppedAll(s.m, order) == s.m && s.change.replaced - Elements(order) == s.change.replaced;
    } else {
      var h, rest := order[0], order[1..];
      assert h in Elements(order) && h !in rest && order == [h] + rest && Elements(order) == {h} + Elements(rest);
      var next := Step(s, StopReplaced(h));
      StopsEach(next, rest);
      StoppedOneMore(s.m, order);
      assert next.change.replaced - Elements(rest) == s.change.replaced - Elements(order);
    }
  }

  lemma {:induction false} AbortsAll(s: System)
    requires s.change.Aborting?
    ensures AbortAll(s) == s.(m := StoppedAll(s.m, s.change.started), change := Quiet)
    decreases |s.change.started|
  {
    var started := s.change.started;
    if started == [] {
      assert StoppedAll(s.m, started) == s.m;
    } else {
      AbortsAll(Step(s, StopStarted));
      StoppedOneMore(s.m, started);
    }
  }

  lemma {:induction false} OrderedMultiset(order: seq<Handle>, handles: set<Handle>)
    requires Distinct(order) && Elements(order) == handles
    ensures multiset(order) == multiset(handles)
    decreases |order|
  {
    if order == [] {
      assert handles == {};
    } else {
      var h, rest := order[0], order[1..];
      assert h in Elements(order) && h !in rest && order == [h] + rest;
      assert Elements(rest) == handles - {h};
      OrderedMultiset(rest, handles - {h});
    }
  }

  /** With nothing in between, the steps of a snapshot are the snapshot as one operation. */
  lemma UndisturbedSnapshot(s: System, snapshot: RuntimeSnapshot, launcher: Launcher, order: seq<Handle>)
    requires s.change.Quiet? && Distinct(order)
    requires var o := ApplySnapshot(s.m, snapshot, launcher);
             Elements(order) == if o.error.None? then Replaced(s.m.workers, o.manager.workers) else {}
    ensures var after := WholeSnapshot(s, snapshot, launcher, order);
            && after.m == ApplySnapshot(s.m, snapshot, launcher).manager
            && after.round == s.round && after.change == Quiet && after.clock == s.clock
  {
    var begun := Step(s, BeginSnapshot(snapshot));
    if begun.change.Constructing? {
      BuildsAll(begun, launcher);
      var b := Build(s.m, snapshot.revision, EmptyBuilding(s.m), snapshot.plugins, launcher);
      assert s.m.(workers := begun.change.current) == s.m && UnderConstruction(begun) == EmptyBuilding(s.m);
      var built := BuildAll(begun, launcher);
      if b.error == Some(StartFailed) {
        AbortsAll(built);
        assert StoppedAll(built.m, b.started).live == b.live - Elements(b.started);
      } else if b.error.None? {
        StopsEach(Step(built, Swap), order);
        OrderedMultiset(order, Replaced(s.m.workers, b.workers));
        assert Replaced(s.m.workers, b.workers) - Elements(order) == {};
      }
    }
  }
}
