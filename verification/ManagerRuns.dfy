/** The plugin manager over whole runs, and its pause notices. */
module ManagerRuns {
  import opened Basics
  import opened PluginManagers
  import opened ManagerLaws
  import opened SnapshotLaws

  datatype Event =
    | TakeSnapshot(snapshot: RuntimeSnapshot, launcher: Launcher)
    | PollWorkers(order: seq<PluginKey>, health: PluginKey -> Health, launcher: Launcher, now: nat)
    | Acknowledge(ack: PauseAck)
    | MarkSent(keys: set<PluginKey>)
    | ResetDelivery
    | StopAll

  function Step(m: Manager, e: Event): Manager {
    match e
    case TakeSnapshot(snapshot, launcher) => ApplySnapshot(m, snapshot, launcher).manager
    case PollWorkers(order, health, launcher, now) => PollHealth(m, order, health, launcher, now)
    case Acknowledge(ack) => AcknowledgePause(m, ack)
    case MarkSent(keys) => m.(sent := m.sent + keys)
    case ResetDelivery => m.(sent := {})
    case StopAll => ShutdownAll(m)
  }

  function InitialManager(limits: RuntimeLimits): Manager {
    Manager(limits, map[], map[], {}, 1, 0, {}, multiset{}, map[])
  }

  function Run(limits: RuntimeLimits, events: seq<Event>): Manager
    decreases |events|
  {
    if events == [] then InitialManager(limits)
    else Step(Run(limits, events[..|events| - 1]), events[|events| - 1])
  }

  /** The time of the last poll. */
  function Clock(events: seq<Event>): nat
    decreases |events|
  {
    if events == [] then 0
    else if events[|events| - 1].PollWorkers? then events[|events| - 1].now
    else Clock(events[..|events| - 1])
  }

  /** Time does not run backwards and no entry is polled twice in one round. */
  ghost predicate Timely(events: seq<Event>) {
    forall i :: 0 <= i < |events| && events[i].PollWorkers? ==>
      Distinct(events[i].order) && Clock(events[..i]) <= events[i].now
  }

  lemma SameWorkerKeeps(m: Manager, after: Manager, key: PluginKey)
    requires ProcessesOk(m) && EntryReplaced(m, after, key) && after.workers[key].worker == m.workers[key].worker
    requires after.live == m.live && after.stopped == m.stopped && after.nextHandle == m.nextHandle
    ensures ProcessesOk(after)
  {
    HandlesUpdate(m.workers, key, after.workers[key]);
    if m.workers[key].worker.Some? { assert m.workers[key].worker.value in Handles(m.workers); }
    assert Handles(after.workers) == Handles(m.workers);
  }

  lemma FlagReplaces(m: Manager, after: Manager, key: PluginKey)
    requires key in m.workers && EntryOk(m.limits, m.workers[key], HistoryOf(m, key))
    requires after
             == m.(workers := m.workers[key := m.workers[key].(acknowledged := true)], notices := after.notices,
                   sent := after.sent)
    ensures EntryReplaced(m, after, key) && forall k :: HistoryOf(after, k) == HistoryOf(m, k)
  {
    assert forall k :: HistoryOf(after, k) == HistoryOf(m, k);
  }

  lemma AckKeeps(m: Manager, ack: PauseAck, now: nat)
    requires Inv(m) && Past(m, now)
    ensures Inv(AcknowledgePause(m, ack)) && Past(AcknowledgePause(m, ack), now)
  {
    var after := AcknowledgePause(m, ack);
    if ack.accepted && ack.key in m.workers && m.workers[ack.key].configRevision == ack.runtimeRevision {
      FlagReplaces(m, after, ack.key);
      EntryReplacedKeeps(m, after, ack.key);
      SameWorkerKeeps(m, after, ack.key);
    } else {
      assert forall k :: HistoryOf(after, k) == HistoryOf(m, k);
    }
  }

  lemma StopAllKeeps(m: Manager)
    requires Inv(m)
    ensures Inv(ShutdownAll(m))
  {
    var after := ShutdownAll(m);
    assert Handles(after.workers) == {};
    forall h ensures after.stopped[h] <= 1 {
      if h in Handles(m.workers) { assert h in m.live; }
    }
  }

  lemma TakeSnapshotKeeps(m: Manager, snapshot: RuntimeSnapshot, launcher: Launcher, clock: nat)
    requires Inv(m) && Past(m, clock)
    ensures Inv(ApplySnapshot(m, snapshot, launcher).manager)
    ensures Past(ApplySnapshot(m, snapshot, launcher).manager, clock)
  {
    var after := ApplySnapshot(m, snapshot, launcher).manager;
    if ApplySnapshot(m, snapshot, launcher).error.Some? {
      SnapshotFails(m, snapshot, launcher);
      assert forall key :: HistoryOf(after, key) == HistoryOf(m, key);
    } else {
      SnapshotSucceeds(m, snapshot, launcher);
    }
  }

  lemma StepKeeps(m: Manager, e: Event, clock: nat)
    requires Inv(m) && Past(m, clock)
    requires e.PollWorkers? ==> Distinct(e.order) && clock <= e.now
    ensures Inv(Step(m, e)) && Past(Step(m, e), if e.PollWorkers? then e.now else clock)
  {
    match e {
      case TakeSnapshot(snapshot, launcher) => TakeSnapshotKeeps(m, snapshot, launcher, clock);
      case PollWorkers(order, health, launcher, now) => PollKeeps(m, m.workers, order, health, launcher, now);
      case Acknowledge(ack) => AckKeeps(m, ack, clock);
      case MarkSent(keys) =>
        assert forall key :: HistoryOf(Step(m, e), key) == HistoryOf(m, key);
      case ResetDelivery =>
        assert forall key :: HistoryOf(Step(m, e), key) == HistoryOf(m, key);
      case StopAll => StopAllKeeps(m);
    }
  }

  /** In every reachable state: each entry's deque is its failure history cut to the window, it is paused
      exactly when that reaches the limit, it has a Worker exactly when it runs, generations and processes
      are not shared, every process launched is alive or was shut down once, and every entry that runs holds
      a live one. */
  lemma {:induction false} InvInEveryState(limits: RuntimeLimits, events: seq<Event>)
    requires Timely(events)
    ensures Inv(Run(limits, events)) && Past(Run(limits, events), Clock(events))
    decreases |events|
  {
    if events == [] {
      assert Handles(InitialManager(limits).workers) == {};
    } else {
      var n := |events| - 1;
      var before := events[..n];
      forall i | 0 <= i < n && before[i].PollWorkers?
        ensures Distinct(before[i].order) && Clock(before[..i]) <= before[i].now
      {
        assert before[..i] == events[..i] && before[i] == events[i];
      }
      InvInEveryState(limits, before);
      StepKeeps(Run(limits, before), events[n], Clock(before));
    }
  }

  // ----- pause notices -----

  /** The notice says what happened to the entry: its runtime revision, how many failures, since when, and when it
      was paused. */
  ghost predicate Describes(n: PauseNotice, w: ManagedWorker) {
    && n.runtimeRevision == w.configRevision && n.failureCount == |w.failures|
    && Some(n.windowStarted) == w.windowStarted && Some(n.pausedAt) == w.pausedAt
  }

  /** Every paused entry either still has a notice for the Server that describes it or was acknowledged. */
  ghost predicate NoticesOk(m: Manager) {
    forall key :: key in m.workers && m.workers[key].state.Paused? ==>
      m.workers[key].acknowledged || (key in m.notices && Describes(m.notices[key], m.workers[key]))
  }

  /** An accepted acknowledgement keeps that promise exactly unless it names another runtime revision than
      the paused entry: a late answer to an older pause withdraws the notice of the newer one. */
  lemma AckKeepsNoticesIff(m: Manager, ack: PauseAck)
    requires NoticesOk(m)
    ensures NoticesOk(AcknowledgePause(m, ack)) <==>
              !(&& ack.accepted && ack.key in m.workers && m.workers[ack.key].state.Paused?
                && !m.workers[ack.key].acknowledged && m.workers[ack.key].configRevision != ack.runtimeRevision)
    ensures var after := AcknowledgePause(m, ack);
            && (!ack.accepted ==> after == m)
            && (ack.accepted ==> ack.key !in after.notices && ack.key !in after.sent)
            && after.notices - {ack.key} == m.notices - {ack.key} && after.sent - {ack.key} == m.sent - {ack.key}
            && after.workers - {ack.key} == m.workers - {ack.key}
  {
    var after := AcknowledgePause(m, ack);
    if ack.accepted && ack.key in m.workers && m.workers[ack.key].state.Paused?
       && !m.workers[ack.key].acknowledged && m.workers[ack.key].configRevision != ack.runtimeRevision
    {
      assert ack.key in after.workers && ack.key !in after.notices;
    }
  }

  lemma FailureKeepsNotices(m: Manager, key: PluginKey, generation: nat, now: nat)
    requires NoticesOk(m)
    ensures NoticesOk(RecordFailure(m, key, generation, now))
    ensures key in m.workers && m.workers[key].generation == generation
            && Failed(m.limits, m.workers[key], now).state.Paused? ==>
              key in PendingNotices(RecordFailure(m, key, generation, now))
  {
  }

  lemma PollOneKeepsNotices(m: Manager, key: PluginKey, entry: ManagedWorker, health: Health, launcher: Launcher,
                            now: nat)
    requires NoticesOk(m)
    ensures NoticesOk(PollOne(m, key, entry, health, launcher, now))
  {
    if entry.worker.Some? {
      FailureKeepsNotices(Stop(m, entry.worker.value), key, entry.generation, now);
    } else if CanRestart(m, key, entry.generation) {
      var begun := BeginRestart(m, key, entry.generation);
      assert NoticesOk(begun);
      FailureKeepsNotices(begun, key, entry.generation, now);
    }
  }

  lemma {:induction false} PollKeepsNotices(m: Manager, entries: map<PluginKey, ManagedWorker>, order: seq<PluginKey>,
                                            health: PluginKey -> Health, launcher: Launcher, now: nat)
    requires NoticesOk(m)
    ensures NoticesOk(Poll(m, entries, order, health, launcher, now))
    decreases |order|
  {
    if order != [] {
      var next := if order[0] in entries then PollOne(m, order[0], entries[order[0]], health(order[0]), launcher, now)
          else m;
      if order[0] in entries { PollOneKeepsNotices(m, order[0], entries[order[0]], health(order[0]), launcher, now); }
      PollKeepsNotices(next, entries, order[1..], health, launcher, now);
    }
  }

  /** Acknowledgements answer the pause they were asked about. */
  ghost predicate Matching(m: Manager, e: Event) {
    e.Acknowledge? && e.ack.accepted && e.ack.key in m.workers && m.workers[e.ack.key].state.Paused? ==>
      m.workers[e.ack.key].configRevision == e.ack.runtimeRevision
  }

  lemma NoticesStep(m: Manager, e: Event)
    requires Inv(m) && NoticesOk(m) && Matching(m, e)
    ensures NoticesOk(Step(m, e))
  {
    match e {
      case TakeSnapshot(snapshot, launcher) => SnapshotAllOrNothing(m, snapshot, launcher);
      case PollWorkers(order, health, launcher, now) => PollKeepsNotices(m, m.workers, order, health, launcher, now);
      case Acknowledge(ack) => AckKeepsNoticesIff(m, ack);
      case MarkSent(_) =>
      case ResetDelivery =>
      case StopAll =>
    }
  }

  /** With matching acknowledgements no pause goes unreported, in any reachable state. */
  lemma {:induction false} PausesStayReported(limits: RuntimeLimits, events: seq<Event>)
    requires Timely(events) && forall i :: 0 <= i < |events| ==> Matching(Run(limits, events[..i]), events[i])
    ensures NoticesOk(Run(limits, events))
    decreases |events|
  {
    if events != [] {
      var n := |events| - 1;
      var before := events[..n];
      assert forall i :: 0 <= i < n ==> before[..i] == events[..i] && before[i] == events[i];
      assert Timely(before);
      PausesStayReported(limits, before);
      InvInEveryState(limits, before);
      assert Matching(Run(limits, before), events[n]);
      NoticesStep(Run(limits, before), events[n]);
    }
  }
}
