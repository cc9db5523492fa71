/** Runs in which a health round and a snapshot overlap. */
module OverlapRuns {
  import opened Basics
  import opened PluginManagers
  import opened Interleaving
  import opened InterleavingLaws
  import opened Overlaps
  import opened WrongCharges

  lemma RunPlus(s: System, events: seq<Event>, e: Event)
    ensures Run(s, events + [e]) == Step(Run(s, events), e)
  {
    assert (events + [e])[..|events|] == events;
  }

  lemma {:induction false} RunJoins(s: System, a: seq<Event>, b: seq<Event>)
    ensures Run(s, a + b) == Run(Run(s, a), b)
    decreases |b|
  {
    if b == [] {
      assert a + b == a;
    } else {
      var n := |b| - 1;
      RunJoins(s, a, b[..n]);
      assert (a + b)[..|a| + n] == a + b[..n];
    }
  }

  /** Nothing is under way and this plugin alone runs, as configured. */
  predicate RunsAlone(s: System, p: RuntimeConfig, h: Handle) {
    && s.round.Idle? && s.change.Quiet? && s.m.limits.maxWorkers >= 2 && s.m.limits.restartMaxAttempts >= 2
    && p.schemaVersion != 0 && p.requestedConcurrency != 0
    && s.m.workers.Keys == {KeyFor(p)} && s.m.workers[KeyFor(p)].worker == Some(h)
    && Reusable(s.m.workers[KeyFor(p)], p, Min(p.requestedConcurrency, s.m.limits.maxConcurrency))
    && s.m.workers[KeyFor(p)].failures == []
  }

  lemma RunFour(s: System, a: Event, b: Event, c: Event, d: Event)
    ensures Run(s, [a, b, c, d]) == Step(Step(Step(Step(s, a), b), c), d)
  {
    assert Run(s, []) == s && [] + [a] == [a];
    RunPlus(s, [], a);
    assert [a] + [b] == [a, b] && [a, b] + [c] == [a, b, c] && [a, b, c] + [d] == [a, b, c, d];
    RunPlus(s, [a], b);
    RunPlus(s, [a, b], c);
    RunPlus(s, [a, b, c], d);
  }

  /** The first snapshot of an Agent. */
  lemma FirstBuild(limits: RuntimeLimits, p: RuntimeConfig, launcher: Launcher)
    requires limits.maxWorkers >= 2 && p.schemaVersion != 0
    requires Launch(launcher, p, Min(p.requestedConcurrency, limits.maxConcurrency)).Some?
    ensures var s := Step(Step(Initial(limits), BeginSnapshot(RuntimeSnapshot(1, [p]))), BuildNext(launcher));
            && s.change.Constructing? && s.change.rest == [] && s.change.built.Keys == {KeyFor(p)}
            && s.change.built[KeyFor(p)].worker == Some(0) && s.change.built[KeyFor(p)].failures == []
            && Reusable(s.change.built[KeyFor(p)], p, Min(p.requestedConcurrency, limits.maxConcurrency))
            && s.m == Initial(limits).m.(nextHandle := 1, nextGeneration := 2, live := {0})
            && s.round.Idle? && s.clock == 0
  {
    var begun := Step(Initial(limits), BeginSnapshot(RuntimeSnapshot(1, [p])));
    assert begun.change == Constructing(1, map[], [p], map[], []);
    assert [p][1..] == [] && {} + {0} == {0};
  }

  lemma FirstSnapshot(limits: RuntimeLimits, p: RuntimeConfig, launcher: Launcher) returns (events: seq<Event>)
    requires limits.maxWorkers >= 2 && limits.restartMaxAttempts >= 2 && p.schemaVersion != 0
    requires Launch(launcher, p, Min(p.requestedConcurrency, limits.maxConcurrency)).Some?
    ensures var s := Run(Initial(limits), events);
            && RunsAlone(s, p, 0) && s.m.limits == limits && s.m.nextHandle == 1 && s.m.live == {0}
            && s.m.stopped == multiset{} && s.clock == 0
  {
    events := [BeginSnapshot(RuntimeSnapshot(1, [p])), BuildNext(launcher), Swap, EndSnapshot];
    RunFour(Initial(limits), events[0], events[1], events[2], events[3]);
    FirstBuild(limits, p, launcher);
    var s := Step(Step(Initial(limits), events[0]), events[1]);
    assert Replaced(s.m.workers, s.change.built) == {};
  }

  /** The round finds the one Worker it has left dead. */
  lemma LookFails(s: System, key: PluginKey, h: Handle)
    requires s.round.Turn? && s.round.left.Keys == {key} && s.round.left[key].worker == Some(h)
    ensures Step(s, Look(key, Exited))
            == s.(m := Stop(s.m, h), round := Reporting(map[], key, s.round.left[key].generation, h))
  {
    assert s.round.left - {key} == map[];
  }

  /** A first failure is recorded: the entry waits one second for its restart. */
  lemma ReportFails(s: System, key: PluginKey)
    requires s.round.Reporting? && s.round.key == key && key in s.m.workers && s.m.limits.restartMaxAttempts >= 2
    requires s.m.workers[key].generation == s.round.generation && s.m.workers[key].failures == []
    ensures var t := Step(s, Report);
            && t == s.(m := t.m, round := Turn(s.round.left))
            && t.m == s.m.(workers := t.m.workers, history := t.m.history)
            && t.m.workers == s.m.workers[key := t.m.workers[key]]
            && t.m.workers[key].worker.None? && t.m.workers[key].state.Restarting?
            && t.m.workers[key].generation == s.round.generation
            && t.m.workers[key].nextRestart == Some(s.clock + 1)
            && ConfigOf(key, t.m.workers[key]) == ConfigOf(key, s.m.workers[key])
  {
    assert InWindow([], s.clock, s.m.limits.restartWindow) + [s.clock] == [s.clock];
    assert RestartDelay(1) == 1;
  }

  /** A round in which the one Worker fails. */
  lemma FailingRound(s: System, p: RuntimeConfig, h: Handle) returns (events: seq<Event>)
    requires s.round.Idle? && s.m.workers.Keys == {KeyFor(p)} && s.m.workers[KeyFor(p)].worker == Some(h)
    requires s.m.workers[KeyFor(p)].failures == [] && s.m.limits.restartMaxAttempts >= 2
    ensures var t := Run(s, events);
            var w := t.m.workers;
            && t == s.(m := t.m) && t.m == Stop(s.m, h).(workers := w, history := t.m.history)
            && w.Keys == {KeyFor(p)} && w[KeyFor(p)].worker.None? && w[KeyFor(p)].state.Restarting?
            && w[KeyFor(p)].generation == s.m.workers[KeyFor(p)].generation
            && w[KeyFor(p)].nextRestart == Some(s.clock + 1)
            && ConfigOf(KeyFor(p), w[KeyFor(p)]) == ConfigOf(KeyFor(p), s.m.workers[KeyFor(p)])
  {
    var key := KeyFor(p);
    events := [BeginRound, Look(key, Exited), Report, EndRound];
    RunFour(s, events[0], events[1], events[2], events[3]);
    var s1 := Step(s, BeginRound);
    LookFails(s1, key, h);
    var s2 := Step(s1, Look(key, Exited));
    ReportFails(s2, key);
  }

  lemma RunOne(s: System, e: Event)
    ensures Run(s, [e]) == Step(s, e)
  {
    assert Run(s, []) == s && [] + [e] == [e];
    RunPlus(s, [], e);
  }

  /** The one configuration is reused from the copy. */
  lemma BuildReuses(s: System, p: RuntimeConfig, launcher: Launcher)
    requires s.change.Constructing? && s.change.rest == [p] && s.change.built == map[] && s.change.started == []
    requires p.schemaVersion != 0 && p.requestedConcurrency != 0 && KeyFor(p) in s.change.current
    requires Reusable(s.change.current[KeyFor(p)], p, Min(p.requestedConcurrency, s.m.limits.maxConcurrency))
    ensures var t := Step(s, BuildNext(launcher));
            && t == s.(change := s.change.(rest := [], built := t.change.built)) && t.change.built.Keys == {KeyFor(p)}
            && var w := t.change.built[KeyFor(p)];
               && w.worker == s.change.current[KeyFor(p)].worker
               && w.generation == s.change.current[KeyFor(p)].generation && w.failures == []
               && Reusable(w, p, Min(p.requestedConcurrency, s.m.limits.maxConcurrency))
  {
    assert [p][1..] == [];
  }

  /** The copy is put back as it was. */
  lemma PutBack(s: System, p: RuntimeConfig, launcher: Launcher) returns (events: seq<Event>)
    requires s.change.Constructing? && s.change.rest == [p] && s.change.built == map[] && s.change.started == []
    requires p.schemaVersion != 0 && p.requestedConcurrency != 0 && KeyFor(p) in s.change.current
    requires Reusable(s.change.current[KeyFor(p)], p, Min(p.requestedConcurrency, s.m.limits.maxConcurrency))
    ensures var t := Run(s, events);
            && t.round == s.round && t.clock == s.clock && t.seen == s.seen
            && t.change == Replacing(Replaced(s.m.workers, t.m.workers))
            && t.m == s.m.(workers := t.m.workers, history := t.m.history)
            && t.m.workers.Keys == {KeyFor(p)}
            && t.m.workers[KeyFor(p)].worker == s.change.current[KeyFor(p)].worker
            && t.m.workers[KeyFor(p)].generation == s.change.current[KeyFor(p)].generation
            && Reusable(t.m.workers[KeyFor(p)], p, Min(p.requestedConcurrency, s.m.limits.maxConcurrency))
            && t.m.workers[KeyFor(p)].failures == []
  {
    BuildReuses(s, p, launcher);
    RunOne(s, BuildNext(launcher));
    events := [BuildNext(launcher)] + [Swap];
    RunPlus(s, [BuildNext(launcher)], Swap);
  }

  /** Once more around: a snapshot makes its copy; a round finds the Worker dead, shuts it down and records the
      failure; and the snapshot puts the Worker back as running. */
  lemma AroundOnce(s: System, p: RuntimeConfig, h: Handle, launcher: Launcher) returns (events: seq<Event>)
    requires RunsAlone(s, p, h)
    ensures var t := Run(s, events);
            && RunsAlone(t, p, h) && t.m.stopped[h] == s.m.stopped[h] + 1 && DeadKeys(t) == {KeyFor(p)}
  {
    var begin := BeginSnapshot(RuntimeSnapshot(1, [p]));
    RunOne(s, begin);
    var s1 := Step(s, begin);
    var a := FailingRound(s1, p, h);
    var s2 := Run(s1, a);
    var b := PutBack(s2, p, launcher);
    var s3 := Run(s2, b);
    assert Replaced(s2.m.workers, s3.m.workers) == {};
    RunJoins(s, [begin], a);
    RunJoins(s, [begin] + a, b);
    events := [begin] + a + b + [EndSnapshot];
    RunPlus(s, [begin] + a + b, EndSnapshot);
  }

  /** There is no bound on how often one process is shut down. */
  lemma {:induction false} AnyNumberOfTimes(limits: RuntimeLimits, p: RuntimeConfig, launcher: Launcher, n: nat)
    returns (events: seq<Event>)
    requires limits.maxWorkers >= 2 && limits.restartMaxAttempts >= 2 && p.schemaVersion != 0
    requires Launch(launcher, p, Min(p.requestedConcurrency, limits.maxConcurrency)).Some?
    ensures var s := Run(Initial(limits), events);
            RunsAlone(s, p, 0) && s.m.stopped[0] == n && (n > 0 ==> DeadKeys(s) == {KeyFor(p)})
  {
    if n == 0 {
      events := FirstSnapshot(limits, p, launcher);
    } else {
      var before := AnyNumberOfTimes(limits, p, launcher, n - 1);
      var s := Run(Initial(limits), before);
      var more := AroundOnce(s, p, 0, launcher);
      RunJoins(Initial(limits), before, more);
      events := before + more;
    }
  }

  // ----- a dead process beside a new one -----

  /** The copy of one plugin is put back while another is launched. */
  lemma BuildBoth(s: System, p: RuntimeConfig, q: RuntimeConfig, launcher: Launcher)
    requires s.change.Constructing? && s.change.rest == [p, q] && s.change.built == map[] && s.change.started == []
    requires p.schemaVersion != 0 && p.requestedConcurrency != 0 && KeyFor(p) in s.change.current
    requires Reusable(s.change.current[KeyFor(p)], p, Min(p.requestedConcurrency, s.m.limits.maxConcurrency))
    requires q.schemaVersion != 0 && KeyFor(q) !in s.change.current && KeyFor(q) != KeyFor(p)
    requires Launch(launcher, q, Min(q.requestedConcurrency, s.m.limits.maxConcurrency)).Some?
    ensures var t := Step(Step(s, BuildNext(launcher)), BuildNext(launcher));
            && t.change.Constructing? && t.change.rest == [] && t.round == s.round
            && KeyFor(p) in t.change.built && t.change.built[KeyFor(p)].state.Running?
            && t.change.built[KeyFor(p)].worker == s.change.current[KeyFor(p)].worker
            && t.m.workers == s.m.workers && t.m.stopped == s.m.stopped && t.m.live == s.m.live + {s.m.nextHandle}
  {
    assert [p, q][1..] == [q] && [q][1..] == [];
    var one := Step(s, BuildNext(launcher));
    assert one.change.rest == [q] && one.m == s.m && KeyFor(q) !in one.change.built;
  }

  /** A snapshot asks for a plugin as it runs and for a new one. While the new one starts, a round shuts the first
      down and records its failure. The swap makes it run again with its dead process, nothing being reported;
      and the next round shuts that down a second time while the entry holds it. */
  lemma DeadPutBack(limits: RuntimeLimits, p: RuntimeConfig, q: RuntimeConfig, launcher: Launcher)
    returns (events: seq<Event>, more: seq<Event>)
    requires limits.maxWorkers >= 2 && limits.restartMaxAttempts >= 2 && KeyFor(q) != KeyFor(p)
    requires p.schemaVersion != 0 && Launch(launcher, p, Min(p.requestedConcurrency, limits.maxConcurrency)).Some?
    requires q.schemaVersion != 0 && Launch(launcher, q, Min(q.requestedConcurrency, limits.maxConcurrency)).Some?
    ensures var s := Run(Initial(limits), events);
            var t := Run(Initial(limits), events + more);
            && s.round.Idle? && Holds(s.m, KeyFor(p), 0) && s.m.workers[KeyFor(p)].state.Running? && 0 !in s.m.live
            && s.m.stopped[0] == 1 && Holds(t.m, KeyFor(p), 0) && t.m.stopped[0] == 2
  {
    var s0, key := Initial(limits), KeyFor(p);
    var first := FirstSnapshot(limits, p, launcher);
    var s1 := Run(s0, first);
    var begin := BeginSnapshot(RuntimeSnapshot(2, [p, q]));
    RunPlus(s0, first, begin);
    var s2 := Step(s1, begin);
    var failing := FailingRound(s2, p, 0);
    var s3 := Run(s2, failing);
    RunJoins(s0, first + [begin], failing);
    var copied := first + [begin] + failing;
    RunPlus(s0, copied, BuildNext(launcher));
    RunPlus(s0, copied + [BuildNext(launcher)], BuildNext(launcher));
    RunPlus(s0, copied + [BuildNext(launcher)] + [BuildNext(launcher)], Swap);
    BuildBoth(s3, p, q, launcher);
    events := copied + [BuildNext(launcher)] + [BuildNext(launcher)] + [Swap];
    more := [BeginRound] + [Look(key, Exited)];
    RunPlus(s0, events, BeginRound);
    RunPlus(s0, events + [BeginRound], Look(key, Exited));
    assert events + more == events + [BeginRound] + [Look(key, Exited)];
  }

  // ----- a failure charged to another process -----

  /** A restart that is due brings the plugin back under the same generation. */
  lemma RestartedUnder(s: System, p: RuntimeConfig) returns (events: seq<Event>)
    requires s.round.Idle? && s.m.workers.Keys == {KeyFor(p)} && s.m.workers[KeyFor(p)].worker.None?
    requires s.m.workers[KeyFor(p)].state.Restarting? && s.m.workers[KeyFor(p)].nextRestart == Some(s.clock)
    ensures var t := Run(s, events);
            && t.round.Idle? && t.change == s.change && t.m.limits == s.m.limits
            && t.m.workers.Keys == {KeyFor(p)} && t.m.workers[KeyFor(p)].worker == Some(s.m.nextHandle)
            && t.m.workers[KeyFor(p)].generation == s.m.workers[KeyFor(p)].generation
  {
    var key := KeyFor(p);
    events := [BeginRound, Look(key, Alive), Finish(Some(1)), EndRound];
    RunFour(s, events[0], events[1], events[2], events[3]);
    var s1 := Step(s, BeginRound);
    assert s.m.workers - {key} == map[];
    assert Claims(s1, key, s1.m.workers[key]);
    var s2 := Step(s1, Look(key, Alive));
    assert s2.round == Starting(map[], key, s.m.workers[key].generation, ConfigOf(key, s.m.workers[key]));
  }

  /** A plugin is restarted behind a snapshot's copy and copied by a round; the swap puts the old process back under
      the same generation; and what the round then reports of the new one is charged to the entry that holds the
      old one. */
  lemma ChargedToAnother(limits: RuntimeLimits, p: RuntimeConfig, launcher: Launcher) returns (events: seq<Event>)
    requires limits.maxWorkers >= 2 && limits.restartMaxAttempts >= 2 && p.schemaVersion != 0
    requires Launch(launcher, p, Min(p.requestedConcurrency, limits.maxConcurrency)).Some?
    ensures var s := Run(Initial(limits), events);
            Mischarges(s, Report) && s.round.handle == 1 && Holds(s.m, KeyFor(p), 0)
  {
    var s0, key := Initial(limits), KeyFor(p);
    var first := FirstSnapshot(limits, p, launcher);
    var s1 := Run(s0, first);
    var begin := BeginSnapshot(RuntimeSnapshot(2, [p]));
    RunPlus(s0, first, begin);
    var failing := FailingRound(Step(s1, begin), p, 0);
    RunJoins(s0, first + [begin], failing);
    var copied := first + [begin] + failing;
    RunPlus(s0, copied, Pass(1));
    var s2 := Run(s0, copied + [Pass(1)]);
    var restarted := RestartedUnder(s2, p);
    RunJoins(s0, copied + [Pass(1)], restarted);
    var running := copied + [Pass(1)] + restarted;
    RunPlus(s0, running, BeginRound);
    var s3 := Run(s0, running + [BeginRound]);
    var back := PutBack(s3, p, launcher);
    RunJoins(s0, running + [BeginRound], back);
    var swapped := running + [BeginRound] + back;
    events := swapped + [Look(key, Exited)];
    RunPlus(s0, swapped, Look(key, Exited));
    LookFails(Run(s0, swapped), key, 1);
  }
}
