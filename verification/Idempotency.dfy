/** The idempotency window: a remembered command answers as it first did, without touching the
    Scheduler, until exactly 1024 later results have been remembered. */
module Idempotency {
  import opened Basics
  import opened Scheduling
  import opened Definitions
  import opened JobPolicy
  import opened RemoteJobs
  import opened Runs

  /** The eviction queue lists the remembered ids, each once, and never more than the capacity. */
  ghost predicate CacheInv(c: Controller) {
    && Distinct(c.cacheOrder) && Elements(c.cacheOrder) == c.cached.Keys
    && |c.cacheOrder| <= CACHE_CAPACITY
    && (forall id :: id in c.cached ==> |id| == 16)
  }

  lemma QueueAppend(order: seq<Bytes>, id: Bytes)
    requires Distinct(order) && id !in Elements(order)
    ensures Distinct(order + [id]) && Elements(order + [id]) == Elements(order) + {id}
  {
    assert id !in order;
  }

  lemma QueueDropFirst(order: seq<Bytes>)
    requires Distinct(order) && order != []
    ensures Distinct(order[1..]) && Elements(order[1..]) == Elements(order) - {order[0]}
  {
    assert order == [order[0]] + order[1..];
    assert order[0] !in order[1..];
  }

  /** `after` remembers one more result, and has forgotten the oldest if there was no room. */
  ghost predicate RecordedOne(c: Controller, after: Controller, id: Bytes, result: CommandResult) {
    var full := |c.cacheOrder| == CACHE_CAPACITY;
    && after.cacheOrder == c.cacheOrder[if full then 1 else 0..] + [id]
    && after.cached == c.cached[id := result] - (if full then {c.cacheOrder[0]} else {})
  }

  /** Remembering a new id drops the oldest one when, and only when, the cache is full. */
  lemma RememberRecords(c: Controller, id: Bytes, result: CommandResult)
    requires |c.cacheOrder| <= CACHE_CAPACITY
    ensures RecordedOne(c, Remember(c, id, result), id, result)
  {
    var order := c.cacheOrder + [id];
    if |c.cacheOrder| == CACHE_CAPACITY {
      assert order[..1] == [c.cacheOrder[0]] && Elements(order[..1]) == {c.cacheOrder[0]};
      assert order[1..] == c.cacheOrder[1..] + [id];
    } else {
      assert order[..0] == [] && Elements(order[..0]) == {} && order[0..] == order;
      assert c.cacheOrder[0..] == c.cacheOrder;
    }
  }

  lemma RecordedKeeps(c: Controller, after: Controller, id: Bytes, result: CommandResult)
    requires CacheInv(c) && id !in c.cached && |id| == 16 && RecordedOne(c, after, id, result)
    ensures CacheInv(after)
  {
    if |c.cacheOrder| == CACHE_CAPACITY {
      QueueDropFirst(c.cacheOrder);
      QueueAppend(c.cacheOrder[1..], id);
      assert after.cached.Keys == c.cached.Keys + {id} - {c.cacheOrder[0]};
      assert c.cacheOrder[0] in Elements(c.cacheOrder);
    } else {
      QueueAppend(c.cacheOrder, id);
      assert c.cacheOrder[0..] == c.cacheOrder;
      assert after.cached.Keys == c.cached.Keys + {id};
    }
  }

  lemma RememberKeeps(c: Controller, id: Bytes, result: CommandResult)
    requires CacheInv(c) && id !in c.cached && |id| == 16
    ensures CacheInv(Remember(c, id, result)) && RecordedOne(c, Remember(c, id, result), id, result)
  {
    RememberRecords(c, id, result);
    RecordedKeeps(c, Remember(c, id, result), id, result);
  }

  lemma {:induction false} DisableEachSameCache(c: Controller, ids: seq<JobId>)
    ensures SameCache(c, DisableEach(c, ids).controller)
    decreases |ids|
  {
    if ids != [] {
      if ids[0] !in c.owned {
        DisableEachSameCache(c, ids[1..]);
      } else {
        var id := ids[0];
        var disabled := DisableJob(c.scheduler, id, c.owned[id].generation);
        if disabled.Ok? {
          DisableEachSameCache(c.(scheduler := disabled.value,
                                  owned := c.owned[id := c.owned[id].(generation := VersionOf(disabled.value, id))]),
                             ids[1..]);
        }
      }
    }
  }

  lemma {:induction false} DeleteEachSameCache(c: Controller, order: seq<JobId>)
    ensures SameCache(c, DeleteEach(c, order).controller)
    decreases |order|
  {
    if order != [] {
      if order[0] !in c.owned {
        DeleteEachSameCache(c, order[1..]);
      } else {
        var deleted := DeleteJob(c.scheduler, order[0], c.owned[order[0]].generation);
        if deleted.Ok? {
          DeleteEachSameCache(c.(scheduler := deleted.value, owned := c.owned - {order[0]}), order[1..]);
        }
      }
    }
  }

  /** Whether an event adds a result to the cache. */
  predicate Records(c: Controller, e: Event) {
    && e.Receive?
    && ParseUuid(e.command.commandId).Some? && e.command.commandId !in c.cached
    && ShouldCache(Execute(c, e.command.action, e.env).verdict)
  }

  /** The result a first execution of a command produces. */
  function FirstResult(c: Controller, command: Command, env: Surroundings): CommandResult {
    var o := Execute(c, command.action, env);
    CommandResult(command.commandId, o.verdict, o.controller.catalogRevision)
  }

  lemma ReceiveCache(c: Controller, command: Command, env: Surroundings)
    requires CacheInv(c)
    ensures var after := ApplyCommand(c, command, env).controller;
            && CacheInv(after)
            && if Records(c, Receive(command, env)) then
              RecordedOne(c, after, command.commandId, FirstResult(c, command, env))
               else SameCache(c, after)
  {
    ExecuteSameCache(c, command.action, env);
    if Records(c, Receive(command, env)) {
      RememberKeeps(Execute(c, command.action, env).controller, command.commandId, FirstResult(c, command, env));
    }
  }

  /** Which results are kept: all but those of failures that may pass with time. A kept one costs at most the oldest,
      and only when there are 1024 already. */
  ghost predicate Kept(c: Controller, id: Bytes, result: CommandResult, after: Controller) {
    if result.verdict == Rejected(SchedulerUnavailable) || result.verdict == Rejected(CapacityExceeded) then
      SameCache(c, after)
    else
      && id in after.cached && after.cached[id] == result
      && 0 < |after.cacheOrder| <= 1024 && after.cacheOrder[|after.cacheOrder| - 1] == id
      && (forall other :: other in after.cached && other != id ==>
            other in c.cached && after.cached[other] == c.cached[other])
      && (forall other :: other in c.cached && other !in after.cached ==>
            |c.cacheOrder| == 1024 && other == c.cacheOrder[0])
  }

  /** What a command is answered, whatever it is: an id that is no UUID is refused, a remembered one gets its old
      answer, and neither changes anything; any other is executed, and its result is kept or not. */
  lemma CommandAnswer(c: Controller, command: Command, env: Surroundings)
    requires CacheInv(c)
    ensures var a := ApplyCommand(c, command, env);
            var id := command.commandId;
            if |id| != 16 then a == Answer(c, CommandResult(id, Rejected(InvalidCommand), 0))
            else if id in c.cached then a == Answer(c, c.cached[id])
            else
              var o := Execute(c, command.action, env);
              && a.result == CommandResult(id, o.verdict, o.controller.catalogRevision)
              && SameCore(o.controller, a.controller) && Kept(c, id, a.result, a.controller)
  {
    if Executes(c, command) {
      var o := Execute(c, command.action, env);
      ExecuteSameCache(c, command.action, env);
      AnswerKept(c, command, o);
      assert ApplyCommand(c, command, env) == AnswerOf(command, o);
    }
  }

  lemma AnswerKept(c: Controller, command: Command, o: Outcome)
    requires CacheInv(c) && Executes(c, command) && SameCache(c, o.controller)
    ensures var a := AnswerOf(command, o);
            && a.result == CommandResult(command.commandId, o.verdict, o.controller.catalogRevision)
            && SameCore(o.controller, a.controller) && Kept(c, command.commandId, a.result, a.controller)
  {
    var result := CommandResult(command.commandId, o.verdict, o.controller.catalogRevision);
    if ShouldCache(o.verdict) {
      RememberRecords(o.controller, command.commandId, result);
      RecordedIsKept(c, Remember(o.controller, command.commandId, result), command.commandId, result);
    }
  }

  lemma RecordedIsKept(c: Controller, after: Controller, id: Bytes, result: CommandResult)
    requires CacheInv(c) && id !in c.cached && RecordedOne(c, after, id, result)
    requires result.verdict != Rejected(SchedulerUnavailable) && result.verdict != Rejected(CapacityExceeded)
    ensures Kept(c, id, result, after)
  {
    assert |c.cacheOrder| > 0 ==> c.cacheOrder[0] in Elements(c.cacheOrder);
  }

  lemma OtherEventsSameCache(c: Controller, e: Event)
    requires !e.Receive?
    ensures SameCache(c, Step(c, e))
  {
    match e {
      case ChangePolicy(change, saved, order) =>
        var applied := ApplyChange(c.policy, change, saved);
        if applied.Ok? {
          var changed := c.(policy := applied.value);
          DisableEachSameCache(changed, DeniedIds(changed, order));
        }
      case Pause(key, order) => DisableEachSameCache(c, PluginIds(c, key, order));
      case Resume(_) =>
      case Clear(order) => DeleteEachSameCache(c, order);
      case World(_) =>
    }
  }

  lemma StepCache(c: Controller, e: Event)
    requires CacheInv(c)
    ensures CacheInv(Step(c, e))
    ensures !Records(c, e) ==> SameCache(c, Step(c, e))
  {
    if e.Receive? {
      ReceiveCache(c, e.command, e.env);
    } else {
      OtherEventsSameCache(c, e);
    }
  }

  /** How many results a run adds to the cache. */
  function RecordCount(c: Controller, events: seq<Event>): nat
    decreases |events|
  {
    if events == [] then 0
    else
      var n := |events| - 1;
      RecordCount(c, events[..n]) + if Records(Run(c, events[..n]), events[n]) then 1 else 0
  }

  /** `id` has `later` newer entries and answers `result`. */
  ghost predicate Remembered(c: Controller, id: Bytes, result: CommandResult, later: nat) {
    && later < |c.cacheOrder| && c.cacheOrder[|c.cacheOrder| - 1 - later] == id
    && id in c.cached && c.cached[id] == result
  }

  lemma OlderByOne(order: seq<Bytes>, id: Bytes, newest: Bytes, later: nat)
    requires Distinct(order) && |order| <= CACHE_CAPACITY && later < |order| && order[|order| - 1 - later] == id
    ensures var full := |order| == CACHE_CAPACITY;
            var next := order[if full then 1 else 0..] + [newest];
            && (later + 1 < CACHE_CAPACITY ==>
                  && later + 1 < |next| && next[|next| - 1 - (later + 1)] == id && (full ==> order[0] != id))
            && (later + 1 == CACHE_CAPACITY ==> full && order[0] == id)
  {
  }

  lemma OneMore(c: Controller, after: Controller, newest: Bytes, newResult: CommandResult, id: Bytes,
                result: CommandResult, later: nat)
    requires CacheInv(c) && Remembered(c, id, result, later) && newest !in c.cached
    requires RecordedOne(c, after, newest, newResult)
    ensures later + 1 < CACHE_CAPACITY ==> Remembered(after, id, result, later + 1)
    ensures later + 1 == CACHE_CAPACITY ==> id !in after.cached
  {
    OlderByOne(c.cacheOrder, id, newest, later);
  }

  /** `k` results were remembered after the one for `id`. */
  ghost predicate Window(c: Controller, id: Bytes, result: CommandResult, k: nat) {
    && CacheInv(c)
    && (k < CACHE_CAPACITY ==> Remembered(c, id, result, k))
    && (k == CACHE_CAPACITY ==> id !in c.cached)
  }

  lemma StepWindow(c: Controller, e: Event, id: Bytes, result: CommandResult, k: nat)
    requires Window(c, id, result, k)
    ensures Window(Step(c, e), id, result, k + if Records(c, e) then 1 else 0)
  {
    var after := Step(c, e);
    StepCache(c, e);
    if Records(c, e) {
      ReceiveCache(c, e.command, e.env);
      if k < CACHE_CAPACITY {
        OneMore(c, after, e.command.commandId, FirstResult(c, e.command, e.env), id, result, k);
      }
    }
  }

  /** The window is exactly 1024 results wide, whatever else happens: a command just remembered is still
      remembered with its first result while fewer than 1024 later results were, and is forgotten when
      the 1024th is. */
  lemma {:induction false} WindowIsExact(c: Controller, id: Bytes, result: CommandResult, events: seq<Event>)
    requires CacheInv(c) && Remembered(c, id, result, 0)
    ensures Window(Run(c, events), id, result, RecordCount(c, events))
    decreases |events|
  {
    if events != [] {
      var n := |events| - 1;
      WindowIsExact(c, id, result, events[..n]);
      WindowMoves(c, id, result, events);
    }
  }

  lemma WindowMoves(c: Controller, id: Bytes, result: CommandResult, events: seq<Event>)
    requires events != [] && Window(Run(c, events[..|events| - 1]), id, result, RecordCount(c, events[..|events| - 1]))
    ensures Window(Run(c, events), id, result, RecordCount(c, events))
  {
    var n := |events| - 1;
    var before, count := Run(c, events[..n]), RecordCount(c, events[..n]);
    assert Run(c, events) == Step(before, events[n]);
    assert RecordCount(c, events) == count + if Records(before, events[n]) then 1 else 0;
    StepWindow(before, events[n], id, result, count);
  }

  /** Repeating a command inside its window returns the first answer and changes nothing at all, so an
      immediate run fires once. */
  lemma RepeatIsIdle(c: Controller, command: Command, env: Surroundings, events: seq<Event>, again: Surroundings)
    requires CacheInv(c) && Records(c, Receive(command, env))
    requires RecordCount(ApplyCommand(c, command, env).controller, events) < CACHE_CAPACITY
    ensures var first := ApplyCommand(c, command, env);
            var now := Run(first.controller, events);
            ApplyCommand(now, command, again) == Answer(now, first.result)
  {
    var first := ApplyCommand(c, command, env);
    ReceiveCache(c, command, env);
    RecordsLast(c, command, env);
    WindowIsExact(first.controller, command.commandId, first.result, events);
  }

  lemma RecordsLast(c: Controller, command: Command, env: Surroundings)
    requires CacheInv(c) && Records(c, Receive(command, env))
    ensures Remembered(ApplyCommand(c, command, env).controller, command.commandId,
                       ApplyCommand(c, command, env).result, 0)
  {
    ReceiveCache(c, command, env);
    assert |c.cacheOrder| == CACHE_CAPACITY ==> c.cacheOrder[0] != command.commandId by {
      assert |c.cacheOrder| > 0 ==> c.cacheOrder[0] in Elements(c.cacheOrder);
    }
  }

  lemma AppliedUpsertRevision(c: Controller, command: Command, env: Surroundings)
    requires Records(c, Receive(command, env)) && command.action.Some? && command.action.value.Upsert?
    requires ApplyCommand(c, command, env).result.verdict.Applied?
    ensures ApplyCommand(c, command, env).result.catalogRevision == c.catalogRevision + 1
  {
  }

  /** Clearing the catalog does not clear the answers. A Job was installed, then anything happened that left its
      answer in the window, then the catalog was cleared: the repeated command still claims to be applied, at a
      revision the controller no longer has, and the Job is not installed again. */
  lemma ClearLeavesStaleAnswers(c: Controller, command: Command, env: Surroundings, events: seq<Event>,
                                order: seq<JobId>, again: Surroundings)
    requires CacheInv(c) && Records(c, Receive(command, env)) && command.action.Some? && command.action.value.Upsert?
    requires var first := ApplyCommand(c, command, env);
             && first.result.verdict.Applied? && RecordCount(first.controller, events) < CACHE_CAPACITY
             && ClearRemoteJobs(Run(first.controller, events), order).ok
    ensures var first := ApplyCommand(c, command, env);
            var cleared := ClearRemoteJobs(Run(first.controller, events), order).controller;
            && ApplyCommand(cleared, command, again) == Answer(cleared, first.result)
            && first.result.catalogRevision > 0 && cleared.catalogRevision == 0
  {
    var first := ApplyCommand(c, command, env).controller;
    var all := events + [Clear(order)];
    assert all[..|events|] == events;
    assert Run(first, all) == Step(Run(first, events), Clear(order));
    assert RecordCount(first, all) == RecordCount(first, events);
    RepeatIsIdle(c, command, env, all, again);
    AppliedUpsertRevision(c, command, env);
  }
}
