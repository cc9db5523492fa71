/** Policy changes, plugin pauses and clearing: while controller and Scheduler agree they go through
    completely and keep the agreement. */
module Maintenance {
  import opened Basics
  import opened Scheduling
  import opened JobPolicy
  import opened RemoteJobs
  import opened Agreement

  /** `after` is `c` with the Jobs in `ids` disabled, one version up on both sides. */
  ghost predicate DisabledAll(c: Controller, ids: set<JobId>, after: Controller) {
    && after == c.(scheduler := after.scheduler, owned := after.owned)
    && after.scheduler.limits == c.scheduler.limits
    && after.owned.Keys == c.owned.Keys && after.scheduler.jobs.Keys == c.scheduler.jobs.Keys
    && (forall id :: id in c.owned ==>
          after.owned[id] == c.owned[id].(generation := c.owned[id].generation + (if id in ids then 1 else 0)))
    && (forall id :: id in c.scheduler.jobs ==>
          after.scheduler.jobs[id]
          == if id in ids then c.scheduler.jobs[id].(version := c.scheduler.jobs[id].version + 1, state := Disabled)
             else c.scheduler.jobs[id])
  }

  /** The Scheduler would disable this Job on request. */
  ghost predicate CanDisable(c: Controller, id: JobId) {
    AgreesOn(c, id) && c.owned[id].generation < U64_MAX
  }

  /** The Jobs before the first that cannot be disabled. */
  ghost function Disablable(c: Controller, ids: seq<JobId>): seq<JobId> {
    if ids == [] || !CanDisable(c, ids[0]) then [] else [ids[0]] + Disablable(c, ids[1..])
  }

  lemma DisabledOne(c: Controller, id: JobId) returns (next: Controller)
    requires CanDisable(c, id)
    ensures DisabledAll(c, {id}, next)
    ensures forall rest :: DisableEach(c, [id] + rest) == DisableEach(next, rest)
  {
    var after := DisableJob(c.scheduler, id, c.owned[id].generation).value;
    next := c.(scheduler := after, owned := c.owned[id := c.owned[id].(generation := VersionOf(after, id))]);
    forall rest ensures DisableEach(c, [id] + rest) == DisableEach(next, rest) {
      assert ([id] + rest)[1..] == rest;
    }
  }

  lemma {:induction false} DisablableElsewhere(c: Controller, id: JobId, next: Controller, ids: seq<JobId>)
    requires DisabledAll(c, {id}, next) && id !in ids
    ensures Disablable(next, ids) == Disablable(c, ids)
  {
    if ids != [] {
      DisablableElsewhere(c, id, next, ids[1..]);
    }
  }

  lemma DisabledCompose(c: Controller, a: set<JobId>, mid: Controller, b: set<JobId>, after: Controller)
    requires a !! b && DisabledAll(c, a, mid) && DisabledAll(mid, b, after)
    ensures DisabledAll(c, a + b, after)
  {
  }

  lemma {:induction false} DisablableSome(c: Controller, ids: seq<JobId>)
    ensures Elements(Disablable(c, ids)) <= Elements(ids)
  {
    if ids != [] {
      DisablableSome(c, ids[1..]);
      forall id | id in Elements(ids[1..]) ensures id in Elements(ids) {}
    }
  }

  /** What the disabling loop comes to. */
  ghost predicate DisabledPrefix(c: Controller, ids: seq<JobId>, e: Effect) {
    DisabledAll(c, Elements(Disablable(c, ids)), e.controller) && (e.ok <==> Disablable(c, ids) == ids)
  }

  lemma PrefixGrows(c: Controller, id: JobId, next: Controller, rest: seq<JobId>, e: Effect)
    requires CanDisable(c, id) && id !in rest && DisabledAll(c, {id}, next) && DisabledPrefix(next, rest, e)
    ensures DisabledPrefix(c, [id] + rest, e)
  {
    var done := Disablable(c, rest);
    assert Disablable(next, rest) == done by { DisablableElsewhere(c, id, next, rest); }
    assert id !in Elements(done) by {
      DisablableSome(c, rest);
      assert id !in Elements(rest);
    }
    assert Disablable(c, [id] + rest) == [id] + done by { assert ([id] + rest)[1..] == rest; }
    assert [id] + done == [id] + rest <==> done == rest by {
      assert ([id] + done)[1..] == done && ([id] + rest)[1..] == rest;
    }
    assert Elements([id] + done) == {id} + Elements(done);
    assert DisabledAll(c, {id} + Elements(done), e.controller) by {
      DisabledCompose(c, {id}, next, Elements(done), e.controller);
    }
  }

  /** The disabling loop, in agreement or not: it disables exactly the Jobs before the first that cannot be
      disabled, and succeeds exactly if there is none. */
  lemma {:induction false} DisableEachExact(c: Controller, ids: seq<JobId>)
    requires Distinct(ids) && Elements(ids) <= c.owned.Keys
    ensures DisabledPrefix(c, ids, DisableEach(c, ids))
    decreases |ids|
  {
    if ids != [] {
      var id, rest := ids[0], ids[1..];
      assert id in Elements(ids) && ids == [id] + rest && id !in rest;
      if CanDisable(c, id) {
        var next := DisabledOne(c, id);
        forall x | x in Elements(rest) ensures x in next.owned.Keys { assert x in Elements(ids); }
        DisableEachExact(next, rest);
        PrefixGrows(c, id, next, rest, DisableEach(next, rest));
      }
    }
  }

  lemma {:induction false} AllDisablable(c: Controller, ids: seq<JobId>)
    ensures Disablable(c, ids) == ids <==> forall id :: id in ids ==> CanDisable(c, id)
  {
    if ids != [] {
      AllDisablable(c, ids[1..]);
      assert ids == [ids[0]] + ids[1..];
    }
  }

  lemma DisableEachGoesThrough(c: Controller, ids: seq<JobId>)
    requires Agrees(c) && Distinct(ids) && Elements(ids) <= c.owned.Keys
    requires forall id :: id in ids ==> c.owned[id].generation < U64_MAX
    ensures DisableEach(c, ids).ok && DisabledAll(c, Elements(ids), DisableEach(c, ids).controller)
  {
    forall id | id in ids ensures CanDisable(c, id) { assert id in Elements(ids); }
    AllDisablable(c, ids);
    DisableEachExact(c, ids);
  }

  lemma DisabledAllKeeps(c: Controller, ids: set<JobId>, after: Controller)
    requires Agrees(c) && WellFormed(c) && ids <= c.owned.Keys && DisabledAll(c, ids, after)
    requires forall id :: id in c.owned && id in c.scheduler.jobs && DeniesKind(c.policy, c.owned[id].taskKind) ==>
               id in ids || !c.scheduler.jobs[id].state.Enabled?
    ensures Inv(after) && Local(after) == Local(c)
  {
    forall id | id in after.owned ensures AgreesOn(after, id) && WellManaged(id, after.owned[id]) {
      assert AgreesOn(c, id) && WellManaged(id, c.owned[id]);
    }
    assert Local(after) == Local(c);
  }

  lemma {:induction false} DeniedIdsFacts(c: Controller, order: seq<JobId>)
    requires Distinct(order)
    ensures Distinct(DeniedIds(c, order))
    ensures forall id :: id in DeniedIds(c, order) <==>
              id in order && id in c.owned && DeniesKind(c.policy, c.owned[id].taskKind)
  {
    if order != [] {
      DeniedIdsFacts(c, order[1..]);
      assert order[0] !in order[1..];
    }
  }

  lemma {:induction false} PluginIdsFacts(c: Controller, key: PluginKey, order: seq<JobId>)
    requires Distinct(order)
    ensures Distinct(PluginIds(c, key, order))
    ensures forall id :: id in PluginIds(c, key, order) <==>
              id in order && id in c.owned && c.owned[id].plugin == Some(key)
  {
    if order != [] {
      PluginIdsFacts(c, key, order[1..]);
      assert order[0] !in order[1..];
    }
  }

  /** The owned Jobs of kinds the policy refuses. */
  ghost function RefusedIds(c: Controller, policy: RemoteJobPolicy): set<JobId> {
    set id | id in c.owned && DeniesKind(policy, c.owned[id].taskKind)
  }

  /** The owned Jobs of a plugin. */
  ghost function IdsOfPlugin(c: Controller, key: PluginKey): set<JobId> {
    set id | id in c.owned && c.owned[id].plugin == Some(key)
  }

  /** A policy change that is saved takes effect and disables exactly the owned Jobs it refuses, one version up
      on both sides; nothing else changes. A change that makes no difference, or is not saved, changes
      nothing, and only the latter is reported as failed. */
  lemma UpdatePolicyKeeps(c: Controller, change: PolicyChange, saved: bool, order: seq<JobId>)
    requires Inv(c) && Room(c) && Walks(order, c)
    ensures var e := UpdatePolicy(c, change, saved, order);
            var applied := ApplyChange(c.policy, change, saved);
            && Inv(e.controller) && Local(e.controller) == Local(c)
            && e.ok == applied.Ok?
            && (!e.ok || applied.value == c.policy ==> e.controller == c)
            && (e.ok && applied.value != c.policy ==>
                  DisabledAll(c.(policy := applied.value), RefusedIds(c, applied.value), e.controller))
  {
    var applied := ApplyChange(c.policy, change, saved);
    if applied.Ok? && applied.value != c.policy {
      var changed := c.(policy := applied.value);
      var ids := DeniedIds(changed, order);
      DeniedIdsFacts(changed, order);
      assert Agrees(changed) by { assert forall id :: id in c.owned ==> AgreesOn(c, id); }
      assert WellFormed(changed);
      forall id | id in c.owned ensures id in order { assert id in Elements(order); }
      assert Elements(ids) == RefusedIds(c, applied.value);
      DisableEachGoesThrough(changed, ids);
      DisabledAllKeeps(changed, Elements(ids), DisableEach(changed, ids).controller);
    }
  }

  /** A pause disables exactly the plugin's Jobs, one version up on both sides, and changes nothing else but
      its mark; a repeated notice does nothing at all. */
  lemma PausePluginKeeps(c: Controller, key: PluginKey, order: seq<JobId>)
    requires Inv(c) && Room(c) && Walks(order, c)
    ensures var e := PausePlugin(c, key, order);
            && e.ok && Inv(e.controller) && Local(e.controller) == Local(c)
            && PausePlugin(e.controller, key, order) == Effect(e.controller, true)
            && (key in c.paused ==> e.controller == c)
            && (key !in c.paused ==>
                  DisabledAll(c.(paused := c.paused + {key}), IdsOfPlugin(c, key), e.controller))
  {
    if key !in c.paused {
      var ids := PluginIds(c, key, order);
      PluginIdsFacts(c, key, order);
      forall id | id in c.owned ensures id in order && AgreesOn(c, id) { assert id in Elements(order); }
      assert Elements(ids) == IdsOfPlugin(c, key);
      DisableEachGoesThrough(c, ids);
      var after := DisableEach(c, ids).controller;
      DisabledAllKeeps(c, Elements(ids), after);
      MarkKeeps(c, key, IdsOfPlugin(c, key), after);
    }
  }

  lemma MarkKeeps(c: Controller, key: PluginKey, ids: set<JobId>, after: Controller)
    requires Inv(after) && Local(after) == Local(c) && DisabledAll(c, ids, after)
    ensures var marked := after.(paused := after.paused + {key});
            Inv(marked) && Local(marked) == Local(c) && DisabledAll(c.(paused := c.paused + {key}), ids, marked)
  {
    var marked := after.(paused := after.paused + {key});
    assert forall id :: id in marked.owned ==> AgreesOn(after, id) && WellManaged(id, after.owned[id]);
  }

  lemma {:induction false} DeleteEachGoesThrough(c: Controller, order: seq<JobId>)
    requires Agrees(c) && Distinct(order) && Elements(order) <= c.owned.Keys
    ensures DeleteEach(c, order)
            == Effect(c.(owned := c.owned - Elements(order),
                         scheduler := c.scheduler.(jobs := c.scheduler.jobs - Elements(order))), true)
    decreases |order|
  {
    if order == [] {
      assert c.owned - Elements(order) == c.owned && c.scheduler.jobs - Elements(order) == c.scheduler.jobs;
    } else {
      var id, rest := order[0], order[1..];
      assert id in Elements(order) && AgreesOn(c, id);
      var next := c.(scheduler := c.scheduler.(jobs := c.scheduler.jobs - {id}), owned := c.owned - {id});
      assert Agrees(next) by {
        forall other | other in next.owned ensures AgreesOn(next, other) { assert AgreesOn(c, other); }
      }
      assert id !in rest && Elements(order) == {id} + Elements(rest);
      forall x | x in Elements(rest) ensures x in next.owned { assert x in Elements(order); }
      DeleteEachGoesThrough(next, rest);
      assert next.owned - Elements(rest) == c.owned - Elements(order);
      assert next.scheduler.jobs - Elements(rest) == c.scheduler.jobs - Elements(order);
    }
  }

  /** Clearing in agreement removes exactly the owned Jobs and restarts the catalog at revision 0. */
  lemma ClearKeeps(c: Controller, order: seq<JobId>)
    requires Inv(c) && Walks(order, c)
    ensures var e := ClearRemoteJobs(c, order);
            && e.ok && e.controller.catalogRevision == 0 && e.controller.owned == map[]
            && e.controller.scheduler.jobs == Local(c)
            && Inv(e.controller) && Local(e.controller) == Local(c)
  {
    DeleteEachGoesThrough(c, order);
    assert c.owned - Elements(order) == map[];
    assert Local(ClearRemoteJobs(c, order).controller) == Local(c);
  }

  /** A clear reports success exactly when every owned Job still agrees; otherwise it may already have
      removed some of them while the catalog revision stays. */
  lemma {:induction false} ClearSucceedsIff(c: Controller, order: seq<JobId>)
    requires Distinct(order)
    ensures DeleteEach(c, order).ok <==> forall id :: id in order && id in c.owned ==> AgreesOn(c, id)
    decreases |order|
  {
    if order != [] {
      var id, rest := order[0], order[1..];
      assert id !in rest && forall x :: x in order <==> x == id || x in rest;
      if id !in c.owned {
        ClearSucceedsIff(c, rest);
      } else if AgreesOn(c, id) {
        var next := c.(scheduler := c.scheduler.(jobs := c.scheduler.jobs - {id}), owned := c.owned - {id});
        ClearSucceedsIff(next, rest);
        assert forall x :: x in rest && x in c.owned ==> (AgreesOn(c, x) <==> AgreesOn(next, x));
      }
    }
  }
}
