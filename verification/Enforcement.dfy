/** Policy changes and plugin pauses from any state, in agreement with the Scheduler or not: when they are
    reported as done, what they have disabled, and when the policy is in force afterwards. */
module Enforcement {
  import opened Basics
  import opened JobPolicy
  import opened RemoteJobs
  import opened Agreement
  import opened Maintenance

  /** Nothing up to and including the `k`-th Job stops the loop. */
  ghost predicate Reached(c: Controller, ids: seq<JobId>, k: nat) {
    k < |ids| && forall j :: 0 <= j <= k ==> CanDisable(c, ids[j])
  }

  lemma {:induction false} DisablableAt(c: Controller, ids: seq<JobId>, k: nat)
    requires Distinct(ids) && k < |ids|
    ensures ids[k] in Elements(Disablable(c, ids)) <==> Reached(c, ids, k)
  {
    assert ids[0] !in ids[1..];
    DisablableSome(c, ids[1..]);
    if !CanDisable(c, ids[0]) {
      assert !Reached(c, ids, k);
    } else if k > 0 {
      var rest := ids[1..];
      DisablableAt(c, rest, k - 1);
      assert forall j :: 0 <= j < |rest| ==> rest[j] == ids[j + 1];
      if Reached(c, rest, k - 1) {
        forall j | 0 <= j <= k ensures CanDisable(c, ids[j]) {
          if j > 0 { assert CanDisable(c, rest[j - 1]); }
        }
      }
      if Reached(c, ids, k) {
        forall j | 0 <= j <= k - 1 ensures CanDisable(c, rest[j]) { assert CanDisable(c, ids[j + 1]); }
      }
      assert ids[k] != ids[0];
    }
  }

  lemma WalkedRefused(c: Controller, order: seq<JobId>)
    requires Walks(order, c)
    ensures Distinct(DeniedIds(c, order)) && Elements(DeniedIds(c, order)) == RefusedIds(c, c.policy)
  {
    DeniedIdsFacts(c, order);
    forall id | id in c.owned ensures id in order { assert id in Elements(order); }
  }

  /** A saved change of policy. It always takes effect; of the owned Jobs it refuses it disables exactly those
      walked before the first that cannot be disabled; it is reported as done exactly if there is none; and
      the policy is in force exactly if every refused Job from there on was not enabled anyway. */
  lemma PolicyChangeExact(c: Controller, policy: RemoteJobPolicy, order: seq<JobId>)
    requires Walks(order, c)
    ensures var changed := c.(policy := policy);
            var ids := DeniedIds(changed, order);
            var e := DisableEach(changed, ids);
            && DisabledAll(changed, Elements(Disablable(changed, ids)), e.controller)
            && (e.ok <==> forall id :: id in RefusedIds(c, policy) ==> CanDisable(c, id))
            && (PolicyHolds(e.controller) <==>
                  forall k :: 0 <= k < |ids| && ids[k] in c.scheduler.jobs && !Reached(c, ids, k) ==>
                    !c.scheduler.jobs[ids[k]].state.Enabled?)
  {
    var changed := c.(policy := policy);
    var ids := DeniedIds(changed, order);
    WalkedRefused(changed, order);
    DisableEachExact(changed, ids);
    AllDisablable(changed, ids);
    assert forall id :: CanDisable(changed, id) <==> CanDisable(c, id);
    assert forall id :: id in ids <==> id in RefusedIds(c, policy) by {
      assert forall id :: id in ids <==> id in Elements(ids);
    }
    PolicyInForce(changed, ids, DisableEach(changed, ids).controller);
    assert forall k :: Reached(changed, ids, k) <==> Reached(c, ids, k);
  }

  lemma PolicyInForce(c: Controller, ids: seq<JobId>, after: Controller)
    requires Distinct(ids) && Elements(ids) == RefusedIds(c, c.policy)
    requires DisabledAll(c, Elements(Disablable(c, ids)), after)
    ensures PolicyHolds(after) <==>
              forall k :: 0 <= k < |ids| && ids[k] in c.scheduler.jobs && !Reached(c, ids, k) ==>
                !c.scheduler.jobs[ids[k]].state.Enabled?
  {
    forall k | 0 <= k < |ids| ensures ids[k] in Elements(Disablable(c, ids)) <==> Reached(c, ids, k) {
      DisablableAt(c, ids, k);
    }
    if PolicyHolds(after) {
      forall k | 0 <= k < |ids| && ids[k] in c.scheduler.jobs && !Reached(c, ids, k)
        ensures !c.scheduler.jobs[ids[k]].state.Enabled?
      {
        assert ids[k] in Elements(ids) && ids[k] in after.owned;
        assert after.scheduler.jobs[ids[k]] == c.scheduler.jobs[ids[k]];
      }
    } else {
      var id :| id in after.owned && id in after.scheduler.jobs && DeniesKind(after.policy, after.owned[id].taskKind)
                && after.scheduler.jobs[id].state.Enabled?;
      assert id in Elements(ids);
      var k :| 0 <= k < |ids| && ids[k] == id;
      assert after.scheduler.jobs[id] == c.scheduler.jobs[id];
    }
  }

  /** For every state and every walk: when a policy change is reported as done, and when it is in force. */
  lemma UpdatePolicyExact(c: Controller, change: PolicyChange, saved: bool, order: seq<JobId>)
    requires Walks(order, c)
    ensures var e := UpdatePolicy(c, change, saved, order);
            var applied := ApplyChange(c.policy, change, saved);
            && (applied.Err? ==> e == Effect(c, false))
            && (applied.Ok? && applied.value == c.policy ==> e == Effect(c, true))
            && (applied.Ok? && applied.value != c.policy ==>
                  var changed := c.(policy := applied.value);
                  var ids := DeniedIds(changed, order);
                  && DisabledAll(changed, Elements(Disablable(changed, ids)), e.controller)
                  && (e.ok <==> forall id :: id in RefusedIds(c, applied.value) ==> CanDisable(c, id))
                  && (PolicyHolds(e.controller) <==>
                        forall k :: 0 <= k < |ids| && ids[k] in c.scheduler.jobs && !Reached(c, ids, k) ==>
                          !c.scheduler.jobs[ids[k]].state.Enabled?))
  {
    var applied := ApplyChange(c.policy, change, saved);
    if applied.Ok? && applied.value != c.policy {
      PolicyChangeExact(c, applied.value, order);
    }
  }

  /** For every state and every walk: a pause disables exactly the plugin's Jobs before the first that cannot
      be disabled, and is marked and reported as done exactly if there is none. */
  lemma PausePluginExact(c: Controller, key: PluginKey, order: seq<JobId>)
    requires Walks(order, c)
    ensures var e := PausePlugin(c, key, order);
            var done := Disablable(c, PluginIds(c, key, order));
            && (key in c.paused ==> e == Effect(c, true))
            && (key !in c.paused ==>
                  && (e.ok <==> forall id :: id in IdsOfPlugin(c, key) ==> CanDisable(c, id))
                  && (key in e.controller.paused <==> e.ok)
                  && DisabledAll(c.(paused := e.controller.paused), Elements(done), e.controller))
  {
    var ids := PluginIds(c, key, order);
    PluginIdsFacts(c, key, order);
    assert forall id :: id in c.owned ==> id in order by { assert forall id :: id in order <==> id in Elements(order); }
    assert forall id :: id in ids <==> id in IdsOfPlugin(c, key);
    assert Elements(ids) <= c.owned.Keys;
    AllDisablable(c, ids);
    DisableEachExact(c, ids);
  }

  /** The walk keeps its order. */
  lemma {:induction false} DeniedAt(c: Controller, order: seq<JobId>, i: nat) returns (a: nat)
    requires i < |order| && order[i] in c.owned && DeniesKind(c.policy, c.owned[order[i]].taskKind)
    ensures a < |DeniedIds(c, order)| && DeniedIds(c, order)[a] == order[i]
  {
    if i == 0 {
      a := 0;
    } else {
      var b := DeniedAt(c, order[1..], i - 1);
      a := if order[0] in c.owned && DeniesKind(c.policy, c.owned[order[0]].taskKind) then b + 1 else b;
    }
  }

  lemma {:induction false} DeniedInOrder(c: Controller, order: seq<JobId>, i: nat, j: nat) returns (a: nat, b: nat)
    requires i < j < |order|
    requires order[i] in c.owned && DeniesKind(c.policy, c.owned[order[i]].taskKind)
    requires order[j] in c.owned && DeniesKind(c.policy, c.owned[order[j]].taskKind)
    ensures a < b < |DeniedIds(c, order)| && DeniedIds(c, order)[a] == order[i] && DeniedIds(c, order)[b] == order[j]
  {
    if i == 0 {
      var later := DeniedAt(c, order[1..], j - 1);
      a, b := 0, later + 1;
    } else {
      a, b := DeniedInOrder(c, order[1..], i - 1, j - 1);
      if order[0] in c.owned && DeniesKind(c.policy, c.owned[order[0]].taskKind) {
        a, b := a + 1, b + 1;
      }
    }
  }

  /** A Job that cannot be disabled shields every refused Job walked after it: the change is saved, reported
      as failed, and those Jobs stay as they were, so an enabled one among them goes on running. */
  lemma RefusedJobShields(c: Controller, policy: RemoteJobPolicy, order: seq<JobId>, i: nat, j: nat)
    requires Walks(order, c) && i < j < |order| && !CanDisable(c, order[i])
    requires order[i] in c.owned && DeniesKind(policy, c.owned[order[i]].taskKind)
    requires order[j] in c.owned && DeniesKind(policy, c.owned[order[j]].taskKind)
    ensures var changed := c.(policy := policy);
            var e := DisableEach(changed, DeniedIds(changed, order));
            && !e.ok && e.controller.policy == policy && order[j] in e.controller.owned
            && e.controller.owned[order[j]] == c.owned[order[j]]
            && (order[j] in c.scheduler.jobs <==> order[j] in e.controller.scheduler.jobs)
            && (order[j] in c.scheduler.jobs ==>
                  && e.controller.scheduler.jobs[order[j]] == c.scheduler.jobs[order[j]]
                  && (c.scheduler.jobs[order[j]].state.Enabled? ==> !PolicyHolds(e.controller)))
  {
    var changed := c.(policy := policy);
    var ids := DeniedIds(changed, order);
    PolicyChangeExact(c, policy, order);
    assert order[i] in RefusedIds(c, policy);
    var a, b := DeniedInOrder(changed, order, i, j);
    assert !CanDisable(changed, ids[a]) && !Reached(changed, ids, b);
    WalkedRefused(changed, order);
    DisablableAt(changed, ids, b);
  }
}
