/** Job events are numbered when they are emitted, after filtering, so that the Server can read losses off
    the gaps. */
module EventNumbers {
  import opened Basics
  import opened Outboxes

  /** The number of the n-th event the Agent emits, counting from zero. */
  function NumberOf(n: nat): nat {
    if n + 1 <= U64_MAX then n + 1 else U64_MAX
  }

  datatype SchedulerEvent = SchedulerEvent(internalSequence: nat, reported: bool, payload: nat)
  datatype JobEvent = JobEvent(sequence: nat, instanceId: nat, payload: nat)

  function Reported(events: seq<SchedulerEvent>): seq<SchedulerEvent> {
    if events == [] then []
    else
      var last := events[|events| - 1];
      Reported(events[..|events| - 1]) + if last.reported then [last] else []
  }

  /** Numbers the events that are sent on; the Scheduler's own numbers, which also count the others, are
      not used. */
  class JobEventEmitter {
    const instanceId: nat
    var nextSequence: nat
    ghost var seen: seq<SchedulerEvent>
    ghost var emitted: seq<JobEvent>

    ghost predicate Valid()
      reads this
    {
      && |emitted| == |Reported(seen)|
      && nextSequence == (if |emitted| <= U64_MAX then |emitted| else U64_MAX)
      && forall i :: 0 <= i < |emitted| ==> emitted[i] == JobEvent(NumberOf(i), instanceId, Reported(seen)[i].payload)
    }

    constructor (instanceId: nat)
      ensures Valid() && seen == [] && emitted == [] && this.instanceId == instanceId
    {
      this.instanceId := instanceId;
      nextSequence, seen, emitted := 0, [], [];
    }

    method Emit(event: SchedulerEvent) returns (value: Option<JobEvent>)
      requires Valid()
      modifies this
      ensures Valid() && seen == old(seen) + [event]
      ensures value.Some? <==> event.reported
      ensures emitted == old(emitted) + if value.Some? then [value.value] else []
    {
      seen := seen + [event];
      assert seen[..|seen| - 1] == old(seen);
      if !event.reported {
        return None;
      }
      nextSequence := SaturatingSuccessor(nextSequence);
      value := Some(JobEvent(nextSequence, instanceId, event.payload));
      emitted := emitted + [value.value];
    }
  }

  // ----- what the Server can read off the numbers -----

  ghost predicate Numbered(emitted: seq<JobEvent>) {
    forall i :: 0 <= i < |emitted| ==> emitted[i].sequence == NumberOf(i)
  }

  /** The numbers missing before each number of a list, added up. */
  function Gaps(events: seq<JobEvent>, previous: int): int {
    if events == [] then 0 else events[0].sequence - previous - 1 + Gaps(events[1..], events[0].sequence)
  }

  predicate Increasing(events: seq<JobEvent>) {
    forall i, j :: 0 <= i < j < |events| ==> events[i].sequence < events[j].sequence
  }

  lemma {:induction false} GapsTelescope(events: seq<JobEvent>, previous: int)
    ensures Gaps(events, previous) == (if events == [] then 0 else events[|events| - 1].sequence - previous - |events|)
  {
    if events != [] {
      GapsTelescope(events[1..], events[0].sequence);
    }
  }

  /** Numbering is injective exactly as long as the counter has not saturated. */
  lemma NumbersIncreaseIff(emitted: seq<JobEvent>)
    requires Numbered(emitted)
    ensures Increasing(emitted) <==> |emitted| <= U64_MAX
  {
    if |emitted| > U64_MAX {
      assert emitted[U64_MAX - 1].sequence == emitted[U64_MAX].sequence;
    }
  }

  /** The Server sees strictly increasing numbers, and over everything delivered or still waiting the
      missing numbers are exactly the discarded events. */
  lemma GapsAreDrops(histories: seq<History<JobEvent>>, events: seq<Event<JobEvent>>, capacity: nat)
    requires Run(histories, events, capacity) && capacity > 0
    requires Numbered(histories[|events|].emitted) && |histories[|events|].emitted| <= U64_MAX
    ensures var h := histories[|events|];
            && Increasing(h.delivered + h.outbox.pending)
            && Gaps(h.delivered + h.outbox.pending, 0) == h.outbox.dropped
            && (h.outbox.pending == [] ==> Gaps(h.delivered, 0) == h.outbox.dropped)
  {
    var h := histories[|events|];
    var kept := EveryRunAccounts(histories, events, capacity, |events|);
    var items := h.delivered + h.outbox.pending;
    assert forall i :: 0 <= i < |items| ==> items[i].sequence == kept[i] + 1;
    GapsTelescope(items, 0);
    assert h.outbox.pending == [] ==> items == h.delivered;
    if h.emitted == [] {
      assert items == [];
    } else {
      assert items[|items| - 1].sequence == |h.emitted|;
    }
  }
}
