/** The bounded first-in-first-out queues that hold events, reports and results while the session is down.
    The three outboxes of the Agent run the same algorithm on different items. */
module Outboxes {
  import opened Basics

  /** What became of one attempt to send. */
  datatype Sending = Delivered | Retryable | Fatal

  datatype Outbox<T> = Outbox(pending: seq<T>, capacity: nat, dropped: nat)

  function SaturatingSuccessor(n: nat): nat {
    if n < U64_MAX then n + 1 else U64_MAX
  }

  /** Appends an item, giving up the oldest one when there is no room. */
  function Push<T>(o: Outbox<T>, item: T): Outbox<T> {
    if |o.pending| == o.capacity && o.pending != [] then
      o.(pending := o.pending[1..] + [item], dropped := SaturatingSuccessor(o.dropped))
    else o.(pending := o.pending + [item])
  }

  /** How many items a flush gets through, given how each sending would end. */
  function Flushed<T>(pending: seq<T>, sendings: seq<Sending>): (n: nat)
    requires |pending| <= |sendings|
    ensures n <= |pending|
    ensures forall i :: 0 <= i < n ==> sendings[i].Delivered?
    ensures n < |pending| ==> !sendings[n].Delivered?
  {
    if pending == [] || !sendings[0].Delivered? then 0
    else 1 + Flushed(pending[1..], sendings[1..])
  }

  /** The outbox together with everything that ever entered and left it. */
  datatype History<T> = History(outbox: Outbox<T>, emitted: seq<T>, delivered: seq<T>, discarded: seq<T>)

  datatype Event<T> = Submit(item: T, sending: Sending) | Flush(sendings: seq<Sending>)

  function Enqueue<T>(h: History<T>, item: T): History<T> {
    History(
      Push(h.outbox, item), h.emitted + [item], h.delivered,
      if |h.outbox.pending| == h.outbox.capacity && h.outbox.pending != [] then h.discarded + [h.outbox.pending[0]]
      else h.discarded)
  }

  predicate Possible<T>(h: History<T>, event: Event<T>) {
    event.Flush? ==> |h.outbox.pending| <= |event.sendings|
  }

  /** Whether the event ends the Agent's main loop with an error. */
  predicate Fails<T>(h: History<T>, event: Event<T>)
    requires Possible(h, event)
  {
    match event
    case Submit(_, sending) => h.outbox.pending == [] && sending.Fatal?
    case Flush(sendings) =>
      var n := Flushed(h.outbox.pending, sendings);
      n < |h.outbox.pending| && sendings[n].Fatal?
  }

  function Step<T>(h: History<T>, event: Event<T>): History<T>
    requires Possible(h, event)
  {
    match event
    case Submit(item, sending) =>
      if h.outbox.pending != [] || sending.Retryable? then Enqueue(h, item)
      else if sending.Delivered? then h.(emitted := h.emitted + [item], delivered := h.delivered + [item])
      else h.(emitted := h.emitted + [item])
    case Flush(sendings) =>
      var n := Flushed(h.outbox.pending, sendings);
      h.(outbox := h.outbox.(pending := h.outbox.pending[n..]), delivered := h.delivered + h.outbox.pending[..n])
  }

  ghost predicate Run<T>(histories: seq<History<T>>, events: seq<Event<T>>, capacity: nat) {
    && |histories| == |events| + 1
    && histories[0] == History(Outbox([], capacity, 0), [], [], [])
    && forall i :: 0 <= i < |events| ==>
         && Possible(histories[i], events[i]) && !Fails(histories[i], events[i])
         && histories[i + 1] == Step(histories[i], events[i])
  }

  // ----- order and conservation -----

  /** `items` are the elements of `all` at the increasing positions `kept`. */
  ghost predicate Picks<T>(all: seq<T>, kept: seq<nat>, items: seq<T>) {
    && |kept| == |items|
    && (forall i, j :: 0 <= i < j < |kept| ==> kept[i] < kept[j])
    && (forall i :: 0 <= i < |kept| ==> kept[i] < |all| && items[i] == all[kept[i]])
  }

  /** Everything that left or waits, in order, is a selection of what was emitted that includes the latest
      item; nothing is invented, and every item is accounted for once. */
  ghost predicate Accounted<T>(h: History<T>, kept: seq<nat>) {
    && Picks(h.emitted, kept, h.delivered + h.outbox.pending)
    && (h.emitted != [] ==> kept != [] && kept[|kept| - 1] == |h.emitted| - 1)
    && |h.emitted| == |h.delivered| + |h.outbox.pending| + |h.discarded|
    && multiset(h.emitted) == multiset(h.delivered) + multiset(h.outbox.pending) + multiset(h.discarded)
    && h.outbox.dropped == (if |h.discarded| <= U64_MAX then |h.discarded| else U64_MAX)
    && |h.outbox.pending| <= h.outbox.capacity
  }

  lemma AppendPick<T>(all: seq<T>, kept: seq<nat>, items: seq<T>, item: T)
    requires Picks(all, kept, items)
    ensures Picks(all + [item], kept + [|all|], items + [item])
  {
  }

  lemma DropPick<T>(all: seq<T>, kept: seq<nat>, items: seq<T>, k: nat)
    requires Picks(all, kept, items) && k < |items|
    ensures Picks(all, kept[..k] + kept[k + 1..], items[..k] + items[k + 1..])
  {
  }

  /** The positions kept after an event. */
  ghost function KeptAfter<T>(h: History<T>, kept: seq<nat>, event: Event<T>): seq<nat>
    requires |kept| == |h.delivered| + |h.outbox.pending|
  {
    if event.Flush? then kept
    else if |h.outbox.pending| == h.outbox.capacity && h.outbox.pending != [] then
      kept[..|h.delivered|] + kept[|h.delivered| + 1..] + [|h.emitted|]
    else kept + [|h.emitted|]
  }

  lemma EnqueueFull<T>(h: History<T>, kept: seq<nat>, item: T)
    requires Accounted(h, kept) && |h.outbox.pending| == h.outbox.capacity > 0
    ensures Accounted(Enqueue(h, item), KeptAfter(h, kept, Submit(item, Retryable)))
  {
    var t := Enqueue(h, item);
    var d, p := |h.delivered|, h.outbox.pending;
    var items := h.delivered + p;
    var fewer, rest := kept[..d] + kept[d + 1..], items[..d] + items[d + 1..];
    DropPick(h.emitted, kept, items, d);
    AppendPick(h.emitted, fewer, rest, item);
    assert rest + [item] == t.delivered + t.outbox.pending;
    assert p == [p[0]] + p[1..];
    assert multiset(p) == multiset{p[0]} + multiset(p[1..]);
  }

  lemma EnqueueAccounts<T>(h: History<T>, kept: seq<nat>, item: T)
    requires Accounted(h, kept) && h.outbox.capacity > 0
    ensures Accounted(Enqueue(h, item), KeptAfter(h, kept, Submit(item, Retryable)))
  {
    if |h.outbox.pending| == h.outbox.capacity {
      EnqueueFull(h, kept, item);
    } else {
      var t := Enqueue(h, item);
      AppendPick(h.emitted, kept, h.delivered + h.outbox.pending, item);
      assert h.delivered + h.outbox.pending + [item] == t.delivered + t.outbox.pending;
    }
  }

  lemma DirectAccounts<T>(h: History<T>, kept: seq<nat>, item: T)
    requires Accounted(h, kept) && h.outbox.capacity > 0 && h.outbox.pending == []
    ensures Accounted(Step(h, Submit(item, Delivered)), kept + [|h.emitted|])
  {
    var t := Step(h, Submit(item, Delivered));
    AppendPick(h.emitted, kept, h.delivered + h.outbox.pending, item);
    assert t.delivered + t.outbox.pending == h.delivered + h.outbox.pending + [item];
  }

  lemma FlushAccounts<T>(h: History<T>, kept: seq<nat>, sendings: seq<Sending>)
    requires Accounted(h, kept) && Possible(h, Flush(sendings))
    ensures Accounted(Step(h, Flush(sendings)), kept)
  {
    var t := Step(h, Flush(sendings));
    var n := Flushed(h.outbox.pending, sendings);
    assert h.outbox.pending == h.outbox.pending[..n] + h.outbox.pending[n..];
    assert h.delivered + h.outbox.pending == t.delivered + t.outbox.pending;
    assert multiset(h.delivered + h.outbox.pending) == multiset(t.delivered + t.outbox.pending);
  }

  lemma StepAccounts<T>(h: History<T>, kept: seq<nat>, event: Event<T>)
    requires Accounted(h, kept) && h.outbox.capacity > 0 && Possible(h, event) && !Fails(h, event)
    ensures Accounted(Step(h, event), KeptAfter(h, kept, event)) && Step(h, event).outbox.capacity == h.outbox.capacity
  {
    match event
    case Submit(item, sending) =>
      if h.outbox.pending != [] || sending.Retryable? {
        EnqueueAccounts(h, kept, item);
      } else {
        DirectAccounts(h, kept, item);
      }
    case Flush(sendings) => FlushAccounts(h, kept, sendings);
  }

  lemma EmptyAccounts<T>(capacity: nat)
    ensures Accounted<T>(History(Outbox([], capacity, 0), [], [], []), [])
  {
  }

  /** Over every run without a fatal error: what was delivered, followed by what waits, is what was emitted
      in the same order with exactly the discarded items missing, never the latest one; the counter
      tells their number; and the queue stays within its capacity. */
  lemma {:induction false} EveryRunAccounts<T>(histories: seq<History<T>>, events: seq<Event<T>>, capacity: nat, n: nat)
    returns (kept: seq<nat>)
    requires Run(histories, events, capacity) && capacity > 0 && n <= |events|
    ensures Accounted(histories[n], kept) && histories[n].outbox.capacity == capacity
  {
    if n == 0 {
      EmptyAccounts<T>(capacity);
      kept := [];
    } else {
      var before := EveryRunAccounts(histories, events, capacity, n - 1);
      var h, event := histories[n - 1], events[n - 1];
      StepAccounts(h, before, event);
      kept := KeptAfter(h, before, event);
      assert histories[n] == Step(h, event);
    }
  }

  /** Nothing overtakes: an event only ever adds to what was delivered. */
  lemma DeliveryIsFinal<T>(h: History<T>, event: Event<T>)
    requires Possible(h, event)
    ensures h.delivered <= Step(h, event).delivered && h.emitted <= Step(h, event).emitted
  {
  }

  /** A fatal error is the one way to lose an item without counting it: it loses one exactly when it hits
      a direct send, and a flush that fails keeps the item it failed on. */
  lemma FatalLoses<T>(h: History<T>, event: Event<T>)
    requires Possible(h, event) && Fails(h, event)
    ensures var t := Step(h, event);
            && t.outbox.dropped == h.outbox.dropped
            && |t.delivered| + |t.outbox.pending| == |h.delivered| + |h.outbox.pending|
            && |t.emitted| == |h.emitted| + (if event.Submit? then 1 else 0)
            && (event.Flush? ==> t.outbox.pending != [])
  {
  }
}
