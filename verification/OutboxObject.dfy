/** The outbox as the Agent keeps it: a queue and a counter updated in place. */
module OutboxObject {
  import opened Basics
  import opened Outboxes

  class BoundedOutbox<T> {
    var pending: seq<T>
    const capacity: nat
    var dropped: nat
    ghost var emitted: seq<T>
    ghost var delivered: seq<T>
    ghost var discarded: seq<T>

    ghost function State(): History<T>
      reads this
    {
      History(Outbox(pending, capacity, dropped), emitted, delivered, discarded)
    }

    constructor (capacity: nat)
      requires capacity > 0
      ensures State() == History(Outbox([], capacity, 0), [], [], [])
    {
      this.capacity := capacity;
      pending, dropped, emitted, delivered, discarded := [], 0, [], [], [];
    }

    method PushItem(item: T)
      modifies this
      ensures State() == Enqueue(old(State()), item)
    {
      emitted := emitted + [item];
      if |pending| == capacity && pending != [] {
        discarded := discarded + [pending[0]];
        pending := pending[1..];
        dropped := SaturatingSuccessor(dropped);
      }
      pending := pending + [item];
    }

    /** Sends at once when nothing waits; otherwise, or after a passing failure, queues. */
    method SubmitItem(item: T, sending: Sending) returns (ok: bool)
      modifies this
      ensures State() == Step(old(State()), Submit(item, sending))
      ensures ok == !Fails(old(State()), Submit(item, sending))
    {
      ok := true;
      if pending != [] {
        PushItem(item);
        return;
      }
      match sending
      case Delivered =>
        emitted, delivered := emitted + [item], delivered + [item];
      case Retryable =>
        PushItem(item);
      case Fatal =>
        emitted := emitted + [item];
        ok := false;
    }

    /** Sends what waits, oldest first, until a sending fails. */
    method FlushItems(sendings: seq<Sending>) returns (ok: bool)
      requires |pending| <= |sendings|
      modifies this
      ensures State() == Step(old(State()), Flush(sendings))
      ensures ok == !Fails(old(State()), Flush(sendings))
    {
      ghost var start := pending;
      var i := 0;
      while pending != []
        invariant i <= |start| && pending == start[i..]
        invariant Flushed(start, sendings) == i + Flushed(pending, sendings[i..])
        invariant State()
                  == old(State()).(outbox := old(State()).outbox.(pending := start[i..]),
                                   delivered := old(delivered) + start[..i])
        decreases |pending|
      {
        assert sendings[i..][1..] == sendings[i + 1..];
        assert pending[1..] == start[i + 1..];
        match sendings[i]
        case Delivered =>
          delivered := delivered + [pending[0]];
          pending := pending[1..];
          assert start[..i + 1] == start[..i] + [start[i]];
          i := i + 1;
        case Retryable =>
          return true;
        case Fatal =>
          return false;
      }
      ok := true;
    }
  }

  /** A queue without room would lose everything unseen, so it is refused. */
  method NewOutbox<T>(capacity: nat) returns (outbox: Option<BoundedOutbox<T>>)
    ensures outbox.Some? <==> capacity > 0
    ensures outbox.Some? ==> outbox.value.State() == History(Outbox([], capacity, 0), [], [], [])
  {
    if capacity == 0 {
      return None;
    }
    var created := new BoundedOutbox<T>(capacity);
    outbox := Some(created);
  }
}
