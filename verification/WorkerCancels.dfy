/** A cancellation reaches the request it is meant for, and no other. */
module WorkerCancels {
  import opened WorkerRpc
  import opened WorkerRpcLaws

  ghost predicate Asked(call: Call) {
    call.Cancelling? || call.Done?
  }

  /** The Cancel of this call is still under way, or it has arrived: the request is no longer before the
      Worker, and its task, if it can still be cancelled, has been told. */
  ghost predicate Told(id: RequestId, toWorker: seq<Request>, tokens: map<RequestId, bool>) {
    || Cancel(id) in toWorker
    || ((forall known :: Execute(id, known) !in toWorker) && (id in tokens ==> tokens[id]))
  }

  /** Cancels on the wire come from calls that asked for one and stay behind their own request; a task is
      told to stop only if its call asked; and every call that is waiting for its cancellation is `Told`. */
  ghost predicate CancelsOk(calls: map<RequestId, Call>, toWorker: seq<Request>, tokens: map<RequestId, bool>) {
    && (forall i :: 0 <= i < |toWorker| && toWorker[i].Cancel? ==>
        toWorker[i].id in calls && Asked(calls[toWorker[i].id]))
    && (forall i, j :: 0 <= i < j < |toWorker| && toWorker[i].Cancel? && toWorker[j].Execute? ==>
        toWorker[i].id != toWorker[j].id)
    && (forall id :: id in tokens && tokens[id] ==> id in calls && Asked(calls[id]))
    && (forall id :: id in calls && calls[id].Cancelling? ==> Told(id, toWorker, tokens))
  }

  /** A call moves on without writing to the Worker. */
  lemma SilentCall(calls: map<RequestId, Call>, toWorker: seq<Request>, tokens: map<RequestId, bool>, id: RequestId,
                   call: Call)
    requires CancelsOk(calls, toWorker, tokens) && !call.Cancelling?
    requires (id in calls && Asked(calls[id]) ==> Asked(call))
    ensures CancelsOk(calls[id := call], toWorker, tokens)
  {
  }

  lemma WrittenExecute(calls: map<RequestId, Call>, toWorker: seq<Request>, tokens: map<RequestId, bool>, id: RequestId,
                       known: bool)
    requires CancelsOk(calls, toWorker, tokens) && id in calls && calls[id].Writing?
    ensures CancelsOk(calls[id := Waiting], toWorker + [Execute(id, known)], tokens)
  {
    var after := toWorker + [Execute(id, known)];
    forall other | other in calls[id := Waiting] && calls[id := Waiting][other].Cancelling?
      ensures Told(other, after, tokens)
    {
      assert Told(other, toWorker, tokens);
      assert Cancel(other) in toWorker ==> Cancel(other) in after;
    }
  }

  lemma WrittenCancel(calls: map<RequestId, Call>, toWorker: seq<Request>, tokens: map<RequestId, bool>, id: RequestId,
                      byDeadline: bool)
    requires CancelsOk(calls, toWorker, tokens) && id in calls && calls[id].Waiting?
    ensures CancelsOk(calls[id := Cancelling(byDeadline)], toWorker + [Cancel(id)], tokens)
  {
    var after, moved := toWorker + [Cancel(id)], calls[id := Cancelling(byDeadline)];
    forall other | other in moved && moved[other].Cancelling? ensures Told(other, after, tokens) {
      if other != id {
        assert Told(other, toWorker, tokens);
        assert Cancel(other) in toWorker ==> Cancel(other) in after;
      }
    }
  }

  lemma CallKeepsCancels(s: System, step: Step)
    requires CancelsOk(s.agent.calls, s.toWorker, s.worker.tokens) && Enabled(s, step) && CallStep(step)
    ensures CancelsOk(Apply(s, step).agent.calls, Apply(s, step).toWorker, s.worker.tokens)
  {
    if step.WriteOk? {
      WrittenExecute(s.agent.calls, s.toWorker, s.worker.tokens, step.id, step.known);
    } else if step.CancelWritten? {
      WrittenCancel(s.agent.calls, s.toWorker, s.worker.tokens, step.id, step.byDeadline);
    } else {
      SilentCall(s.agent.calls, s.toWorker, s.worker.tokens, step.id, Apply(s, step).agent.calls[step.id]);
    }
  }

  /** The Worker takes the next request off the wire. */
  lemma TakeKeepsCancels(calls: map<RequestId, Call>, toWorker: seq<Request>, tokens: map<RequestId, bool>,
                         after: map<RequestId, bool>)
    requires CancelsOk(calls, toWorker, tokens) && toWorker != []
    requires match toWorker[0]
             case Execute(id, _) => after == tokens || (id !in tokens && after == tokens[id := false])
             case Cancel(id) => after == if id in tokens then tokens[id := true] else tokens
    ensures CancelsOk(calls, toWorker[1..], after)
  {
    var rest := toWorker[1..];
    assert forall i :: 0 <= i < |rest| ==> rest[i] == toWorker[i + 1];
    forall id | id in calls && calls[id].Cancelling? ensures Told(id, rest, after) {
      assert Told(id, toWorker, tokens);
      assert toWorker[0] in toWorker;
      if Cancel(id) in toWorker && toWorker[0] != Cancel(id) {
        var i :| 0 <= i < |toWorker| && toWorker[i] == Cancel(id);
        assert rest[i - 1] == Cancel(id);
      }
    }
  }

  lemma StepKeepsCancels(s: System, step: Step)
    requires CancelsOk(s.agent.calls, s.toWorker, s.worker.tokens) && Enabled(s, step)
    ensures CancelsOk(Apply(s, step).agent.calls, Apply(s, step).toWorker, Apply(s, step).worker.tokens)
  {
    if CallStep(step) {
      CallKeepsCancels(s, step);
    } else if step.TakeRequest? {
      TakeKeepsCancels(s.agent.calls, s.toWorker, s.worker.tokens, Apply(s, step).worker.tokens);
    }
  }

  /** In every state of every interleaving a call that waits for its cancellation has its Cancel under way or
      its task told, and a task is told to stop only if its own call asked for that. */
  lemma {:induction false} CancelsArrive(effective: nat, states: seq<System>, steps: seq<Step>, i: nat)
    requires Behaviour(effective, states, steps) && i < |states|
    ensures CancelsOk(states[i].agent.calls, states[i].toWorker, states[i].worker.tokens)
  {
    if i > 0 {
      CancelsArrive(effective, states, steps, i - 1);
      StepKeepsCancels(states[i - 1], steps[i - 1]);
    }
  }
}
