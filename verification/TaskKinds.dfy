/** Only a known task runs, and only an unknown one is refused: the Worker's decision on each request, in every
    interleaving, against what the call asked for. */
module TaskKinds {
  import opened WorkerRpc
  import opened WorkerRpcLaws

  /** Requests, tasks and refusals agree with what was asked. */
  ghost predicate KindsOk(s: System) {
    && (forall id :: id in s.asked ==> id in s.agent.calls && !s.agent.calls[id].Writing?)
    && (forall i :: 0 <= i < |s.toWorker| && s.toWorker[i].Execute? ==>
          s.toWorker[i].id in s.asked && s.asked[s.toWorker[i].id] == s.toWorker[i].known)
    && (forall id :: id in s.worker.tasks ==> id in s.asked && s.asked[id])
    && (forall frame :: frame in s.sent && frame.ErrorResponse? && frame.kind == UnknownTask ==>
          frame.id in s.asked && !s.asked[frame.id])
  }

  /** The request is still on its way, or it became a task, or it was refused as unknown. */
  ghost predicate Decided(s: System, id: RequestId) {
    id in s.asked ==>
      || Execute(id, s.asked[id]) in s.toWorker
      || (s.asked[id] && id in s.worker.tasks)
      || (!s.asked[id] && ErrorResponse(id, UnknownTask) in s.sent)
  }

  // ----- taking a request -----

  /** The tasks that a Cancel can still reach. */
  ghost predicate Cancellable(w: Worker, id: RequestId) {
    id in w.tasks && (w.tasks[id].Queued? || w.tasks[id].Inside? || w.tasks[id].Ended?)
  }

  /** What the Worker makes of the next request: a known task is queued, not cancelled; an unknown one is refused; a
      Cancel marks its task while the task can be reached, and is refused after that. Nothing else changes. */
  lemma TakeDecides(s: System)
    requires WorkerOk(s.worker) && RequestsOk(s.agent.calls, s.toWorker, s.worker.tasks.Keys) && Enabled(s, TakeRequest)
    ensures var t := Apply(s, TakeRequest);
            && t.agent == s.agent && t.toWorker == s.toWorker[1..] && t.asked == s.asked
            && match s.toWorker[0] {
                 case Execute(id, known) =>
                   if known then
                     && t.worker == s.worker.(tasks := s.worker.tasks[id := Queued],
                                              tokens := s.worker.tokens[id := false])
                     && t.sent == s.sent && t.toAgent == s.toAgent
                   else
                     && t.worker == s.worker && t.sent == s.sent + [ErrorResponse(id, UnknownTask)]
                     && t.toAgent == s.toAgent + [ErrorResponse(id, UnknownTask)]
                 case Cancel(id) =>
                   if Cancellable(s.worker, id) then
                     && t.worker == s.worker.(tokens := s.worker.tokens[id := true])
                     && t.sent == s.sent && t.toAgent == s.toAgent
                   else
                     && t.worker == s.worker && t.sent == s.sent + [ErrorResponse(id, UnknownRequest)]
                     && t.toAgent == s.toAgent + [ErrorResponse(id, UnknownRequest)]
               }
  {
  }

  lemma TakeKeepsKinds(s: System)
    requires Inv(s) && KindsOk(s) && Enabled(s, TakeRequest)
    ensures KindsOk(Apply(s, TakeRequest))
  {
    TakeDecides(s);
    var t := Apply(s, TakeRequest);
    assert forall i :: 0 <= i < |t.toWorker| ==> t.toWorker[i] == s.toWorker[i + 1];
    assert s.toWorker[0].Execute? ==>
        s.toWorker[0].id in s.asked && s.asked[s.toWorker[0].id] == s.toWorker[0].known;
  }

  lemma TakeKeepsDecided(s: System, id: RequestId)
    requires Inv(s) && KindsOk(s) && Enabled(s, TakeRequest) && Decided(s, id)
    ensures Decided(Apply(s, TakeRequest), id)
  {
    TakeDecides(s);
    assert s.toWorker == [s.toWorker[0]] + s.toWorker[1..];
  }

  // ----- every step -----

  lemma CallKeepsKinds(s: System, step: Step)
    requires KindsOk(s) && Enabled(s, step) && CallStep(step)
    ensures KindsOk(Apply(s, step))
  {
  }

  /** Steps that put no request on the wire and take none. */
  lemma OtherKeepsKinds(s: System, step: Step)
    requires KindsOk(s) && Enabled(s, step) && !CallStep(step) && !step.TakeRequest?
    ensures KindsOk(Apply(s, step))
  {
    var t := Apply(s, step);
    assert t.asked == s.asked && t.toWorker == s.toWorker && t.worker.tasks.Keys == s.worker.tasks.Keys;
    assert forall frame :: frame in t.sent && frame !in s.sent ==>
        frame.TaskResult? || frame.kind == ResultDeliveryFailed;
  }

  lemma StepKeepsKinds(s: System, step: Step)
    requires Inv(s) && KindsOk(s) && Enabled(s, step)
    ensures KindsOk(Apply(s, step))
  {
    if step.TakeRequest? {
      TakeKeepsKinds(s);
    } else if CallStep(step) {
      CallKeepsKinds(s, step);
    } else {
      OtherKeepsKinds(s, step);
    }
  }

  lemma StepKeepsDecided(s: System, step: Step, id: RequestId)
    requires Inv(s) && KindsOk(s) && Enabled(s, step) && Decided(s, id)
    ensures Decided(Apply(s, step), id)
  {
    if step.TakeRequest? {
      TakeKeepsDecided(s, id);
    } else {
      SentGrows(s, step);
    }
  }

  /** A record never changes. */
  lemma StepKeepsRecord(s: System, step: Step, id: RequestId)
    requires KindsOk(s) && Enabled(s, step)
    ensures id in s.asked ==> id in Apply(s, step).asked && Apply(s, step).asked[id] == s.asked[id]
    ensures step.WriteOk? && step.id == id ==> id in Apply(s, step).asked && Apply(s, step).asked[id] == step.known
  {
  }

  // ----- whole runs -----

  lemma {:induction false} KindsInEveryState(effective: nat, states: seq<System>, steps: seq<Step>, i: nat,
                                             id: RequestId)
    requires Behaviour(effective, states, steps) && i < |states|
    ensures KindsOk(states[i]) && Decided(states[i], id)
  {
    if i > 0 {
      KindsInEveryState(effective, states, steps, i - 1, id);
      InvInEveryState(effective, states, steps, i - 1);
      StepKeepsKinds(states[i - 1], steps[i - 1]);
      StepKeepsDecided(states[i - 1], steps[i - 1], id);
    }
  }

  /** What a call was written with stays on record. */
  lemma {:induction false} WrittenIsRecorded(effective: nat, states: seq<System>, steps: seq<Step>, k: nat, i: nat)
    requires Behaviour(effective, states, steps) && k < i < |states| && steps[k].WriteOk?
    ensures var id := steps[k].id; id in states[i].asked && states[i].asked[id] == steps[k].known
    decreases i
  {
    KindsInEveryState(effective, states, steps, i - 1, steps[k].id);
    StepKeepsRecord(states[i - 1], steps[i - 1], steps[k].id);
    if k < i - 1 { WrittenIsRecorded(effective, states, steps, k, i - 1); }
  }

  /** In every state after a call was written: the Worker has a task for it only if it knows the kind, and has refused
      it as unknown only if it does not; once its request is no longer on the wire, one of the two has happened; and an
      answer that says so, or that is a result, was right. */
  lemma KindDecides(effective: nat, states: seq<System>, steps: seq<Step>, k: nat, i: nat)
    requires Behaviour(effective, states, steps) && k < i < |states| && steps[k].WriteOk?
    ensures var s, id, known := states[i], steps[k].id, steps[k].known;
            && (id in s.worker.tasks ==> known)
            && (ErrorResponse(id, UnknownTask) in s.sent ==> !known)
            && (Execute(id, known) !in s.toWorker ==>
                  if known then id in s.worker.tasks else ErrorResponse(id, UnknownTask) in s.sent)
            && (id in s.agent.calls && s.agent.calls[id].Done? && s.agent.calls[id].completion.Answered? ==>
                  var frame := s.agent.calls[id].completion.frame;
                  && (frame.TaskResult? ==> known)
                  && (frame == ErrorResponse(id, UnknownTask) ==> !known))
  {
    var id := steps[k].id;
    WrittenIsRecorded(effective, states, steps, k, i);
    KindsInEveryState(effective, states, steps, i, id);
    EveryStateIsSound(effective, states, steps, i, id);
  }
}
