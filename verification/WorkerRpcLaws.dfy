/** What holds in every state of every interleaving of Agent and Worker. */
module WorkerRpcLaws {
  import opened Basics
  import opened WorkerRpc

  // ----- the Agent's side -----

  ghost predicate Open(call: Call) {
    !call.Done? || call == Done(Abandoned)
  }

  /** A call that has not ended is still registered or already has its reply: it cannot be forgotten. A
      call that has ended is not registered, unless its caller walked away from it. */
  ghost predicate AgentOk(a: Agent, sent: seq<Response>) {
    && (forall id :: id in a.pending ==> id in a.calls && Open(a.calls[id]) && id !in a.mailbox)
    && (forall id :: id in a.mailbox ==>
          id in a.calls && (a.mailbox[id].FromFrame? ==> a.mailbox[id].frame.id == id && a.mailbox[id].frame in sent))
    && (forall id :: id in a.calls && !a.calls[id].Done? ==> id in a.pending || id in a.mailbox)
    && (forall id :: id in a.calls && a.calls[id].Done? ==> CompletionOk(a, id, a.calls[id].completion))
  }

  /** An answer is the frame the mailbox holds for this very call. */
  ghost predicate CompletionOk(a: Agent, id: RequestId, completion: Completion) {
    match completion
    case Answered(frame) => id in a.mailbox && a.mailbox[id] == FromFrame(frame)
    case ChannelClosed => id in a.mailbox && a.mailbox[id] == ReaderGone
    case CancelConfirmed => id in a.mailbox
    case _ => true
  }

  predicate CallStep(step: Step) {
    step.Begin? || step.WriteOk? || step.WriteError? || step.WriteTimeout? || step.Wake? || step.CancelWritten? ||
    step.CancelUnwritten? || step.CancelAnswered? || step.CancelTimeout? || step.Abandon?
  }

  lemma GiveUpKeepsAgent(a: Agent, sent: seq<Response>, id: RequestId, completion: Completion)
    requires AgentOk(a, sent) && id in a.calls && (completion.TimedOut? || completion.WriteFailed?)
    ensures AgentOk(GiveUp(a, id, completion), sent)
  {
  }

  lemma CompleteKeepsAgent(a: Agent, sent: seq<Response>, id: RequestId, completion: Completion)
    requires AgentOk(a, sent) && id in a.calls && CompletionOk(a, id, completion)
    requires id in a.pending ==> completion.Abandoned?
    ensures AgentOk(Complete(a, id, completion), sent)
  {
  }

  lemma MoveKeepsAgent(a: Agent, sent: seq<Response>, id: RequestId, call: Call)
    requires AgentOk(a, sent) && id in a.calls && !a.calls[id].Done? && !call.Done?
    ensures AgentOk(a.(calls := a.calls[id := call]), sent)
  {
  }

  lemma CallKeepsAgent(s: System, step: Step)
    requires AgentOk(s.agent, s.sent) && Enabled(s, step) && CallStep(step)
    ensures AgentOk(Apply(s, step).agent, s.sent)
  {
    var a, sent := s.agent, s.sent;
    match step {
      case Begin(id) =>
      case WriteOk(id, _) => MoveKeepsAgent(a, sent, id, Waiting);
      case WriteError(id) => GiveUpKeepsAgent(a, sent, id, WriteFailed);
      case WriteTimeout(id) => GiveUpKeepsAgent(a, sent, id, TimedOut);
      case Wake(id) =>
        CompleteKeepsAgent(a, sent, id, if a.mailbox[id].FromFrame? then Answered(a.mailbox[id].frame)
                           else ChannelClosed);
      case CancelWritten(id, byDeadline) => MoveKeepsAgent(a, sent, id, Cancelling(byDeadline));
      case CancelUnwritten(id, byDeadline, timedOut) =>
        GiveUpKeepsAgent(a, sent, id, if byDeadline || timedOut then TimedOut else WriteFailed);
      case CancelAnswered(id) => CompleteKeepsAgent(a, sent, id, if a.calls[id].byDeadline then TimedOut
                                                    else CancelConfirmed);
      case CancelTimeout(id) => GiveUpKeepsAgent(a, sent, id, TimedOut);
      case Abandon(id) => CompleteKeepsAgent(a, sent, id, Abandoned);
      case _ =>
    }
  }

  lemma ReaderKeepsAgent(s: System, step: Step)
    requires AgentOk(s.agent, s.sent) && Enabled(s, step) && (step.ReadFrame? || step.CloseReader?)
    requires forall frame :: frame in s.toAgent ==> frame in s.sent
    ensures AgentOk(Apply(s, step).agent, s.sent)
  {
  }

  // ----- the Worker's side -----

  ghost function InsideTasks(w: Worker): set<RequestId> {
    set id | id in w.tasks && w.tasks[id].Inside?
  }

  /** The permits account for every task inside `execute`, and exactly the tasks that have not given up
      their token can be cancelled. */
  ghost predicate WorkerOk(w: Worker) {
    && w.permits + |InsideTasks(w)| == w.effective
    && forall id :: id in w.tokens <==>
         id in w.tasks && (w.tasks[id].Queued? || w.tasks[id].Inside? || w.tasks[id].Ended?)
  }

  predicate WorkerStep(step: Step) {
    !CallStep(step) && !step.ReadFrame? && !step.CloseReader?
  }

  /** One task moves: the set of tasks inside changes by that task alone. */
  lemma TaskMoves(w: Worker, moved: Worker, id: RequestId, phase: Phase)
    requires moved.tasks == w.tasks[id := phase]
    ensures InsideTasks(moved) == if phase.Inside? then InsideTasks(w) + {id} else InsideTasks(w) - {id}
  {
  }

  lemma TakeKeepsWorker(s: System, request: Request)
    requires WorkerOk(s.worker)
    requires request.Execute? ==> request.id !in s.worker.tasks
    ensures WorkerOk(TakeRequestOf(s, request).worker)
  {
    var w := TakeRequestOf(s, request).worker;
    if w.tasks != s.worker.tasks {
      TaskMoves(s.worker, w, request.id, Queued);
      assert InsideTasks(w) == InsideTasks(s.worker);
    }
  }

  /** A task takes or returns a permit. */
  lemma PermitKeepsWorker(s: System, step: Step)
    requires WorkerOk(s.worker) && Enabled(s, step) && (step.Acquire? || step.Finish?)
    ensures WorkerOk(Apply(s, step).worker)
  {
    var w := Apply(s, step).worker;
    TaskMoves(s.worker, w, step.id, w.tasks[step.id]);
    if step.Acquire? {
      assert step.id !in InsideTasks(s.worker);
    } else {
      assert step.id in InsideTasks(s.worker);
    }
  }

  /** A task that was accepted moves on: permits follow, and so does the token. */
  lemma TaskStepKeepsWorker(s: System, step: Step)
    requires WorkerOk(s.worker) && Enabled(s, step)
    requires WorkerStep(step) && !step.Exit? && !step.TakeRequest?
    ensures WorkerOk(Apply(s, step).worker)
  {
    if step.Acquire? || step.Finish? {
      PermitKeepsWorker(s, step);
    } else {
      var w := Apply(s, step).worker;
      TaskMoves(s.worker, w, step.id, w.tasks[step.id]);
      assert InsideTasks(w) == InsideTasks(s.worker);
    }
  }

  lemma StepKeepsWorker(s: System, step: Step)
    requires WorkerOk(s.worker) && RequestsOk(s.agent.calls, s.toWorker, s.worker.tasks.Keys) && Enabled(s, step)
    ensures WorkerOk(Apply(s, step).worker)
  {
    if step.TakeRequest? {
      TakeKeepsWorker(s.(toWorker := s.toWorker[1..]), s.toWorker[0]);
    } else if WorkerStep(step) && !step.Exit? {
      TaskStepKeepsWorker(s, step);
    } else {
      assert InsideTasks(Apply(s, step).worker) == InsideTasks(s.worker);
    }
  }

  lemma StepKeepsTasks(s: System, step: Step)
    requires Enabled(s, step)
    ensures Apply(s, step).worker.effective == s.worker.effective
    ensures step.TakeRequest? || Apply(s, step).worker.tasks.Keys == s.worker.tasks.Keys
  {
  }

  // ----- the wire -----

  /** Each call's Execute is on the wire at most once and before the Worker knows of the call. */
  ghost predicate RequestsOk(calls: map<RequestId, Call>, toWorker: seq<Request>, started: set<RequestId>) {
    && (forall i :: 0 <= i < |toWorker| && toWorker[i].Execute? ==>
          && toWorker[i].id in calls && !calls[toWorker[i].id].Writing? && toWorker[i].id !in started)
    && (forall i, j :: 0 <= i < j < |toWorker| && toWorker[i].Execute? && toWorker[j].Execute? ==>
          toWorker[i].id != toWorker[j].id)
    && (forall id :: id in started ==> id in calls && !calls[id].Writing?)
  }

  /** No task reports twice. */
  ghost predicate ReportsOnce(sent: seq<Response>) {
    forall i, j :: 0 <= i < j < |sent| && sent[i].TaskResult? && sent[j].TaskResult? ==> sent[i].id != sent[j].id
  }

  /** The Worker has told the outcome of a task at most once, truthfully, and after it ended. */
  ghost predicate ResponsesOk(s: System) {
    && (forall frame :: frame in s.toAgent ==> frame in s.sent)
    && (forall i :: 0 <= i < |s.sent| ==> ResponseOk(s.worker, s.sent[i]))
    && ReportsOnce(s.sent)
  }

  ghost predicate ResponseOk(w: Worker, frame: Response) {
    match frame
    case TaskResult(id, outcome) => id in w.tasks && w.tasks[id] == Reported(outcome)
    case ErrorResponse(_, kind) => kind != DuplicateRequest
  }

  ghost predicate Inv(s: System) {
    && AgentOk(s.agent, s.sent) && WorkerOk(s.worker) && ResponsesOk(s)
    && RequestsOk(s.agent.calls, s.toWorker, s.worker.tasks.Keys)
  }

  lemma StepKeepsRequests(s: System, step: Step)
    requires WorkerOk(s.worker) && RequestsOk(s.agent.calls, s.toWorker, s.worker.tasks.Keys) && Enabled(s, step)
    ensures RequestsOk(Apply(s, step).agent.calls, Apply(s, step).toWorker, Apply(s, step).worker.tasks.Keys)
  {
    StepKeepsTasks(s, step);
    if step.TakeRequest? {
      TakeKeepsRequests(s);
    } else if CallStep(step) {
      CallKeepsRequests(s, step);
    }
  }

  lemma TakeKeepsRequests(s: System)
    requires RequestsOk(s.agent.calls, s.toWorker, s.worker.tasks.Keys) && Enabled(s, TakeRequest)
    ensures RequestsOk(s.agent.calls, Apply(s, TakeRequest).toWorker, Apply(s, TakeRequest).worker.tasks.Keys)
  {
    var rest := s.toWorker[1..];
    assert forall i :: 0 <= i < |rest| ==> rest[i] == s.toWorker[i + 1];
    assert forall i :: 0 <= i < |rest| && rest[i].Execute? && s.toWorker[0].Execute? ==> rest[i].id != s.toWorker[0].id;
  }

  lemma CallKeepsRequests(s: System, step: Step)
    requires RequestsOk(s.agent.calls, s.toWorker, s.worker.tasks.Keys) && Enabled(s, step) && CallStep(step)
    ensures RequestsOk(Apply(s, step).agent.calls, Apply(s, step).toWorker, s.worker.tasks.Keys)
  {
  }

  /** The frames sent so far stay true while the Worker moves on. */
  lemma StepKeepsTruth(s: System, step: Step, frame: Response)
    requires RequestsOk(s.agent.calls, s.toWorker, s.worker.tasks.Keys) && Enabled(s, step)
    requires ResponseOk(s.worker, frame)
    ensures ResponseOk(Apply(s, step).worker, frame)
  {
  }

  lemma SentGrows(s: System, step: Step)
    requires WorkerOk(s.worker) && RequestsOk(s.agent.calls, s.toWorker, s.worker.tasks.Keys) && ResponsesOk(s)
    requires Enabled(s, step)
    ensures |Apply(s, step).sent| <= |s.sent| + 1 && s.sent <= Apply(s, step).sent
    ensures |Apply(s, step).sent| == |s.sent| + 1 ==>
              var frame := Apply(s, step).sent[|s.sent|];
              && ResponseOk(Apply(s, step).worker, frame) && Apply(s, step).toAgent == s.toAgent + [frame]
              && (frame.TaskResult? ==> frame.id in s.worker.tasks && s.worker.tasks[frame.id].Reporting?)
  {
  }

  lemma AppendReportsOnce(w: Worker, sent: seq<Response>, frame: Response)
    requires ReportsOnce(sent) && forall i :: 0 <= i < |sent| ==> ResponseOk(w, sent[i])
    requires frame.TaskResult? ==> frame.id in w.tasks && w.tasks[frame.id].Reporting?
    ensures ReportsOnce(sent + [frame])
  {
  }

  lemma StepKeepsResponses(s: System, step: Step)
    requires WorkerOk(s.worker) && RequestsOk(s.agent.calls, s.toWorker, s.worker.tasks.Keys) && ResponsesOk(s)
    requires Enabled(s, step)
    ensures ResponsesOk(Apply(s, step))
  {
    var t := Apply(s, step);
    SentGrows(s, step);
    forall i | 0 <= i < |s.sent|
      ensures ResponseOk(t.worker, t.sent[i])
    {
      StepKeepsTruth(s, step, s.sent[i]);
    }
    if |t.sent| == |s.sent| {
      assert t.sent == s.sent;
    } else {
      AppendReportsOnce(s.worker, s.sent, t.sent[|s.sent|]);
      assert t.sent == s.sent + [t.sent[|s.sent|]];
    }
    assert forall frame :: frame in s.sent ==> frame in t.sent;
  }

  lemma StepKeeps(s: System, step: Step)
    requires Inv(s) && Enabled(s, step)
    ensures Inv(Apply(s, step))
  {
    StepKeepsWorker(s, step);
    StepKeepsRequests(s, step);
    StepKeepsResponses(s, step);
    if CallStep(step) {
      CallKeepsAgent(s, step);
    } else if step.ReadFrame? || step.CloseReader? {
      ReaderKeepsAgent(s, step);
    } else {
      SentGrows(s, step);
      assert forall frame :: frame in s.sent ==> frame in Apply(s, step).sent;
    }
  }

  // ----- whole runs -----

  lemma {:induction false} InvInEveryState(effective: nat, states: seq<System>, steps: seq<Step>, i: nat)
    requires Behaviour(effective, states, steps) && i < |states|
    ensures Inv(states[i]) && states[i].worker.effective == effective
  {
    if i == 0 {
      assert InsideTasks(states[0].worker) == {};
    } else {
      InvInEveryState(effective, states, steps, i - 1);
      StepKeeps(states[i - 1], steps[i - 1]);
      StepKeepsTasks(states[i - 1], steps[i - 1]);
    }
  }

  /** In every state of every run: an answer carries the call's own id and, when it is a task result, the
      outcome that task really came to; a call that is over holds no registration unless its caller left;
      no more tasks are inside `execute` than the handshake agreed; no task reports twice; and no
      request is ever refused as a duplicate. */
  lemma EveryStateIsSound(effective: nat, states: seq<System>, steps: seq<Step>, i: nat, id: RequestId)
    requires Behaviour(effective, states, steps) && i < |states|
    ensures var s := states[i];
            && (id in s.agent.calls && s.agent.calls[id].Done? && s.agent.calls[id].completion.Answered? ==>
                  var frame := s.agent.calls[id].completion.frame;
                  && frame.id == id && frame in s.sent
                  && (frame.TaskResult? ==> id in s.worker.tasks && s.worker.tasks[id] == Reported(frame.outcome)))
            && (id in s.agent.calls && s.agent.calls[id].Done? && id in s.agent.pending ==>
                s.agent.calls[id].completion == Abandoned)
            && |InsideTasks(s.worker)| <= effective
            && ReportsOnce(s.sent)
            && ErrorResponse(id, DuplicateRequest) !in s.sent
  {
    InvInEveryState(effective, states, steps, i);
    var s := states[i];
    assert forall k :: 0 <= k < |s.sent| ==> ResponseOk(s.worker, s.sent[k]);
    assert forall frame :: frame in s.sent ==> ResponseOk(s.worker, frame);
  }

  /** What `before` settled about the call stays settled in `after`. */
  ghost predicate Settled(before: Agent, after: Agent, id: RequestId) {
    && (id in before.calls ==> id in after.calls)
    && (id in before.calls && before.calls[id].Done? ==> after.calls[id] == before.calls[id])
    && (id in before.mailbox ==> id in after.mailbox && after.mailbox[id] == before.mailbox[id] && id !in after.pending)
  }

  lemma StepIsFinal(s: System, step: Step, id: RequestId)
    requires AgentOk(s.agent, s.sent) && Enabled(s, step)
    ensures Settled(s.agent, Apply(s, step).agent, id)
  {
  }

  lemma SettledComposes(a: Agent, b: Agent, c: Agent, id: RequestId)
    requires Settled(a, b, id) && Settled(b, c, id)
    ensures Settled(a, c, id)
  {
  }

  /** A call completes once: its completion never changes, and neither does the reply it was given. Of
      two frames for one request the second is lost. */
  lemma {:induction false} CompletesOnce(effective: nat, states: seq<System>, steps: seq<Step>, i: nat, j: nat,
                                         id: RequestId)
    requires Behaviour(effective, states, steps) && i <= j < |states|
    ensures Settled(states[i].agent, states[j].agent, id)
    decreases j
  {
    if i < j {
      CompletesOnce(effective, states, steps, i, j - 1, id);
      InvInEveryState(effective, states, steps, j - 1);
      StepIsFinal(states[j - 1], steps[j - 1], id);
      SettledComposes(states[i].agent, states[j - 1].agent, states[j].agent, id);
    } else {
      InvInEveryState(effective, states, steps, i);
    }
  }

  // ----- how a call ends -----

  /** When the Worker is given up: it exits, a request cannot be written in time, or after the deadline a Cancel
      cannot be written in time or is not answered. */
  predicate EndsWorker(s: System, step: Step)
    requires Enabled(s, step)
  {
    || step.Exit? || step.WriteTimeout?
    || (step.CancelUnwritten? && step.byDeadline && step.timedOut)
    || (step.CancelTimeout? && s.agent.calls[step.id].byDeadline)
  }

  /** How a call ends by this step, if it does. */
  function EndOf(s: System, step: Step): Option<Completion>
    requires Enabled(s, step)
  {
    match step
    case WriteError(_) => Some(WriteFailed)
    case WriteTimeout(_) => Some(TimedOut)
    case Wake(id) =>
      Some(match s.agent.mailbox[id] case FromFrame(frame) => Answered(frame) case ReaderGone => ChannelClosed)
    case CancelUnwritten(_, false, false) => Some(WriteFailed)
    case CancelUnwritten(_, _, _) => Some(TimedOut)
    case CancelAnswered(id) => Some(if s.agent.calls[id].byDeadline then TimedOut else CancelConfirmed)
    case CancelTimeout(_) => Some(TimedOut)
    case Abandon(_) => Some(Abandoned)
    case _ => None
  }

  /** Each step ends at most the call it is about, as its kind says, and gives the Worker up exactly when it should; a
      Worker that is gone stays gone. */
  lemma EndsAsItShould(s: System, step: Step, id: RequestId)
    requires Enabled(s, step)
    ensures var t := Apply(s, step);
            && (t.worker.gone <==> s.worker.gone || EndsWorker(s, step))
            && (id in t.agent.calls && t.agent.calls[id].Done? <==>
                || (id in s.agent.calls && s.agent.calls[id].Done?)
                || (EndOf(s, step).Some? && step.id == id))
            && (EndOf(s, step).Some? ==> t.agent.calls[step.id] == Done(EndOf(s, step).value))
  {
  }

  // ----- every call ends -----

  function Rank(s: System, id: RequestId): nat {
    if id !in s.agent.calls then 4
    else match s.agent.calls[id]
      case Writing => 3
      case Waiting => 2
      case Cancelling(_) => 1
      case Done(_) => 0
  }

  predicate OwnStep(step: Step, id: RequestId) {
    CallStep(step) && step.id == id
  }

  function OwnSteps(steps: seq<Step>, id: RequestId): nat {
    if steps == [] then 0 else OwnSteps(steps[..|steps| - 1], id) + if OwnStep(steps[|steps| - 1], id) then 1 else 0
  }

  lemma RankFalls(s: System, step: Step, id: RequestId)
    requires Enabled(s, step)
    ensures OwnStep(step, id) ==> Rank(Apply(s, step), id) < Rank(s, id)
    ensures !OwnStep(step, id) ==> Rank(Apply(s, step), id) == Rank(s, id)
  {
  }

  lemma {:induction false} FewSteps(effective: nat, states: seq<System>, steps: seq<Step>, id: RequestId)
    requires Behaviour(effective, states, steps)
    ensures OwnSteps(steps, id) + Rank(states[|steps|], id) <= 4
  {
    if steps != [] {
      var n := |steps| - 1;
      FewSteps(effective, states[..n + 1], steps[..n], id);
      RankFalls(states[n], steps[n], id);
    }
  }

  /** The step a timer takes for a call that nobody answers. */
  function TimerStep(call: Call, id: RequestId): Step
    requires !call.Done?
  {
    match call
    case Writing => WriteTimeout(id)
    case Waiting => CancelWritten(id, true)
    case Cancelling(_) => CancelTimeout(id)
  }

  /** No call hangs: whatever the Worker, the pipe and the other calls do, a call takes at most four
      steps of its own, and until it is over its timer can take the next one, which brings the end
      nearer. This includes calls begun after the reader has closed, which nobody will answer. */
  lemma EveryCallEnds(effective: nat, states: seq<System>, steps: seq<Step>, id: RequestId)
    requires Behaviour(effective, states, steps) && id in states[|steps|].agent.calls
    ensures OwnSteps(steps, id) <= 4
    ensures var s := states[|steps|];
            !s.agent.calls[id].Done? ==>
              var timer := TimerStep(s.agent.calls[id], id);
              Enabled(s, timer) && Rank(Apply(s, timer), id) < Rank(s, id)
  {
    FewSteps(effective, states, steps, id);
  }

  /** A Cancel that arrives while its request is about to report is answered twice: first that the request
      is unknown, then with the result. */
  lemma CancelRace(s: System, id: RequestId)
    requires Inv(s) && !s.worker.gone
    requires id in s.worker.tasks && s.worker.tasks[id].Reporting? && s.toWorker == [Cancel(id)]
    ensures var unknown := Apply(s, TakeRequest);
            && Enabled(unknown, Report(id))
            && Apply(unknown, Report(id)).sent
               == s.sent + [ErrorResponse(id, UnknownRequest), TaskResult(id, s.worker.tasks[id].outcome)]
            && Apply(unknown, Report(id)).toAgent
               == s.toAgent + [ErrorResponse(id, UnknownRequest), TaskResult(id, s.worker.tasks[id].outcome)]
            && Apply(unknown, Report(id)).agent == s.agent
  {
    assert id !in s.worker.tokens;
  }

  /** How a call ends whose Cancel is answered. */
  function CancelEnd(call: Call): Completion
    requires call.Cancelling?
  {
    if call.byDeadline then TimedOut else CancelConfirmed
  }

  /** Whatever answers a Cancel, the result of a finished task or the end of the reader included, ends the call as
      cancelled, or as timed out after its deadline; the answer is lost, and so is every later frame for it. */
  lemma CancelRaceEnds(s: System, id: RequestId)
    requires id in s.agent.calls && s.agent.calls[id].Cancelling? && id in s.agent.pending
    ensures Enabled(s, ReadFrame) && s.toAgent[0].id == id ==>
              var got := Apply(s, ReadFrame);
              && Enabled(got, CancelAnswered(id)) && id !in got.agent.pending
              && Apply(got, CancelAnswered(id)).agent.calls[id] == Done(CancelEnd(s.agent.calls[id]))
    ensures Enabled(s, CloseReader) ==>
              var closed := Apply(s, CloseReader);
              && Enabled(closed, CancelAnswered(id)) && id !in closed.agent.pending
              && Apply(closed, CancelAnswered(id)).agent.calls[id] == Done(CancelEnd(s.agent.calls[id]))
  {
  }

  /** A call for which a Cancel was written, and how it can end. */
  predicate CancelSettles(call: Call) {
    call.Cancelling? || call == Done(TimedOut) || call == Done(CancelConfirmed) || call == Done(Abandoned)
  }

  lemma CancelSettlesStep(s: System, step: Step, id: RequestId)
    requires Enabled(s, step) && id in s.agent.calls && CancelSettles(s.agent.calls[id])
    ensures id in Apply(s, step).agent.calls && CancelSettles(Apply(s, step).agent.calls[id])
  {
  }

  /** Once a Cancel is written no reply is ever passed on, in any interleaving: not even a success that the Worker
      had already sent. */
  lemma {:induction false} NoReplyAfterCancel(states: seq<System>, steps: seq<Step>, id: RequestId, i: nat, j: nat)
    requires |states| == |steps| + 1 && i <= j < |states|
    requires forall k :: 0 <= k < |steps| ==>
              Enabled(states[k], steps[k]) && states[k + 1] == Apply(states[k], steps[k])
    requires id in states[i].agent.calls && states[i].agent.calls[id].Cancelling?
    ensures id in states[j].agent.calls && CancelSettles(states[j].agent.calls[id])
    decreases j - i
  {
    if i < j {
      NoReplyAfterCancel(states, steps, id, i, j - 1);
      CancelSettlesStep(states[j - 1], steps[j - 1], id);
    }
  }
}
