/** Agent and Worker process talking over a pipe: concurrent `execute` calls on one side, a read loop and
    spawned tasks on the other. Every interleaving is a sequence of the steps below. */
module WorkerRpc {
  import opened Basics

  type RequestId = nat

  /** What a task came to; its content does not matter here. */
  type TaskOutcome = nat

  datatype Request = Execute(id: RequestId, known: bool) | Cancel(id: RequestId)

  datatype ErrorKind = UnknownTask | DuplicateRequest | UnknownRequest | ResultDeliveryFailed

  datatype Response = TaskResult(id: RequestId, outcome: TaskOutcome) | ErrorResponse(id: RequestId, kind: ErrorKind)

  /** What a waiting call finds: a frame, or that the reader is gone. */
  datatype Reply = FromFrame(frame: Response) | ReaderGone

  datatype Completion =
    | Answered(frame: Response)
    | ChannelClosed
    | TimedOut
    | CancelConfirmed
    | WriteFailed
    | Abandoned

  /** One `execute` call of the Agent. */
  datatype Call = Writing | Waiting | Cancelling(byDeadline: bool) | Done(completion: Completion)

  datatype Agent = Agent(
    calls: map<RequestId, Call>,
    pending: set<RequestId>,
    mailbox: map<RequestId, Reply>,
    readerClosed: bool)

  /** A task waits for a permit, is inside `execute`, has ended but can still be cancelled, is about to
      report its outcome, or has reported. */
  datatype Phase =
    | Queued
    | Inside
    | Ended(outcome: TaskOutcome)
    | Reporting(outcome: TaskOutcome)
    | Reported(outcome: TaskOutcome)

  datatype Worker = Worker(
    effective: nat,
    permits: nat,
    tokens: map<RequestId, bool>,
    tasks: map<RequestId, Phase>,
    gone: bool)

  /** An observer's records: `sent` is everything the Worker ever wrote, `asked` tells of each call that was written
      whether the Worker knows the kind of task it asks for. */
  datatype System = System(agent: Agent, worker: Worker, toWorker: seq<Request>, toAgent: seq<Response>,
                           sent: seq<Response>, asked: map<RequestId, bool>)

  function Initial(effective: nat): System {
    System(Agent(map[], {}, map[], false), Worker(effective, effective, map[], map[], false), [], [], [], map[])
  }

  // ----- the handshake -----

  const U32_MAX: nat := 0xFFFF_FFFF

  /** The Worker answers with the smaller of its own limit and the Agent's, if that fits the field. */
  function OfferedConcurrency(workerMax: nat, requested: nat): nat {
    var effective := Min(workerMax, requested);
    if effective > U32_MAX then U32_MAX else effective
  }

  predicate AgentAccepts(offered: nat, requested: nat) {
    1 <= offered <= requested
  }

  /** Every Worker limit is at least one, so a non-zero request is always answered acceptably, and the
      number the Agent records is the number of permits the Worker hands out. */
  lemma HandshakeAgrees(workerMax: nat, requested: nat)
    requires 1 <= workerMax && 1 <= requested <= U32_MAX
    ensures AgentAccepts(OfferedConcurrency(workerMax, requested), requested)
    ensures OfferedConcurrency(workerMax, requested) == Min(workerMax, requested)
  {
  }

  // ----- steps -----

  datatype Step =
    // Agent: calls
    | Begin(id: RequestId)
    | WriteOk(id: RequestId, known: bool)
    | WriteError(id: RequestId)
    | WriteTimeout(id: RequestId)
    | Wake(id: RequestId)
    | CancelWritten(id: RequestId, byDeadline: bool)
    | CancelUnwritten(id: RequestId, byDeadline: bool, timedOut: bool)
    | CancelAnswered(id: RequestId)
    | CancelTimeout(id: RequestId)
    | Abandon(id: RequestId)
    // Agent: reader
    | ReadFrame
    | CloseReader
    // Worker
    | TakeRequest
    | Acquire(id: RequestId)
    | Finish(id: RequestId, outcome: TaskOutcome)
    | ExpireQueued(id: RequestId, outcome: TaskOutcome)
    | DropToken(id: RequestId)
    | Report(id: RequestId)
    | ReportFailed(id: RequestId, delivered: bool)
    | Exit

  predicate Enabled(s: System, step: Step) {
    var a, w := s.agent, s.worker;
    match step
    case Begin(id) => id !in a.calls
    case WriteOk(id, _) => id in a.calls && a.calls[id].Writing?
    case WriteError(id) => id in a.calls && a.calls[id].Writing?
    case WriteTimeout(id) => id in a.calls && a.calls[id].Writing?
    case Wake(id) => id in a.calls && a.calls[id].Waiting? && id in a.mailbox
    case CancelWritten(id, _) => id in a.calls && a.calls[id].Waiting?
    case CancelUnwritten(id, _, _) => id in a.calls && a.calls[id].Waiting?
    case CancelAnswered(id) => id in a.calls && a.calls[id].Cancelling? && id in a.mailbox
    case CancelTimeout(id) => id in a.calls && a.calls[id].Cancelling?
    case Abandon(id) => id in a.calls && !a.calls[id].Done?
    case ReadFrame => !a.readerClosed && s.toAgent != []
    case CloseReader => !a.readerClosed
    case TakeRequest => !w.gone && s.toWorker != []
    case Acquire(id) => !w.gone && id in w.tasks && w.tasks[id].Queued? && w.permits > 0
    case Finish(id, _) => !w.gone && id in w.tasks && w.tasks[id].Inside?
    case ExpireQueued(id, _) => !w.gone && id in w.tasks && w.tasks[id].Queued?
    case DropToken(id) => !w.gone && id in w.tasks && w.tasks[id].Ended?
    case Report(id) => !w.gone && id in w.tasks && w.tasks[id].Reporting?
    case ReportFailed(id, _) => !w.gone && id in w.tasks && w.tasks[id].Reporting?
    case Exit => !w.gone
  }

  function Complete(a: Agent, id: RequestId, completion: Completion): Agent {
    a.(calls := a.calls[id := Done(completion)])
  }

  /** The call ends and gives up its place in the pending map. */
  function GiveUp(a: Agent, id: RequestId, completion: Completion): Agent {
    Complete(a, id, completion).(pending := a.pending - {id})
  }

  function Send(s: System, frame: Response): System {
    s.(toAgent := s.toAgent + [frame], sent := s.sent + [frame])
  }

  /** The reader matches a frame with the call of the same id, if one still waits; other frames are lost. */
  function Dispatch(a: Agent, frame: Response): Agent {
    if frame.id in a.pending then
      a.(pending := a.pending - {frame.id}, mailbox := a.mailbox[frame.id := FromFrame(frame)])
    else a
  }

  function TakeRequestOf(s: System, request: Request): System {
    var w := s.worker;
    match request
    case Execute(id, known) =>
      if !known then Send(s, ErrorResponse(id, UnknownTask))
      else if id in w.tokens then Send(s, ErrorResponse(id, DuplicateRequest))
      else s.(worker := w.(tokens := w.tokens[id := false], tasks := w.tasks[id := Queued]))
    case Cancel(id) =>
      if id in w.tokens then s.(worker := w.(tokens := w.tokens[id := true]))
      else Send(s, ErrorResponse(id, UnknownRequest))
  }

  function Retire(s: System, id: RequestId): System
    requires id in s.worker.tasks && s.worker.tasks[id].Reporting?
  {
    s.(worker := s.worker.(tasks := s.worker.tasks[id := Reported(s.worker.tasks[id].outcome)]))
  }

  function Apply(s: System, step: Step): System
    requires Enabled(s, step)
  {
    var a, w := s.agent, s.worker;
    match step
    case Begin(id) => s.(agent := a.(calls := a.calls[id := Writing], pending := a.pending + {id}))
    case WriteOk(id, known) => s.(agent := a.(calls := a.calls[id := Waiting]),
                                  toWorker := s.toWorker + [Execute(id, known)], asked := s.asked[id := known])
    case WriteError(id) => s.(agent := GiveUp(a, id, WriteFailed))
    case WriteTimeout(id) => s.(agent := GiveUp(a, id, TimedOut), worker := w.(gone := true))
    case Wake(id) =>
      s.(agent := Complete(a, id, if a.mailbox[id].FromFrame? then Answered(a.mailbox[id].frame) else ChannelClosed))
    case CancelWritten(id, byDeadline) =>
      s.(agent := a.(calls := a.calls[id := Cancelling(byDeadline)]), toWorker := s.toWorker + [Cancel(id)])
    case CancelUnwritten(id, byDeadline, timedOut) =>
      s.(agent := GiveUp(a, id, if byDeadline || timedOut then TimedOut else WriteFailed),
         worker := if byDeadline && timedOut then w.(gone := true) else w)
    case CancelAnswered(id) =>
      s.(agent := Complete(a, id, if a.calls[id].byDeadline then TimedOut else CancelConfirmed))
    case CancelTimeout(id) =>
      s.(agent := GiveUp(a, id, TimedOut), worker := if a.calls[id].byDeadline then w.(gone := true) else w)
    case Abandon(id) => s.(agent := Complete(a, id, Abandoned))
    case ReadFrame => s.(agent := Dispatch(a, s.toAgent[0]), toAgent := s.toAgent[1..])
    case CloseReader =>
      s.(agent := a.(pending := {}, mailbox := a.mailbox + (map id | id in a.pending :: ReaderGone),
                     readerClosed := true))
    case TakeRequest => TakeRequestOf(s.(toWorker := s.toWorker[1..]), s.toWorker[0])
    case Acquire(id) => s.(worker := w.(tasks := w.tasks[id := Inside], permits := w.permits - 1))
    case Finish(id, outcome) => s.(worker := w.(tasks := w.tasks[id := Ended(outcome)], permits := w.permits + 1))
    case ExpireQueued(id, outcome) => s.(worker := w.(tasks := w.tasks[id := Ended(outcome)]))
    case DropToken(id) =>
      s.(worker := w.(tasks := w.tasks[id := Reporting(w.tasks[id].outcome)], tokens := w.tokens - {id}))
    case Report(id) => Send(Retire(s, id), TaskResult(id, w.tasks[id].outcome))
    case ReportFailed(id, delivered) =>
      if delivered then Send(Retire(s, id), ErrorResponse(id, ResultDeliveryFailed)) else Retire(s, id)
    case Exit => s.(worker := w.(gone := true))
  }

  ghost predicate Behaviour(effective: nat, states: seq<System>, steps: seq<Step>) {
    && |states| == |steps| + 1 && states[0] == Initial(effective)
    && forall i :: 0 <= i < |steps| ==> Enabled(states[i], steps[i]) && states[i + 1] == Apply(states[i], steps[i])
  }
}
