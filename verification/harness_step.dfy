// Every transaction and every worker move of a node as one step, and whole runs of steps.
module HarnessStep {
  import opened Common
  import opened HarnessState
  import opened HarnessObserve
  import opened HarnessAdmission
  import opened HarnessHold
  import opened HarnessActions

  datatype Step =
    | Submit(id: Id, command: Command, drawn: Drawn)
    | Install(operation: Id, install: InstallRequest)
    | Release(operation: Id, release: ReleaseRequest)
    | Delete(operation: Id, delete: DeleteRequest)
    | PeekDispatch(request: Id)
    | DispatchNext(attempt: Id, generation: int)
    | Block
    | ClaimAction(lane: Lane, action: Id)
    | Gate(action: Id)
    | Read(action: Id, policySound: bool)
    | Begin(action: Id)
    | Reply(action: Id, answer: Answer)
    | Commit(action: Id, commit: bool)
    | Finish(action: Id, commit: bool)
    | Ungate
    | Observe(reference: AttemptRef, event: AdapterEvent, ids: Ids)
    | StreamLost(reference: AttemptRef)
    | Ingest(reference: AttemptRef, artifact: Id, call: Option<Id>, size: nat, ids: Ids)
    | ReconcileStep(reference: AttemptRef, event: AdapterEvent, message: Id, ids: Ids)
    | CrashAndRestart

  // A step whose transaction is refused, or whose turn it is not, leaves the state as it is.
  function Next(s: State, step: Step): State {
    match step
    case Submit(id, command, drawn) => SubmitCommand(s, id, command, drawn).0
    case Install(operation, request) => InstallHold(s, operation, request).0
    case Release(operation, request) => ReleaseHold(s, operation, request).0
    case Delete(operation, request) => DeleteLogicalDialog(s, operation, request).0
    case PeekDispatch(request) => Peek(s, request)
    case DispatchNext(attempt, generation) => DispatchCandidate(s, attempt, generation)
    case Block => BlockPolicy(s)
    case ClaimAction(lane, action) => Claim(s, lane, action)
    case Gate(action) => TakeGate(s, action)
    case Read(action, sound) => ReadDispatch(s, action, sound)
    case Begin(action) => BeginCall(s, action)
    case Reply(action, answer) => TakeAnswer(s, action, answer)
    case Commit(action, commit) => Settle(s, action, commit)
    case Finish(action, commit) => FinishAction(s, action, commit)
    case Ungate => ReleaseGate(s)
    case Observe(reference, event, ids) => ObserveAdapterEvent(s, reference, event, ids)
    case StreamLost(reference) => LoseStream(s, reference)
    case Ingest(reference, artifact, call, size, ids) => StoreArtifact(s, reference, artifact, call, size, ids)
    case ReconcileStep(reference, event, message, ids) => Reconcile(s, reference, event, message, ids)
    case CrashAndRestart => Restart(s)
  }

  // observeAdapterStream gives up: the reference is the one performDispatch was given
  function LoseStream(s: State, reference: AttemptRef): State {
    if reference.attempt in s.core.attempts && Reference(s, reference.attempt) == reference then MarkAttemptUnknown(s, reference) else s
  }

  function Run(s: State, steps: seq<Step>): State {
    if steps == [] then s else Next(Run(s, steps[..|steps| - 1]), steps[|steps| - 1])
  }

  // a run of two parts
  lemma {:induction false} RunAppends(s: State, steps: seq<Step>, later: seq<Step>)
    ensures Run(s, steps + later) == Run(Run(s, steps), later)
  {
    hide Next;
    if later == [] {
      assert steps + later == steps;
    } else {
      assert (steps + later)[..|steps + later| - 1] == steps + later[..|later| - 1];
      RunAppends(s, steps, later[..|later| - 1]);
    }
  }
}
