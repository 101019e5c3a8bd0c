// The durable tables of one Harness node and the volatile state of its action workers.
// Identities are natural numbers, a digest is the value it was taken of, and clocks are left out.
module HarnessState {
  import opened Common
  import opened OutputBudget

  type Id = int

  const QUEUE_CAPACITY: nat := 100

  // ----- rows -----

  datatype Dialog = Dialog(version: int)

  datatype RequestStatus = Queued | Dispatching | Active | Unknown | Completed | Failed | Interrupted | Cancelled

  datatype Request = Request(dialog: Id, message: Id, queueSequence: int, version: int, status: RequestStatus)

  datatype Disposition = Unset | Queued | SteerPending | Applied | Unknown | Cancelled

  // content is present on the rows with role 'assistant' only
  datatype Message = Message(dialog: Id, sequence: int, version: int, disposition: Disposition,
                             request: Option<Id>, attempt: Option<Id>, content: Option<Content>)

  datatype Content = Body(inlineBytes: nat, text: int) | OutputLimit

  datatype AttemptState = Dispatching | Running | WaitingInput | Stopping | Unknown | Completed | Failed | Interrupted

  datatype Effects = Nothing | Known | Unknown

  // started stands for started_at IS NOT NULL
  datatype Attempt = Attempt(dialog: Id, request: Id, generation: int, version: int, state: AttemptState,
                             effects: Effects, started: bool, outputBytes: nat)

  datatype AttemptRef = AttemptRef(dialog: Id, request: Id, attempt: Id, generation: int)

  datatype ActionKind = DispatchStart | Stop | Steer | Approval | Input

  datatype ActionStatus = Pending | Inflight | Acknowledged | Rejected | Unknown

  // row is SQLite's rowid; subject and subjectVersion name the approval or input request answered
  datatype Action = Action(row: int, kind: ActionKind, reference: AttemptRef, message: Id,
                           subject: Id, subjectVersion: int, status: ActionStatus)

  datatype ToolStatus = Running | Succeeded | Failed | Unknown

  datatype ToolCall = ToolCall(attempt: Id, actionHash: Id, version: int, status: ToolStatus)

  datatype AnswerStatus = Pending | Responding | Resolved | Unknown

  datatype ApprovalRow = ApprovalRow(attempt: Id, call: Id, actionHash: Id, version: int, status: AnswerStatus)

  datatype InputRow = InputRow(attempt: Id, version: int, status: AnswerStatus)

  datatype Artifact = Artifact(dialog: Id, attempt: Id, call: Option<Id>, size: nat)

  // ----- adapter events and their projections -----

  datatype WaitKind = ForApproval | ForInput | Other

  datatype Outcome = Completed | Failed | Interrupted | Unknown | Other

  datatype FailureClass = Task | NodeFault | Policy | Protocol

  // messageBytes is the size of the safe message, detail stands for the rest of what is reported
  datatype Failure = Failure(failureClass: FailureClass, messageBytes: nat, detail: int)

  datatype AdapterEvent =
    | Started
    | Waiting(kind: WaitKind)
    | AssistantDelta(message: Id, index: int, content: Content)
    | AssistantMessage(message: Id, content: Content)
    | ToolStarted(call: Id, actionHash: Id, content: Content)
    | ToolOutput(call: Id, index: int, content: Content)
    | ToolCompleted(call: Id, status: ToolStatus, effects: Effects, content: Content)
    | ApprovalRequested(approval: Id, call: Id, actionHash: Id, promptBytes: nat)
    | InputRequested(input: Id, content: Content)
    | Terminal(outcome: Outcome, terminalEffects: Option<Effects>, failure: Option<Failure>, output: Option<Content>, usage: int)
    | UnknownReport(reported: Effects)

  datatype Key =
    | Started
    | Waiting(version: int)
    | AssistantDelta(message: Id, index: int)
    | AssistantMessage(message: Id)
    | ToolStarted(call: Id)
    | ToolOutput(call: Id, index: int)
    | ToolCompleted(call: Id)
    | ApprovalRequested(approval: Id)
    | InputRequested(input: Id)
    | Terminal
    | Unknown
    | ArtifactLimit
    | Archive(of: Key)

  // The digest of a completed end names the assistant message that was the newest one, and the usage.
  datatype Digest =
    | OfEvent(event: AdapterEvent)
    | OfCompleted(output: set<Id>, usage: int)
    | OfFailed(failure: Option<Failure>, effects: Effects)
    | OfInterrupted(effects: Effects)
    | OfMarker(message: Id)

  datatype EventKind =
    | NodeStateChanged | QueueChanged | DialogDeleted | MessageAccepted | DispositionChanged
    | AttemptDispatching | AttemptStarted | AttemptWaiting | AttemptStopRequested | AttemptUnknown
    | AttemptCompleted | AttemptFailed | AttemptInterrupted
    | AssistantDelta | AssistantMessage | ToolStarted | ToolOutput | ToolCompleted
    | ApprovalRequested | ApprovalResolved | InputRequested | InputResolved | ArtifactAvailable

  datatype EventRow = EventRow(kind: EventKind, entity: Id, version: int, attempt: Option<Id>, dialog: Option<Id>, late: bool)

  datatype LateRow = LateRow(attempt: Id, key: Option<Key>, digest: Option<Digest>, outputBytes: nat)

  // ----- holds and commands -----

  datatype Scope = WholeNode | OneDialog(dialog: Id)

  predicate Covers(scope: Scope, dialog: Id) {
    scope.WholeNode? || scope.dialog == dialog
  }

  predicate Overlap(left: Scope, right: Scope) {
    left.WholeNode? || right.WholeNode? || left.dialog == right.dialog
  }

  datatype Hold = Hold(scope: Scope, version: int, scopeRevision: int, epoch: int, binding: int, digest: Id)

  datatype Command =
    | CreateDialog(registryVersion: int)
    | DeleteDialog(dialog: Id, dialogVersion: int)
    | EnqueueMessage(dialog: Id, dialogVersion: int, text: Id)
    | CancelRequest(request: Id, requestVersion: int)
    | ResumeQueue(queueVersion: int)
    | StopAttempt(attempt: Id, generation: int)
    | RetryAttempt(attempt: Id, generation: int, acknowledgeKnownEffects: bool)
    | SteerMessage(dialog: Id, attempt: Id, message: Id, generation: int, messageVersion: int)
    | RespondApproval(approval: Id, attempt: Id, approvalVersion: int, generation: int, actionHash: Id, decision: Id)
    | RespondInput(input: Id, attempt: Id, inputVersion: int, generation: int, text: Id)

  // the dialog and the request that the receipt's references name, where they name one
  datatype Receipt = Receipt(command: Command, created: Option<Id>, request: Option<Id>)

  // ----- workers -----

  // What the adapter said: an error, or an outcome. Fallback is declared for steer calls only.
  datatype Answer = Accepted | Fallback | Rejected | Uncertain | Error | Undeclared

  datatype Phase =
    | Claimed
    | Gated
    | Ready(resume: bool)
    | Calling(resume: bool)
    | Answered(answer: Answer)
    | Finishing(status: ActionStatus)

  datatype Candidate = Candidate(request: Id, dialog: Id, message: Id, queueSequence: int, stateVersion: int)

  // ----- the node_state row -----

  datatype Reason = OperatorPause | ExecutionUnknown | PolicyUnavailable | EngineUnavailable | AdapterProtocol

  datatype Readiness = Ready | Blocked | Unknown

  datatype Occupancy = Idle | Active | Unknown

  datatype NodeRow = NodeRow(registryVersion: int, epoch: int, stateVersion: int, queueVersion: int, queuePaused: bool,
                             readiness: Readiness, occupancy: Occupancy, slot: Option<Id>, pendingCount: int,
                             blocked: seq<Reason>, nextQueueSequence: int, nextMessageSequence: int)

  // the tables every transaction works on
  datatype Core = Core(
    messages: map<Id, Message>,
    requests: map<Id, Request>,
    attempts: map<Id, Attempt>,
    actions: map<Id, Action>)

  datatype Rows = Rows(
    tools: map<Id, ToolCall>,
    approvals: map<Id, ApprovalRow>,
    inputs: map<Id, InputRow>,
    artifacts: map<Id, Artifact>)

  datatype Log = Log(
    events: seq<EventRow>,
    projected: map<(Id, Key), Digest>,
    late: seq<LateRow>)

  datatype Admin = Admin(
    dialogs: map<Id, Dialog>,
    tombstones: set<Id>,
    holds: map<Id, Hold>,
    holdOutcomes: map<Id, Id>,
    revisions: map<Scope, int>,
    holdClock: int,
    commands: map<Id, Receipt>,
    rejections: map<Id, Command>,
    deletions: map<Id, Id>)

  // what a crash loses
  datatype Volatile = Volatile(
    gate: Option<Id>,
    workers: map<Id, Phase>,
    peeked: Option<Candidate>)

  datatype State = State(node: NodeRow, core: Core, rows: Rows, log: Log, admin: Admin, run: Volatile)

  // A new volume, as migrate writes it.
  function Init(registryVersion: int): State {
    State(NodeRow(registryVersion, 1, 0, 0, false, Readiness.Blocked, Occupancy.Idle, None, 0, [PolicyUnavailable], 1, 1),
          Core(map[], map[], map[], map[]), Rows(map[], map[], map[], map[]), Log([], map[], []),
          Admin(map[], {}, map[], map[], map[], 1, map[], map[], map[]), Volatile(None, map[], None))
  }

  // ----- reading the tables -----

  predicate IsLive(state: AttemptState) {
    state.Dispatching? || state.Running? || state.WaitingInput? || state.Stopping? || state.Unknown?
  }

  predicate IsTerminal(state: AttemptState) {
    state.Completed? || state.Failed? || state.Interrupted?
  }

  // no longer worked on: it can only end, or end up unknown
  predicate IsOver(state: AttemptState) {
    state.Unknown? || IsTerminal(state)
  }

  predicate Holds(s: State, operation: Id) {
    operation in s.admin.holds && operation !in s.admin.holdOutcomes
  }

  // some active hold covers the dialog
  predicate Held(s: State, dialog: Id) {
    exists op :: op in s.admin.holds && op !in s.admin.holdOutcomes && Covers(s.admin.holds[op].scope, dialog)
  }

  predicate NodeHeld(s: State) {
    exists op :: op in s.admin.holds && op !in s.admin.holdOutcomes && s.admin.holds[op].scope.WholeNode?
  }

  predicate IsQueued(s: State, request: Id) {
    request in s.core.requests && s.core.requests[request].status.Queued?
  }

  // pending, inflight or unknown: the answer is still owed
  predicate Owed(status: ActionStatus) {
    status.Pending? || status.Inflight? || status.Unknown?
  }

  // a steer, approval or input action of the attempt whose answer is still owed
  predicate ControlOwed(s: State, attempt: Id) {
    exists c :: c in s.core.actions && s.core.actions[c].reference.attempt == attempt
      && (s.core.actions[c].kind.Steer? || s.core.actions[c].kind.Approval? || s.core.actions[c].kind.Input?) && Owed(s.core.actions[c].status)
  }

  function ArchivedBytes(late: seq<LateRow>, attempt: Id): seq<nat> {
    if late == [] then []
    else
      var row := late[|late| - 1];
      ArchivedBytes(late[..|late| - 1], attempt)
      + (if row.attempt == attempt && row.key.Some? then [row.outputBytes] else [])
  }

  lemma ArchivedBytesAppend(late: seq<LateRow>, row: LateRow, a: Id)
    ensures ArchivedBytes(late + [row], a)
         == ArchivedBytes(late, a) + (if row.attempt == a && row.key.Some? then [row.outputBytes] else [])
  {
    assert (late + [row])[..|late|] == late;
  }

  function OutputLedger(s: State, attempt: Id): Ledger
    requires attempt in s.core.attempts
  {
    Ledger(s.core.attempts[attempt].outputBytes, ArchivedBytes(s.log.late, attempt))
  }

  function Reference(s: State, attempt: Id): AttemptRef
    requires attempt in s.core.attempts
  {
    var a := s.core.attempts[attempt];
    AttemptRef(a.dialog, a.request, attempt, a.generation)
  }

  // ----- small updates shared by the transactions -----

  function AddReason(reasons: seq<Reason>, reason: Reason): seq<Reason> {
    if reason in reasons then reasons else reasons + [reason]
  }

  function RemoveReason(reasons: seq<Reason>, reason: Reason): seq<Reason> {
    if reasons == [] then []
    else if reasons[0] == reason then RemoveReason(reasons[1..], reason)
    else [reasons[0]] + RemoveReason(reasons[1..], reason)
  }

  lemma {:induction false} RemovedReasons(reasons: seq<Reason>, reason: Reason)
    ensures reason !in RemoveReason(reasons, reason)
    ensures forall r :: r != reason ==> (r in reasons <==> r in RemoveReason(reasons, reason))
  {
    if reasons != [] {
      RemovedReasons(reasons[1..], reason);
      assert reasons == [reasons[0]] + reasons[1..];
    }
  }

  // appendEvent: seq numbers are positions in the log
  function Emit(s: State, kind: EventKind, entity: Id, version: int, attempt: Option<Id>, dialog: Option<Id>, late: bool): State {
    s.(log := s.log.(events := s.log.events + [EventRow(kind, entity, version, attempt, dialog, late)]))
  }

  function EmitNode(s: State): State {
    Emit(s, NodeStateChanged, 0, s.node.stateVersion, None, None, false)
  }

  function EmitQueue(s: State): State {
    Emit(s, QueueChanged, 0, s.node.queueVersion, None, None, false)
  }

  // state.StateVersion++
  function Tick(s: State): State {
    s.(node := s.node.(stateVersion := s.node.stateVersion + 1))
  }

  // UPDATE requests SET version=version+1,status=? WHERE request_id=?
  function SetRequest(s: State, request: Id, status: RequestStatus): State {
    if request in s.core.requests then
      var r := s.core.requests[request];
      s.(core := s.core.(requests := s.core.requests[request := r.(version := r.version + 1, status := status)]))
    else s
  }

  // UPDATE messages SET version=version+1,disposition=? WHERE message_id=?
  function SetDisposition(s: State, message: Id, disposition: Disposition): State {
    if message in s.core.messages then
      var m := s.core.messages[message];
      s.(core := s.core.(messages := s.core.messages[message := m.(version := m.version + 1, disposition := disposition)]))
    else s
  }

  function SetAttempt(s: State, attempt: Id, state: AttemptState): State
    requires attempt in s.core.attempts
  {
    var a := s.core.attempts[attempt];
    s.(core := s.core.(attempts := s.core.attempts[attempt := a.(version := a.version + 1, state := state)]))
  }

  function InsertAction(s: State, command: Id, kind: ActionKind, reference: AttemptRef, message: Id, subject: Id, subjectVersion: int): State {
    s.(core := s.core.(actions := s.core.actions[command := Action(|s.core.actions|, kind, reference, message, subject, subjectVersion, ActionStatus.Pending)]))
  }
}
