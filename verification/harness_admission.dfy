// Command admission: SubmitCommand and its handlers (harness/node/command.go,
// command_handlers.go, control_handlers.go) and the logical delete (logical_delete.go).
module HarnessAdmission {
  import opened Common
  import opened HarnessState

  datatype Drawn = Drawn(first: Id, second: Id)

  // ----- the handlers; None is a refused command -----

  function ApplyDialogCreate(s: State, registryVersion: int, dialog: Id): Option<State> {
    if registryVersion != s.node.registryVersion || dialog in s.admin.dialogs then None
    else Some(EmitNode(Tick(s.(admin := s.admin.(dialogs := s.admin.dialogs[dialog := Dialog(1)])))))
  }

  function BumpDialog(s: State, dialog: Id): State
    requires dialog in s.admin.dialogs
  {
    s.(admin := s.admin.(dialogs := s.admin.dialogs[dialog := Dialog(s.admin.dialogs[dialog].version + 1)]))
  }

  function ApplyMessageEnqueue(s: State, dialog: Id, dialogVersion: int, drawn: Drawn): Option<State> {
    if dialog !in s.admin.dialogs || s.admin.dialogs[dialog].version != dialogVersion || s.node.pendingCount >= QUEUE_CAPACITY
       || drawn.first in s.core.messages || drawn.second in s.core.requests then None
    else
      var n := s.node;
      var s1 := s.(core := s.core.(
        messages := s.core.messages[drawn.first := Message(dialog, n.nextMessageSequence, 1, Disposition.Queued, Some(drawn.second), None, None)],
        requests := s.core.requests[drawn.second := Request(dialog, drawn.first, n.nextQueueSequence, 1, RequestStatus.Queued)]));
      var s2 := BumpDialog(s1, dialog);
      var s3 := s2.(node := n.(nextMessageSequence := n.nextMessageSequence + 1, nextQueueSequence := n.nextQueueSequence + 1,
                               pendingCount := n.pendingCount + 1, queueVersion := n.queueVersion + 1,
                               stateVersion := n.stateVersion + 1));
      Some(EmitNode(EmitQueue(Emit(s3, MessageAccepted, drawn.first, 1, None, None, false))))
  }

  // the event carries entity version 2 whatever the row's version
  function ApplyRequestCancel(s: State, request: Id, requestVersion: int): Option<State> {
    if request !in s.core.requests || s.core.requests[request].version != requestVersion || !s.core.requests[request].status.Queued? then None
    else
      var message := s.core.requests[request].message;
      var s1 := SetDisposition(SetRequest(s, request, RequestStatus.Cancelled), message, Disposition.Cancelled);
      var n := s1.node;
      var s2 := s1.(node := n.(pendingCount := n.pendingCount - 1, queueVersion := n.queueVersion + 1,
                               stateVersion := n.stateVersion + 1));
      Some(EmitNode(EmitQueue(Emit(s2, DispositionChanged, message, 2, None, None, false))))
  }

  function ApplyQueueResume(s: State, queueVersion: int): Option<State> {
    if queueVersion != s.node.queueVersion then None
    else
      var n := s.node;
      var s1 := s.(node := n.(queuePaused := false, blocked := RemoveReason(n.blocked, OperatorPause),
                              queueVersion := n.queueVersion + 1, stateVersion := n.stateVersion + 1));
      Some(EmitNode(EmitQueue(s1)))
  }

  function ApplyAttemptStop(s: State, command: Id, attempt: Id, generation: int): Option<State> {
    if attempt !in s.core.attempts || command in s.core.actions then None
    else
      var a := s.core.attempts[attempt];
      if a.generation != generation || s.node.slot != Some(attempt)
         || !(a.state.Dispatching? || a.state.Running? || a.state.WaitingInput? || a.state.Stopping?) then None
      else
        var s1 := SetAttempt(s, attempt, AttemptState.Stopping);
        var n := s1.node;
        var s2 := s1.(node := n.(queuePaused := true, blocked := AddReason(n.blocked, OperatorPause),
                                 queueVersion := n.queueVersion + 1, stateVersion := n.stateVersion + 1));
        var s3 := EmitNode(EmitQueue(Emit(s2, AttemptStopRequested, attempt, a.version + 1, Some(attempt), Some(a.dialog), false)));
        Some(InsertAction(s3, command, ActionKind.Stop, Reference(s, attempt), 0, 0, 0))
  }

  // a request with this input message that is still pending
  predicate RetryPending(s: State, message: Id) {
    exists r :: r in s.core.requests && s.core.requests[r].message == message
      && (s.core.requests[r].status.Queued? || s.core.requests[r].status.Dispatching? || s.core.requests[r].status.Active? || s.core.requests[r].status.Unknown?)
  }

  function ApplyAttemptRetry(s: State, attempt: Id, generation: int, acknowledge: bool, request: Id): Option<State> {
    if attempt !in s.core.attempts || s.core.attempts[attempt].request !in s.core.requests then None
    else
      var a := s.core.attempts[attempt];
      var message := s.core.requests[a.request].message;
      if a.generation != generation || !(a.state.Failed? || a.state.Interrupted?) || a.effects.Unknown?
         || (a.effects.Known? && !acknowledge) || s.node.pendingCount >= QUEUE_CAPACITY
         || RetryPending(s, message) || request in s.core.requests then None
      else
        var n := s.node;
        var s1 := s.(
          core := s.core.(requests := s.core.requests[request := Request(a.dialog, message, n.nextQueueSequence, 1, RequestStatus.Queued)]),
          node := n.(nextQueueSequence := n.nextQueueSequence + 1, pendingCount := n.pendingCount + 1,
                     queueVersion := n.queueVersion + 1, stateVersion := n.stateVersion + 1));
        Some(EmitNode(EmitQueue(s1)))
  }

  // the action's reference carries the steered message's request, not the attempt's own
  function ApplyMessageSteer(s: State, command: Id, dialog: Id, attempt: Id, message: Id, generation: int, messageVersion: int): Option<State> {
    if attempt !in s.core.attempts || message !in s.core.messages || command in s.core.actions then None
    else
      var a := s.core.attempts[attempt];
      var m := s.core.messages[message];
      if m.dialog != dialog || m.request.None? || a.generation != generation || m.version != messageVersion || a.dialog != dialog
         || s.node.slot != Some(attempt) || !m.disposition.Queued? || !(a.state.Running? || a.state.WaitingInput?) then None
      else
        var s1 := SetDisposition(s, message, Disposition.SteerPending);
        var n := s1.node;
        var s2 := s1.(node := n.(queueVersion := n.queueVersion + 1, stateVersion := n.stateVersion + 1));
        var s3 := EmitQueue(Emit(s2, DispositionChanged, message, m.version + 1, None, None, false));
        Some(InsertAction(s3, command, ActionKind.Steer, AttemptRef(dialog, m.request.value, attempt, a.generation), message, 0, 0))
  }

  // nothing here asks for the active slot
  function ApplyApproval(s: State, command: Id, approval: Id, attempt: Id, version: int, generation: int, actionHash: Id): Option<State> {
    if approval !in s.rows.approvals || attempt !in s.core.attempts || command in s.core.actions then None
    else
      var p := s.rows.approvals[approval];
      if p.attempt != attempt || p.version != version || s.core.attempts[attempt].generation != generation
         || !p.status.Pending? || p.actionHash != actionHash then None
      else
        var s1 := s.(rows := s.rows.(approvals := s.rows.approvals[approval := p.(version := p.version + 1, status := AnswerStatus.Responding)]));
        Some(InsertAction(s1, command, ActionKind.Approval, Reference(s, attempt), 0, approval, p.version + 1))
  }

  // nothing here asks for the active slot
  function ApplyInput(s: State, command: Id, input: Id, attempt: Id, version: int, generation: int, message: Id): Option<State> {
    if input !in s.rows.inputs || attempt !in s.core.attempts || command in s.core.actions || message in s.core.messages then None
    else
      var i := s.rows.inputs[input];
      var a := s.core.attempts[attempt];
      if i.attempt != attempt || i.version != version || a.generation != generation || !i.status.Pending? then None
      else
        var s1 := s.(
          core := s.core.(messages := s.core.messages[message :=
            Message(a.dialog, s.node.nextMessageSequence, 1, Disposition.Applied, Some(a.request), Some(attempt), None)]),
          rows := s.rows.(inputs := s.rows.inputs[input := i.(version := i.version + 1, status := AnswerStatus.Responding)]),
          node := s.node.(nextMessageSequence := s.node.nextMessageSequence + 1));
        Some(InsertAction(s1, command, ActionKind.Input, Reference(s, attempt), message, input, i.version + 1))
  }

  // ----- applyDialogDelete -----

  predicate AttemptSettled(s: State, attempt: Id)
    requires attempt in s.core.attempts
  {
    && IsTerminal(s.core.attempts[attempt].state)
    && !s.core.attempts[attempt].effects.Unknown?
  }

  // nothing in the dialog is unresolved
  predicate DialogSettled(s: State, dialog: Id) {
    && (forall r :: r in s.core.requests && s.core.requests[r].dialog == dialog ==>
          var status := s.core.requests[r].status; status.Cancelled? || status.Completed? || status.Failed? || status.Interrupted?)
    && (forall a :: a in s.core.attempts && s.core.attempts[a].dialog == dialog ==> AttemptSettled(s, a))
    && (forall c :: c in s.core.actions && OfDialog(s, s.core.actions[c].reference.attempt, dialog) ==>
          s.core.actions[c].status.Acknowledged? || s.core.actions[c].status.Rejected?)
    && (forall t :: t in s.rows.tools && OfDialog(s, s.rows.tools[t].attempt, dialog) ==>
          s.rows.tools[t].status.Succeeded? || s.rows.tools[t].status.Failed?)
    && (forall p :: p in s.rows.approvals && OfDialog(s, s.rows.approvals[p].attempt, dialog) ==> s.rows.approvals[p].status.Resolved?)
    && (forall i :: i in s.rows.inputs && OfDialog(s, s.rows.inputs[i].attempt, dialog) ==> s.rows.inputs[i].status.Resolved?)
    && (forall k :: k in s.log.projected && OfDialog(s, k.0, dialog) ==> !EffectUnproved(s, k))
  }

  predicate OfDialog(s: State, attempt: Id, dialog: Id) {
    attempt in s.core.attempts && s.core.attempts[attempt].dialog == dialog
  }

  // a tool.completed projection whose effect is not none or known
  predicate EffectUnproved(s: State, key: (Id, Key))
    requires key in s.log.projected
  {
    var d := s.log.projected[key];
    key.1.ToolCompleted? && d.OfEvent? && d.event.ToolCompleted? && d.event.effects.Unknown?
  }

  function ApplyDialogDelete(s: State, dialog: Id, dialogVersion: int): Option<State> {
    if dialog !in s.admin.dialogs || dialog in s.admin.tombstones || s.admin.dialogs[dialog].version != dialogVersion || !DialogSettled(s, dialog) then None
    else
      var s1 := Tick(BumpDialog(s, dialog));
      Some(Emit(s1.(admin := s1.admin.(tombstones := s1.admin.tombstones + {dialog})), EventKind.DialogDeleted, dialog, dialogVersion + 1, None, Some(dialog), false))
  }

  // ----- SubmitCommand -----

  datatype CommandReply = Admitted | HeldBack | StoredReceipt | StoredRejection | IdConflict | NotFound | Forbidden | Refused

  predicate IsDeleted(s: State, dialog: Id) { dialog in s.admin.tombstones }

  predicate Visible(s: State, dialog: Id) { dialog in s.admin.dialogs && dialog !in s.admin.tombstones }

  // authorizeObject
  predicate Authorized(s: State, command: Command) {
    match command
    case CreateDialog(_) => true
    case ResumeQueue(_) => true
    case DeleteDialog(_, _) => false
    case EnqueueMessage(d, _, _) => Visible(s, d)
    case SteerMessage(d, _, _, _, _) => Visible(s, d)
    case CancelRequest(r, _) => r in s.core.requests && Visible(s, s.core.requests[r].dialog)
    case StopAttempt(a, _) => a in s.core.attempts && Visible(s, s.core.attempts[a].dialog)
    case RetryAttempt(a, _, _) => a in s.core.attempts && Visible(s, s.core.attempts[a].dialog)
    case RespondApproval(p, a, _, _, _, _) =>
      p in s.rows.approvals && s.rows.approvals[p].attempt == a && a in s.core.attempts && Visible(s, s.core.attempts[a].dialog)
    case RespondInput(i, a, _, _, _) =>
      i in s.rows.inputs && s.rows.inputs[i].attempt == a && a in s.core.attempts && Visible(s, s.core.attempts[a].dialog)
  }

  // coveringHoldForCommand
  predicate CoveredByHold(s: State, command: Command) {
    match command
    case CreateDialog(_) => NodeHeld(s)
    case ResumeQueue(_) => NodeHeld(s)
    case DeleteDialog(d, _) => Held(s, d)
    case EnqueueMessage(d, _, _) => Held(s, d)
    case RetryAttempt(a, _, _) => a in s.core.attempts && Held(s, s.core.attempts[a].dialog)
    case _ => false
  }

  // applyCommand, and the action row inserted with it
  function ApplyCommand(s: State, id: Id, command: Command, drawn: Drawn): Option<State> {
    match command
    case CreateDialog(v) => ApplyDialogCreate(s, v, drawn.first)
    case DeleteDialog(_, _) => None
    case EnqueueMessage(d, v, _) => ApplyMessageEnqueue(s, d, v, drawn)
    case CancelRequest(r, v) => ApplyRequestCancel(s, r, v)
    case ResumeQueue(v) => ApplyQueueResume(s, v)
    case StopAttempt(a, g) => ApplyAttemptStop(s, id, a, g)
    case RetryAttempt(a, g, ack) => ApplyAttemptRetry(s, a, g, ack, drawn.first)
    case SteerMessage(d, a, m, g, v) => ApplyMessageSteer(s, id, d, a, m, g, v)
    case RespondApproval(p, a, v, g, h, _) => ApplyApproval(s, id, p, a, v, g, h)
    case RespondInput(i, a, v, g, _) => ApplyInput(s, id, i, a, v, g, drawn.first)
  }

  // the dialog a stored outcome belongs to, as commandOutcomeTargetsDeletedDialog looks it up
  function OutcomeDialog(s: State, command: Command, created: Option<Id>): Option<Id> {
    if created.Some? then created
    else
      match command
      case CreateDialog(_) => None
      case ResumeQueue(_) => None
      case DeleteDialog(d, _) => Some(d)
      case EnqueueMessage(d, _, _) => Some(d)
      case SteerMessage(d, _, _, _, _) => Some(d)
      case CancelRequest(r, _) => if r in s.core.requests then Some(s.core.requests[r].dialog) else None
      case StopAttempt(a, _) => if a in s.core.attempts then Some(s.core.attempts[a].dialog) else None
      case RetryAttempt(a, _, _) => if a in s.core.attempts then Some(s.core.attempts[a].dialog) else None
      case RespondApproval(_, a, _, _, _, _) => if a in s.core.attempts then Some(s.core.attempts[a].dialog) else None
      case RespondInput(_, a, _, _, _) => if a in s.core.attempts then Some(s.core.attempts[a].dialog) else None
  }

  // loadCommandOutcome
  predicate HasOutcome(s: State, id: Id) { id in s.admin.commands || id in s.admin.rejections }

  function OutcomeCommand(s: State, id: Id): Command
    requires HasOutcome(s, id)
  {
    if id in s.admin.commands then s.admin.commands[id].command else s.admin.rejections[id]
  }

  function StoredReply(s: State, id: Id, command: Command): CommandReply
    requires HasOutcome(s, id)
  {
    var stored := OutcomeCommand(s, id);
    var dialog := OutcomeDialog(s, stored, if id in s.admin.commands then s.admin.commands[id].created else None);
    if stored != command then IdConflict
    else if dialog.Some? && IsDeleted(s, dialog.value) then NotFound
    else if id in s.admin.commands then StoredReceipt else StoredRejection
  }

  function CreatedDialog(command: Command, drawn: Drawn): Option<Id> {
    if command.CreateDialog? then Some(drawn.first) else None
  }

  // the request that a receipt of message.enqueue, request.cancel or attempt.retry names
  function CreatedRequest(command: Command, drawn: Drawn): Option<Id> {
    match command
    case EnqueueMessage(_, _, _) => Some(drawn.second)
    case CancelRequest(r, _) => Some(r)
    case RetryAttempt(_, _, _) => Some(drawn.first)
    case _ => None
  }

  // dialog.delete is refused before anything is read
  function SubmitCommand(s: State, id: Id, command: Command, drawn: Drawn): (State, CommandReply) {
    if command.DeleteDialog? then (s, Forbidden)
    else if HasOutcome(s, id) then (s, StoredReply(s, id, command))
    else if !Authorized(s, command) then (s, NotFound)
    else if CoveredByHold(s, command) then (s.(admin := s.admin.(rejections := s.admin.rejections[id := command])), HeldBack)
    else
      match ApplyCommand(s, id, command, drawn)
      case None => (s, Refused)
      case Some(t) =>
        var receipt := Receipt(command, CreatedDialog(command, drawn), CreatedRequest(command, drawn));
        (t.(admin := t.admin.(commands := t.admin.commands[id := receipt])), Admitted)
  }
}
