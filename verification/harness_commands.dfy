// What each command asks of the store and what it leaves, as a caller of SubmitCommand sees it.
module HarnessCommands {
  import opened Common
  import opened HarnessState
  import opened HarnessAdmission

  // neither stored before nor turned away by a hold: the command gets to its own conditions
  predicate Considered(s: State, id: Id, dialog: Id) {
    id !in s.admin.commands && id !in s.admin.rejections && dialog in s.admin.dialogs && dialog !in s.admin.tombstones
  }

  // the rows and the node are as they were; what is added under admin is the outcome of the command
  ghost predicate Unmoved(s: State, t: State) {
    t.core == s.core && t.rows == s.rows && t.log == s.log && t.node == s.node && t.run == s.run
  }

  // the events that announce the node's and the queue's new versions
  function NodeEvent(t: State): EventRow {
    EventRow(NodeStateChanged, 0, t.node.stateVersion, None, None, false)
  }

  function QueueEvent(t: State): EventRow {
    EventRow(QueueChanged, 0, t.node.queueVersion, None, None, false)
  }

  // of the queue: by how much the count and the next number moved
  predicate QueueMoved(s: State, t: State, more: int, numbered: int) {
    && t.node.pendingCount == s.node.pendingCount + more && t.node.nextQueueSequence == s.node.nextQueueSequence + numbered
    && t.node.queueVersion == s.node.queueVersion + 1 && t.node.stateVersion == s.node.stateVersion + 1
    && t.node.slot == s.node.slot && t.node.readiness == s.node.readiness && t.node.occupancy == s.node.occupancy
  }

  // A refused command moves nothing; an admitted one leaves a receipt, one held back a rejection.
  lemma OutcomeIsWritten(s: State, id: Id, command: Command, drawn: Drawn)
    ensures var (t, reply) := SubmitCommand(s, id, command, drawn);
      && (!reply.Admitted? ==> Unmoved(s, t) && t.admin.commands == s.admin.commands && t.admin.dialogs == s.admin.dialogs)
      && (reply.Admitted? <==> id !in s.admin.commands && id in t.admin.commands)
      && (reply.Admitted? ==> t.admin.commands == s.admin.commands[id := t.admin.commands[id]] && t.admin.commands[id].command == command)
      && (reply.HeldBack? ==> t.admin.rejections == s.admin.rejections[id := command])
      && (!reply.HeldBack? ==> t.admin.rejections == s.admin.rejections)
      && t.admin.tombstones == s.admin.tombstones && t.admin.holds == s.admin.holds && t.admin.holdOutcomes == s.admin.holdOutcomes
      && t.admin.revisions == s.admin.revisions && t.admin.deletions == s.admin.deletions
  {
    hide ApplyCommand, Authorized, CoveredByHold, OutcomeDialog, OutcomeCommand, CreatedDialog, CreatedRequest;
    var r := ApplyCommand(s, id, command, drawn);
    if r.Some? {
      CommandWritesNoOutcome(s, id, command, drawn, r.value);
    }
  }

  // what a command is about, where it names a row that is there
  predicate About(s: State, command: Command, dialog: Id) {
    match command
    case CreateDialog(_) => false
    case ResumeQueue(_) => false
    case DeleteDialog(d, _) => d == dialog
    case EnqueueMessage(d, _, _) => d == dialog
    case SteerMessage(d, _, _, _, _) => d == dialog
    case CancelRequest(q, _) => q in s.core.requests && s.core.requests[q].dialog == dialog
    case StopAttempt(a, _) => a in s.core.attempts && s.core.attempts[a].dialog == dialog
    case RetryAttempt(a, _, _) => a in s.core.attempts && s.core.attempts[a].dialog == dialog
    case RespondApproval(_, a, _, _, _, _) => a in s.core.attempts && s.core.attempts[a].dialog == dialog
    case RespondInput(_, a, _, _, _) => a in s.core.attempts && s.core.attempts[a].dialog == dialog
  }

  // the row it names is there, in a dialog that is; an answer names a question of its attempt
  predicate Present(s: State, command: Command) {
    || command.CreateDialog? || command.ResumeQueue?
    || (&& (exists d :: d in s.admin.dialogs && d !in s.admin.tombstones && About(s, command, d))
        && (command.RespondApproval? ==> command.approval in s.rows.approvals && s.rows.approvals[command.approval].attempt == command.attempt)
        && (command.RespondInput? ==> command.input in s.rows.inputs && s.rows.inputs[command.input].attempt == command.attempt))
  }

  // new work is barred by a hold on its dialog, and what concerns the whole node by a hold on the node
  predicate Barred(s: State, command: Command) {
    || ((command.CreateDialog? || command.ResumeQueue?) && NodeHeld(s))
    || ((command.EnqueueMessage? || command.RetryAttempt?) && exists d :: d in s.admin.dialogs && About(s, command, d) && Held(s, d))
  }

  // the first command under an identity, as it was stored
  predicate StoredAs(s: State, id: Id, command: Command) {
    (id in s.admin.commands && s.admin.commands[id].command == command)
    || (id !in s.admin.commands && id in s.admin.rejections && s.admin.rejections[id] == command)
  }

  // A delete is never taken as a command here. Under an identity that was used only the same command gets an answer, the
  // one it had; of the others one is unknown here, or held back, or decided by its own conditions.
  lemma RepliesMean(s: State, id: Id, command: Command, drawn: Drawn)
    ensures var reply := SubmitCommand(s, id, command, drawn).1; var used := id in s.admin.commands || id in s.admin.rejections;
      && (reply.Forbidden? <==> command.DeleteDialog?)
      && (!command.DeleteDialog? && used ==>
            && (reply.IdConflict? <==> !StoredAs(s, id, command))
            && (reply.StoredReceipt? ==> id in s.admin.commands) && (reply.StoredRejection? ==> id !in s.admin.commands)
            && (reply.IdConflict? || reply.StoredReceipt? || reply.StoredRejection? || reply.NotFound?)
            && (StoredAs(s, id, command) ==>
                  (reply.NotFound? <==> if id in s.admin.commands && s.admin.commands[id].created.Some?
                                        then s.admin.commands[id].created.value in s.admin.tombstones
                                        else exists d :: d in s.admin.tombstones && About(s, command, d))))
      && (!command.DeleteDialog? && !used ==>
            && (reply.NotFound? <==> !Present(s, command)) && (reply.HeldBack? <==> Present(s, command) && Barred(s, command))
            && (Present(s, command) && !Barred(s, command) ==> reply.Admitted? || reply.Refused?))
  {
    hide ApplyCommand, Held, NodeHeld;
  }

  // the receipt names the dialog that was made, or the request that was queued or cancelled
  lemma ReceiptNames(s: State, id: Id, command: Command, drawn: Drawn)
    requires SubmitCommand(s, id, command, drawn).1.Admitted?
    ensures var receipt := SubmitCommand(s, id, command, drawn).0.admin.commands[id];
      && receipt.created == (if command.CreateDialog? then Some(drawn.first) else None)
      && receipt.request == (if command.EnqueueMessage? then Some(drawn.second) else if command.RetryAttempt? then Some(drawn.first)
                             else if command.CancelRequest? then Some(command.request) else None)
  {
    hide ApplyCommand, Authorized, CoveredByHold;
  }

  lemma CommandWritesNoOutcome(s: State, id: Id, command: Command, drawn: Drawn, t: State)
    requires ApplyCommand(s, id, command, drawn) == Some(t)
    ensures t.admin == s.admin.(dialogs := t.admin.dialogs)
  {
    hide RetryPending;
  }

  // message.enqueue: the message waits under the next number, in a dialog that is there and not held.
  lemma EnqueueMeans(s: State, id: Id, dialog: Id, version: int, text: Id, drawn: Drawn)
    ensures var (t, reply) := SubmitCommand(s, id, EnqueueMessage(dialog, version, text), drawn);
      var m, q := drawn.first, drawn.second;
      && (reply.Admitted? <==>
            && Considered(s, id, dialog) && !Held(s, dialog) && s.admin.dialogs[dialog].version == version
            && s.node.pendingCount < 100 && m !in s.core.messages && q !in s.core.requests)
      && (reply.Admitted? ==>
            && t.core == s.core.(
                 messages := s.core.messages[m := Message(dialog, s.node.nextMessageSequence, 1, Disposition.Queued, Some(q), None, None)],
                 requests := s.core.requests[q := Request(dialog, m, s.node.nextQueueSequence, 1, RequestStatus.Queued)])
            && t.rows == s.rows && t.run == s.run && QueueMoved(s, t, 1, 1)
            && t.node.nextMessageSequence == s.node.nextMessageSequence + 1 && t.node.queuePaused == s.node.queuePaused && t.node.blocked == s.node.blocked
            && t.log == s.log.(events := s.log.events + [EventRow(MessageAccepted, m, 1, None, None, false), QueueEvent(t), NodeEvent(t)])
            && t.admin.dialogs == s.admin.dialogs[dialog := Dialog(version + 1)] && t.admin.commands[id].request == Some(q))
  {
  }

  // request.cancel: only what still waits is cancelled, message and request together.
  lemma CancelMeans(s: State, id: Id, request: Id, version: int, drawn: Drawn)
    ensures var (t, reply) := SubmitCommand(s, id, CancelRequest(request, version), drawn);
      && (reply.Admitted? <==>
            && request in s.core.requests && Considered(s, id, s.core.requests[request].dialog)
            && s.core.requests[request].version == version && s.core.requests[request].status.Queued?)
      && (reply.Admitted? ==>
            var q := s.core.requests[request];
            && t.core.requests == s.core.requests[request := q.(version := version + 1, status := RequestStatus.Cancelled)]
            && (q.message in s.core.messages ==>
                  var m := s.core.messages[q.message];
                  t.core.messages == s.core.messages[q.message := m.(version := m.version + 1, disposition := Disposition.Cancelled)])
            && t.core.attempts == s.core.attempts && t.core.actions == s.core.actions && t.rows == s.rows && QueueMoved(s, t, -1, 0)
            && t.node.queuePaused == s.node.queuePaused && t.admin.dialogs == s.admin.dialogs && t.admin.commands[id].request == Some(request)
            && t.log == s.log.(events := s.log.events + [EventRow(DispositionChanged, q.message, 2, None, None, false), QueueEvent(t), NodeEvent(t)]))
  {
  }

  // queue.resume: the pause and its reason go, nothing else.
  lemma ResumeMeans(s: State, id: Id, version: int, drawn: Drawn)
    ensures var (t, reply) := SubmitCommand(s, id, ResumeQueue(version), drawn);
      && (reply.Admitted? <==> id !in s.admin.commands && id !in s.admin.rejections && !NodeHeld(s) && s.node.queueVersion == version)
      && (reply.Admitted? ==>
            && t.core == s.core && t.rows == s.rows && QueueMoved(s, t, 0, 0) && !t.node.queuePaused
            && t.log == s.log.(events := s.log.events + [QueueEvent(t), NodeEvent(t)])
            && OperatorPause !in t.node.blocked && (forall r :: r in s.node.blocked && r != OperatorPause ==> r in t.node.blocked)
            && (forall r :: r in t.node.blocked ==> r in s.node.blocked))
  {
    if SubmitCommand(s, id, ResumeQueue(version), drawn).1.Admitted? {
      RemovedReasons(s.node.blocked, OperatorPause);
    }
  }

  // attempt.stop: asked of the attempt at work, which becomes stopping while the queue pauses.
  lemma StopMeans(s: State, id: Id, attempt: Id, generation: int, drawn: Drawn)
    ensures var (t, reply) := SubmitCommand(s, id, StopAttempt(attempt, generation), drawn);
      && (reply.Admitted? <==>
            && attempt in s.core.attempts && Considered(s, id, s.core.attempts[attempt].dialog) && id !in s.core.actions
            && s.core.attempts[attempt].generation == generation && s.node.slot == Some(attempt)
            && s.core.attempts[attempt].state in {AttemptState.Dispatching, AttemptState.Running, AttemptState.WaitingInput, AttemptState.Stopping})
      && (reply.Admitted? ==>
            var a := s.core.attempts[attempt];
            && t.core == s.core.(
                 attempts := s.core.attempts[attempt := a.(version := a.version + 1, state := AttemptState.Stopping)],
                 actions := s.core.actions[id := Action(|s.core.actions|, ActionKind.Stop, AttemptRef(a.dialog, a.request, attempt, generation),
                                                        0, 0, 0, ActionStatus.Pending)])
            && t.rows == s.rows && QueueMoved(s, t, 0, 0) && t.node.queuePaused && OperatorPause in t.node.blocked
            && (forall r :: r in s.node.blocked ==> r in t.node.blocked)
            && t.log == s.log.(events := s.log.events
                                         + [EventRow(AttemptStopRequested, attempt, a.version + 1, Some(attempt), Some(a.dialog), false),
                                            QueueEvent(t), NodeEvent(t)]))
  {
  }

  // attempt.retry: work that failed or was interrupted is queued again under a request of its own, never
  // while its effects are unknown, and with known effects only if they are acknowledged.
  lemma RetryMeans(s: State, id: Id, attempt: Id, generation: int, acknowledge: bool, drawn: Drawn)
    ensures var (t, reply) := SubmitCommand(s, id, RetryAttempt(attempt, generation, acknowledge), drawn);
      && (reply.Admitted? <==>
            && attempt in s.core.attempts && s.core.attempts[attempt].request in s.core.requests
            && Considered(s, id, s.core.attempts[attempt].dialog) && !Held(s, s.core.attempts[attempt].dialog)
            && MayRunAgain(s, attempt, generation, acknowledge)
            && s.node.pendingCount < 100 && drawn.first !in s.core.requests)
      && (reply.Admitted? ==>
            var message := s.core.requests[s.core.attempts[attempt].request].message;
            && t.core == s.core.(requests := s.core.requests[drawn.first := Request(s.core.attempts[attempt].dialog, message, s.node.nextQueueSequence,
                                                                                    1, RequestStatus.Queued)])
            && t.rows == s.rows && QueueMoved(s, t, 1, 1) && t.node.queuePaused == s.node.queuePaused && t.node.blocked == s.node.blocked
            && t.log == s.log.(events := s.log.events + [QueueEvent(t), NodeEvent(t)])
            && t.admin.commands[id].request == Some(drawn.first))
  {
  }

  // the attempt ended without success, what it did is none, or known and acknowledged, and nothing is under
  // way or waiting for the same message
  predicate MayRunAgain(s: State, attempt: Id, generation: int, acknowledge: bool)
    requires attempt in s.core.attempts && s.core.attempts[attempt].request in s.core.requests
  {
    var a := s.core.attempts[attempt];
    && a.generation == generation && a.state in {AttemptState.Failed, AttemptState.Interrupted}
    && (a.effects.Nothing? || (a.effects.Known? && acknowledge))
    && forall r :: r in s.core.requests && s.core.requests[r].message == s.core.requests[a.request].message ==>
         s.core.requests[r].status in {RequestStatus.Completed, RequestStatus.Failed, RequestStatus.Interrupted, RequestStatus.Cancelled}
  }

  // message.steer: a waiting message of the dialog at work is offered to the attempt in the slot.
  lemma SteerMeans(s: State, id: Id, dialog: Id, attempt: Id, message: Id, generation: int, version: int, drawn: Drawn)
    ensures var (t, reply) := SubmitCommand(s, id, SteerMessage(dialog, attempt, message, generation, version), drawn);
      && (reply.Admitted? <==>
            && Considered(s, id, dialog) && attempt in s.core.attempts && message in s.core.messages && id !in s.core.actions
            && s.core.messages[message].dialog == dialog && s.core.messages[message].request.Some?
            && s.core.messages[message].version == version && s.core.messages[message].disposition.Queued?
            && s.node.slot == Some(attempt) && s.core.attempts[attempt].dialog == dialog && s.core.attempts[attempt].generation == generation
            && s.core.attempts[attempt].state in {AttemptState.Running, AttemptState.WaitingInput})
      && (reply.Admitted? ==>
            var m := s.core.messages[message];
            && t.core == s.core.(
                 messages := s.core.messages[message := m.(version := version + 1, disposition := Disposition.SteerPending)],
                 actions := s.core.actions[id := Action(|s.core.actions|, ActionKind.Steer, AttemptRef(dialog, m.request.value, attempt, generation),
                                                        message, 0, 0, ActionStatus.Pending)])
            && t.rows == s.rows && QueueMoved(s, t, 0, 0) && t.node.queuePaused == s.node.queuePaused && t.node.blocked == s.node.blocked
            && t.log == s.log.(events := s.log.events + [EventRow(DispositionChanged, message, version + 1, None, None, false), QueueEvent(t)]))
  {
  }

  // approval.respond: an answer is recorded once, for the version that was shown and the action it was shown for.
  lemma ApprovalMeans(s: State, id: Id, approval: Id, attempt: Id, version: int, generation: int, actionHash: Id, decision: Id, drawn: Drawn)
    ensures var (t, reply) := SubmitCommand(s, id, RespondApproval(approval, attempt, version, generation, actionHash, decision), drawn);
      && (reply.Admitted? <==>
            && approval in s.rows.approvals && attempt in s.core.attempts && Considered(s, id, s.core.attempts[attempt].dialog)
            && id !in s.core.actions && s.core.attempts[attempt].generation == generation
            && s.rows.approvals[approval].attempt == attempt && s.rows.approvals[approval].version == version
            && s.rows.approvals[approval].status.Pending? && s.rows.approvals[approval].actionHash == actionHash)
      && (reply.Admitted? ==>
            var a := s.core.attempts[attempt];
            && t.rows == s.rows.(approvals := s.rows.approvals[approval :=
                                   s.rows.approvals[approval].(version := version + 1, status := AnswerStatus.Responding)])
            && t.core == s.core.(actions := s.core.actions[id := Action(|s.core.actions|, ActionKind.Approval,
                                                                        AttemptRef(a.dialog, a.request, attempt, generation),
                                                                        0, approval, version + 1, ActionStatus.Pending)])
            && t.node == s.node && t.log == s.log)
  {
  }

  // input.respond: the same for a question, with the answer as a message of the dialog.
  lemma InputMeans(s: State, id: Id, input: Id, attempt: Id, version: int, generation: int, text: Id, drawn: Drawn)
    ensures var (t, reply) := SubmitCommand(s, id, RespondInput(input, attempt, version, generation, text), drawn);
      && (reply.Admitted? <==>
            && input in s.rows.inputs && attempt in s.core.attempts && Considered(s, id, s.core.attempts[attempt].dialog)
            && id !in s.core.actions && s.core.attempts[attempt].generation == generation && drawn.first !in s.core.messages
            && s.rows.inputs[input].attempt == attempt && s.rows.inputs[input].version == version && s.rows.inputs[input].status.Pending?)
      && (reply.Admitted? ==>
            var a := s.core.attempts[attempt];
            && t.rows == s.rows.(inputs := s.rows.inputs[input := s.rows.inputs[input].(version := version + 1, status := AnswerStatus.Responding)])
            && t.core == s.core.(
                 messages := s.core.messages[drawn.first := Message(a.dialog, s.node.nextMessageSequence, 1, Disposition.Applied,
                                                                    Some(a.request), Some(attempt), None)],
                 actions := s.core.actions[id := Action(|s.core.actions|, ActionKind.Input, AttemptRef(a.dialog, a.request, attempt, generation),
                                                        drawn.first, input, version + 1, ActionStatus.Pending)])
            && t.node == s.node.(nextMessageSequence := s.node.nextMessageSequence + 1) && t.log == s.log)
  {
  }

  // dialog.create: a new dialog of the current registry.
  lemma CreateMeans(s: State, id: Id, version: int, drawn: Drawn)
    ensures var (t, reply) := SubmitCommand(s, id, CreateDialog(version), drawn);
      && (reply.Admitted? <==>
            && id !in s.admin.commands && id !in s.admin.rejections && !NodeHeld(s)
            && version == s.node.registryVersion && drawn.first !in s.admin.dialogs)
      && (reply.Admitted? ==>
            && t.core == s.core && t.rows == s.rows && t.node == s.node.(stateVersion := s.node.stateVersion + 1)
            && t.log == s.log.(events := s.log.events + [NodeEvent(t)])
            && t.admin.dialogs == s.admin.dialogs[drawn.first := Dialog(1)] && t.admin.commands[id].created == Some(drawn.first))
  {
  }
}
