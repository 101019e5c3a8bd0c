// The node as the program keeps it: one field per table, the loaded node_state row and the worker
// state, with each transaction written as the code updates them. Every method is proved to
// do what the specification function of the same transaction says.
module HarnessNode {
  import opened Common
  import opened OutputBudget
  import opened HarnessState
  import opened HarnessObserve
  import opened HarnessAdmission
  import opened HarnessHold
  import opened HarnessActions
  import opened HarnessStep
  import RowSets

  class Node {
    var state: NodeRow
    var core: Core
    var rows: Rows
    var log: Log
    var admin: Admin
    var run: Volatile

    function View(): State
      reads this
    {
      State(state, core, rows, log, admin, run)
    }

    constructor (registryVersion: int)
      ensures View() == Init(registryVersion)
    {
      state := NodeRow(registryVersion, 1, 0, 0, false, Readiness.Blocked, Occupancy.Idle, None, 0, [PolicyUnavailable], 1, 1);
      core := Core(map[], map[], map[], map[]);
      rows := Rows(map[], map[], map[], map[]);
      log := Log([], map[], []);
      admin := Admin(map[], {}, map[], map[], map[], 1, map[], map[], map[]);
      run := Volatile(None, map[], None);
    }

    // a transaction that failed: every table is as it was when it began
    method Rollback(saved: State)
      modifies this
      ensures View() == saved
    {
      state, core, rows, log, admin, run := saved.node, saved.core, saved.rows, saved.log, saved.admin, saved.run;
    }

    // ----- events.go -----

    method AppendEvent(kind: EventKind, entity: Id, version: int, attempt: Option<Id>, dialog: Option<Id>, isLate: bool)
      modifies this`log
      ensures View() == Emit(old(View()), kind, entity, version, attempt, dialog, isLate)
    {
      log := log.(events := log.events + [EventRow(kind, entity, version, attempt, dialog, isLate)]);
    }

    method AppendNodeEvent()
      modifies this`log
      ensures View() == EmitNode(old(View()))
    {
      AppendEvent(NodeStateChanged, 0, state.stateVersion, None, None, false);
    }

    method AppendQueueEvent()
      modifies this`log
      ensures View() == EmitQueue(old(View()))
    {
      AppendEvent(QueueChanged, 0, state.queueVersion, None, None, false);
    }

    // ----- attempts becoming unknown or terminal -----

    method UpdateRequest(request: Id, status: RequestStatus)
      modifies this`core
      ensures View() == SetRequest(old(View()), request, status)
    {
      if request in core.requests {
        var r := core.requests[request];
        core := core.(requests := core.requests[request := r.(version := r.version + 1, status := status)]);
      }
    }

    method UpdateDisposition(message: Id, disposition: Disposition)
      modifies this`core
      ensures View() == SetDisposition(old(View()), message, disposition)
    {
      if message in core.messages {
        var m := core.messages[message];
        core := core.(messages := core.messages[message := m.(version := m.version + 1, disposition := disposition)]);
      }
    }

    method MarkUnknown(reference: AttemptRef, effects: Effects) returns (ok: bool)
      modifies this`core, this`state, this`log
      ensures ok <==> SetAttemptUnknown(old(View()), reference, effects).Some?
      ensures ok ==> Some(View()) == SetAttemptUnknown(old(View()), reference, effects)
      ensures !ok ==> View() == old(View())
    {
      if reference.attempt !in core.attempts || core.attempts[reference.attempt].generation != reference.generation {
        return false;
      }
      var a := core.attempts[reference.attempt];
      if a.state.Unknown? {
        return true;
      }
      if OtherLive(View(), reference.attempt) {
        return false;
      }
      var version := a.version + 1;
      core := core.(attempts := core.attempts[reference.attempt := a.(version := version, state := AttemptState.Unknown, effects := effects)]);
      UpdateRequest(reference.request, RequestStatus.Unknown);
      state := state.(stateVersion := state.stateVersion + 1);
      state := state.(readiness := Readiness.Unknown, occupancy := Occupancy.Unknown);
      state := state.(slot := Some(reference.attempt));
      state := state.(blocked := AddReason(state.blocked, ExecutionUnknown));
      AppendEvent(AttemptUnknown, reference.attempt, version, Some(reference.attempt), Some(reference.dialog), false);
      AppendNodeEvent();
      ok := true;
    }

    method MarkAttempt(reference: AttemptRef)
      modifies this`core, this`state, this`log
      ensures View() == MarkAttemptUnknown(old(View()), reference)
    {
      if state.slot == Some(reference.attempt) {
        var ok := MarkUnknown(reference, Effects.Unknown);
      }
    }

    method EndTerminal(reference: AttemptRef, terminal: AttemptState, effects: Effects)
      requires reference.attempt in core.attempts
      modifies this`core, this`state, this`log
      ensures View() == ApplyTerminal(old(View()), reference, terminal, effects)
    {
      var a := core.attempts[reference.attempt];
      core := core.(attempts := core.attempts[reference.attempt := a.(version := a.version + 1, state := terminal, effects := effects)]);
      UpdateRequest(reference.request, TerminalStatus(terminal));
      state := state.(stateVersion := state.stateVersion + 1);
      state := state.(slot := None, occupancy := Occupancy.Idle);
      if state.readiness.Unknown? {
        state := state.(readiness := Readiness.Blocked);
      }
      AppendEvent(TerminalEvent(terminal), reference.attempt, a.version + 1, Some(reference.attempt), Some(reference.dialog), false);
      AppendNodeEvent();
    }

    // Observe, for the failure that a refused start reports
    method ReportFailure(attempt: Id, generation: int)
      modifies this`core, this`state, this`log
      ensures View() == ObserveRejected(old(View()), attempt, generation)
    {
      if attempt !in core.attempts || core.attempts[attempt].dialog in admin.tombstones {
        return;
      }
      var a := core.attempts[attempt];
      if generation != a.generation || state.slot != Some(attempt) {
        AppendEvent(AttemptFailed, attempt, a.version, Some(attempt), Some(a.dialog), true);
        log := log.(late := log.late + [LateRow(attempt, None, None, 0)]);
      } else {
        EndTerminal(AttemptRef(a.dialog, a.request, attempt, a.generation), AttemptState.Failed, Effects.Nothing);
      }
    }

    // ----- command_handlers.go -----

    method CreateDialogRow(registryVersion: int, dialog: Id) returns (ok: bool)
      modifies this`admin, this`state, this`log
      ensures ok <==> ApplyDialogCreate(old(View()), registryVersion, dialog).Some?
      ensures ok ==> Some(View()) == ApplyDialogCreate(old(View()), registryVersion, dialog)
      ensures !ok ==> View() == old(View())
    {
      if registryVersion != state.registryVersion || dialog in admin.dialogs {
        return false;
      }
      admin := admin.(dialogs := admin.dialogs[dialog := Dialog(1)]);
      state := state.(stateVersion := state.stateVersion + 1);
      AppendNodeEvent();
      ok := true;
    }

    method EnqueueMessageRow(dialog: Id, version: int, drawn: Drawn) returns (ok: bool)
      modifies this`core, this`admin, this`state, this`log
      ensures ok <==> ApplyMessageEnqueue(old(View()), dialog, version, drawn).Some?
      ensures ok ==> Some(View()) == ApplyMessageEnqueue(old(View()), dialog, version, drawn)
      ensures !ok ==> View() == old(View())
    {
      if dialog !in admin.dialogs || admin.dialogs[dialog].version != version || state.pendingCount >= QUEUE_CAPACITY
         || drawn.first in core.messages || drawn.second in core.requests {
        return false;
      }
      var message := Message(dialog, state.nextMessageSequence, 1, Disposition.Queued, Some(drawn.second), None, None);
      core := core.(messages := core.messages[drawn.first := message]);
      var request := Request(dialog, drawn.first, state.nextQueueSequence, 1, RequestStatus.Queued);
      core := core.(requests := core.requests[drawn.second := request]);
      admin := admin.(dialogs := admin.dialogs[dialog := Dialog(admin.dialogs[dialog].version + 1)]);
      state := state.(nextMessageSequence := state.nextMessageSequence + 1, nextQueueSequence := state.nextQueueSequence + 1);
      state := state.(pendingCount := state.pendingCount + 1);
      state := state.(queueVersion := state.queueVersion + 1, stateVersion := state.stateVersion + 1);
      AppendEvent(MessageAccepted, drawn.first, 1, None, None, false);
      AppendQueueEvent();
      AppendNodeEvent();
      ok := true;
    }

    method CancelRequestRow(request: Id, version: int) returns (ok: bool)
      modifies this`core, this`state, this`log
      ensures ok <==> ApplyRequestCancel(old(View()), request, version).Some?
      ensures ok ==> Some(View()) == ApplyRequestCancel(old(View()), request, version)
      ensures !ok ==> View() == old(View())
    {
      if request !in core.requests || core.requests[request].version != version || !core.requests[request].status.Queued? {
        return false;
      }
      var message := core.requests[request].message;
      UpdateRequest(request, RequestStatus.Cancelled);
      UpdateDisposition(message, Disposition.Cancelled);
      state := state.(pendingCount := state.pendingCount - 1);
      state := state.(queueVersion := state.queueVersion + 1, stateVersion := state.stateVersion + 1);
      AppendEvent(DispositionChanged, message, 2, None, None, false);
      AppendQueueEvent();
      AppendNodeEvent();
      ok := true;
    }

    method ResumeQueueRow(queueVersion: int) returns (ok: bool)
      modifies this`state, this`log
      ensures ok <==> ApplyQueueResume(old(View()), queueVersion).Some?
      ensures ok ==> Some(View()) == ApplyQueueResume(old(View()), queueVersion)
      ensures !ok ==> View() == old(View())
    {
      if queueVersion != state.queueVersion {
        return false;
      }
      state := state.(queuePaused := false);
      state := state.(blocked := RemoveReason(state.blocked, OperatorPause));
      state := state.(queueVersion := state.queueVersion + 1, stateVersion := state.stateVersion + 1);
      AppendQueueEvent();
      AppendNodeEvent();
      ok := true;
    }

    // ----- control_handlers.go -----

    method InsertActionRow(command: Id, kind: ActionKind, reference: AttemptRef, message: Id, subject: Id, subjectVersion: int)
      modifies this`core
      ensures View() == InsertAction(old(View()), command, kind, reference, message, subject, subjectVersion)
    {
      core := core.(actions := core.actions[command :=
        Action(|core.actions|, kind, reference, message, subject, subjectVersion, ActionStatus.Pending)]);
    }

    method StopAttemptRow(command: Id, attempt: Id, generation: int) returns (ok: bool)
      modifies this`core, this`state, this`log
      ensures ok <==> ApplyAttemptStop(old(View()), command, attempt, generation).Some?
      ensures ok ==> Some(View()) == ApplyAttemptStop(old(View()), command, attempt, generation)
      ensures !ok ==> View() == old(View())
    {
      if attempt !in core.attempts || command in core.actions {
        return false;
      }
      var a := core.attempts[attempt];
      if a.generation != generation || state.slot != Some(attempt)
         || !(a.state.Dispatching? || a.state.Running? || a.state.WaitingInput? || a.state.Stopping?) {
        return false;
      }
      var version := a.version + 1;
      core := core.(attempts := core.attempts[attempt := a.(version := version, state := AttemptState.Stopping)]);
      state := state.(queuePaused := true);
      state := state.(blocked := AddReason(state.blocked, OperatorPause));
      state := state.(queueVersion := state.queueVersion + 1, stateVersion := state.stateVersion + 1);
      AppendEvent(AttemptStopRequested, attempt, version, Some(attempt), Some(a.dialog), false);
      AppendQueueEvent();
      AppendNodeEvent();
      InsertActionRow(command, ActionKind.Stop, AttemptRef(a.dialog, a.request, attempt, a.generation), 0, 0, 0);
      ok := true;
    }

    method RetryAttemptRow(attempt: Id, generation: int, acknowledge: bool, request: Id) returns (ok: bool)
      modifies this`core, this`state, this`log
      ensures ok <==> ApplyAttemptRetry(old(View()), attempt, generation, acknowledge, request).Some?
      ensures ok ==> Some(View()) == ApplyAttemptRetry(old(View()), attempt, generation, acknowledge, request)
      ensures !ok ==> View() == old(View())
    {
      if attempt !in core.attempts || core.attempts[attempt].request !in core.requests {
        return false;
      }
      var a := core.attempts[attempt];
      var message := core.requests[a.request].message;
      if a.generation != generation || !(a.state.Failed? || a.state.Interrupted?) || a.effects.Unknown? {
        return false;
      }
      if (a.effects.Known? && !acknowledge) || state.pendingCount >= QUEUE_CAPACITY
         || RetryPending(View(), message) || request in core.requests {
        return false;
      }
      var row := Request(a.dialog, message, state.nextQueueSequence, 1, RequestStatus.Queued);
      core := core.(requests := core.requests[request := row]);
      state := state.(nextQueueSequence := state.nextQueueSequence + 1);
      state := state.(pendingCount := state.pendingCount + 1);
      state := state.(queueVersion := state.queueVersion + 1, stateVersion := state.stateVersion + 1);
      AppendQueueEvent();
      AppendNodeEvent();
      ok := true;
    }

    method SteerMessageRow(command: Id, dialog: Id, attempt: Id, message: Id, generation: int, version: int) returns (ok: bool)
      modifies this`core, this`state, this`log
      ensures ok <==> ApplyMessageSteer(old(View()), command, dialog, attempt, message, generation, version).Some?
      ensures ok ==> Some(View()) == ApplyMessageSteer(old(View()), command, dialog, attempt, message, generation, version)
      ensures !ok ==> View() == old(View())
    {
      if attempt !in core.attempts || message !in core.messages || command in core.actions {
        return false;
      }
      var a := core.attempts[attempt];
      var m := core.messages[message];
      if m.dialog != dialog || m.request.None? || a.generation != generation || m.version != version || a.dialog != dialog {
        return false;
      }
      if state.slot != Some(attempt) || !m.disposition.Queued? || !(a.state.Running? || a.state.WaitingInput?) {
        return false;
      }
      UpdateDisposition(message, Disposition.SteerPending);
      state := state.(queueVersion := state.queueVersion + 1, stateVersion := state.stateVersion + 1);
      AppendEvent(DispositionChanged, message, m.version + 1, None, None, false);
      AppendQueueEvent();
      InsertActionRow(command, ActionKind.Steer, AttemptRef(dialog, m.request.value, attempt, a.generation), message, 0, 0);
      ok := true;
    }

    method RespondApprovalRow(command: Id, approval: Id, attempt: Id, version: int, generation: int, actionHash: Id) returns (ok: bool)
      modifies this`core, this`rows
      ensures ok <==> ApplyApproval(old(View()), command, approval, attempt, version, generation, actionHash).Some?
      ensures ok ==> Some(View()) == ApplyApproval(old(View()), command, approval, attempt, version, generation, actionHash)
      ensures !ok ==> View() == old(View())
    {
      if approval !in rows.approvals || attempt !in core.attempts || command in core.actions {
        return false;
      }
      var p := rows.approvals[approval];
      var a := core.attempts[attempt];
      if p.attempt != attempt || p.version != version || a.generation != generation || !p.status.Pending? || p.actionHash != actionHash {
        return false;
      }
      var next := p.version + 1;
      rows := rows.(approvals := rows.approvals[approval := p.(version := next, status := AnswerStatus.Responding)]);
      InsertActionRow(command, ActionKind.Approval, AttemptRef(a.dialog, a.request, attempt, a.generation), 0, approval, next);
      ok := true;
    }

    method RespondInputRow(command: Id, input: Id, attempt: Id, version: int, generation: int, message: Id) returns (ok: bool)
      modifies this`core, this`rows, this`state
      ensures ok <==> ApplyInput(old(View()), command, input, attempt, version, generation, message).Some?
      ensures ok ==> Some(View()) == ApplyInput(old(View()), command, input, attempt, version, generation, message)
      ensures !ok ==> View() == old(View())
    {
      if input !in rows.inputs || attempt !in core.attempts || command in core.actions || message in core.messages {
        return false;
      }
      var i := rows.inputs[input];
      var a := core.attempts[attempt];
      if i.attempt != attempt || i.version != version || a.generation != generation || !i.status.Pending? {
        return false;
      }
      var row := Message(a.dialog, state.nextMessageSequence, 1, Disposition.Applied, Some(a.request), Some(attempt), None);
      core := core.(messages := core.messages[message := row]);
      state := state.(nextMessageSequence := state.nextMessageSequence + 1);
      var next := i.version + 1;
      rows := rows.(inputs := rows.inputs[input := i.(version := next, status := AnswerStatus.Responding)]);
      InsertActionRow(command, ActionKind.Input, AttemptRef(a.dialog, a.request, attempt, a.generation), message, input, next);
      ok := true;
    }

    // ----- command.go -----

    method Apply(id: Id, command: Command, drawn: Drawn) returns (ok: bool)
      modifies this`core, this`rows, this`admin, this`state, this`log
      ensures ok <==> ApplyCommand(old(View()), id, command, drawn).Some?
      ensures ok ==> Some(View()) == ApplyCommand(old(View()), id, command, drawn)
      ensures !ok ==> View() == old(View())
    {
      match command
      case CreateDialog(v) => ok := CreateDialogRow(v, drawn.first);
      case DeleteDialog(_, _) => ok := false;
      case EnqueueMessage(d, v, _) => ok := EnqueueMessageRow(d, v, drawn);
      case CancelRequest(r, v) => ok := CancelRequestRow(r, v);
      case ResumeQueue(v) => ok := ResumeQueueRow(v);
      case StopAttempt(a, g) => ok := StopAttemptRow(id, a, g);
      case RetryAttempt(a, g, ack) => ok := RetryAttemptRow(a, g, ack, drawn.first);
      case SteerMessage(d, a, m, g, v) => ok := SteerMessageRow(id, d, a, m, g, v);
      case RespondApproval(p, a, v, g, h, _) => ok := RespondApprovalRow(id, p, a, v, g, h);
      case RespondInput(i, a, v, g, _) => ok := RespondInputRow(id, i, a, v, g, drawn.first);
    }

    method Submit(id: Id, command: Command, drawn: Drawn) returns (reply: CommandReply)
      modifies this`core, this`rows, this`admin, this`state, this`log
      ensures (View(), reply) == SubmitCommand(old(View()), id, command, drawn)
    {
      if command.DeleteDialog? {
        return Forbidden;
      }
      if id in admin.commands || id in admin.rejections {
        return StoredReply(View(), id, command);
      }
      if !Authorized(View(), command) {
        return CommandReply.NotFound;
      }
      if CoveredByHold(View(), command) {
        admin := admin.(rejections := admin.rejections[id := command]);
        return HeldBack;
      }
      var ok := Apply(id, command, drawn);
      if !ok {
        return Refused;
      }
      admin := admin.(commands := admin.commands[id := Receipt(command, CreatedDialog(command, drawn), CreatedRequest(command, drawn))]);
      reply := Admitted;
    }

    // ----- hold.go -----

    method BumpRevision(scope: Scope)
      modifies this`admin
      ensures admin == old(admin).(revisions := old(admin).revisions[scope := Revision(old(View()), scope) + 1])
    {
      var revision := if scope in admin.revisions then admin.revisions[scope] else 0;
      admin := admin.(revisions := admin.revisions[scope := revision + 1]);
    }

    method Install(operation: Id, request: InstallRequest) returns (reply: HoldReply)
      modifies this`admin
      ensures (View(), reply) == InstallHold(old(View()), operation, request)
    {
      var scope := request.scope;
      if run.gate.Some? {
        return GateBusy;
      }
      if operation in admin.holds {
        return if admin.holds[operation].digest == request.digest then Stored else HoldReply.IdConflict;
      }
      if request.epoch != state.epoch || request.binding != state.registryVersion {
        return Stale;
      }
      if scope.OneDialog? && (scope.dialog !in admin.dialogs || scope.dialog in admin.tombstones) {
        return HoldReply.NotFound;
      }
      if PreStart(View(), scope) || ScopeTaken(View(), scope) {
        return Stale;
      }
      var revision := if scope in admin.revisions then admin.revisions[scope] else 0;
      if request.scopeRevision != revision {
        return Stale;
      }
      var version := admin.holdClock;
      admin := admin.(holdClock := version + 1);
      BumpRevision(scope);
      var hold := Hold(scope, version, revision + 1, state.epoch, state.registryVersion, request.digest);
      admin := admin.(holds := admin.holds[operation := hold]);
      reply := Installed;
    }

    method Release(operation: Id, request: ReleaseRequest) returns (reply: HoldReply)
      modifies this`admin
      ensures (View(), reply) == ReleaseHold(old(View()), operation, request)
    {
      if run.gate.Some? {
        return GateBusy;
      }
      if operation in admin.holdOutcomes {
        return if admin.holdOutcomes[operation] == request.digest then Stored else HoldReply.IdConflict;
      }
      if operation !in admin.holds {
        return HoldReply.NotFound;
      }
      var h := admin.holds[operation];
      var revision := if h.scope in admin.revisions then admin.revisions[h.scope] else 0;
      if request.epoch != state.epoch || request.epoch != h.epoch || request.binding != state.registryVersion
         || request.binding != h.binding || request.scope != h.scope || request.holdVersion != h.version
         || request.scopeRevision != h.scopeRevision || revision != h.scopeRevision {
        return Stale;
      }
      BumpRevision(h.scope);
      admin := admin.(holdOutcomes := admin.holdOutcomes[operation := request.digest]);
      reply := Released;
    }

    // ----- logical_delete.go -----

    method Delete(operation: Id, request: DeleteRequest) returns (reply: HoldReply)
      modifies this`admin, this`state, this`log
      ensures (View(), reply) == DeleteLogicalDialog(old(View()), operation, request)
    {
      if run.gate.Some? {
        return GateBusy;
      }
      if request.epoch != state.epoch || request.registryVersion != state.registryVersion {
        return Stale;
      }
      if operation in admin.deletions {
        return if admin.deletions[operation] == request.digest then Stored else HoldReply.IdConflict;
      }
      if operation !in admin.holds || operation in admin.holdOutcomes {
        return Stale;
      }
      var h := admin.holds[operation];
      if h.scope != OneDialog(request.dialog) || h.version != request.holdVersion || h.scopeRevision != request.scopeRevision
         || h.epoch != request.epoch || h.binding != request.registryVersion || Revision(View(), h.scope) != h.scopeRevision {
        return Stale;
      }
      var command := Command.DeleteDialog(request.dialog, request.dialogVersion);
      if request.command in admin.commands || request.command in admin.rejections {
        return if OutcomeCommand(View(), request.command) != command then HoldReply.IdConflict else Stale;
      }
      var ok := BuryDialog(request.dialog, request.dialogVersion);
      if !ok {
        return Stale;
      }
      admin := admin.(commands := admin.commands[request.command := Receipt(command, Some(request.dialog), None)]);
      BumpRevision(h.scope);
      admin := admin.(holdOutcomes := admin.holdOutcomes[operation := request.digest]);
      admin := admin.(deletions := admin.deletions[operation := request.digest]);
      reply := HoldReply.Deleted;
    }

    // applyDialogDelete
    method BuryDialog(dialog: Id, version: int) returns (ok: bool)
      modifies this`admin, this`state, this`log
      ensures ok <==> ApplyDialogDelete(old(View()), dialog, version).Some?
      ensures ok ==> Some(View()) == ApplyDialogDelete(old(View()), dialog, version)
      ensures !ok ==> View() == old(View())
    {
      if dialog !in admin.dialogs || dialog in admin.tombstones || admin.dialogs[dialog].version != version
         || !DialogSettled(View(), dialog) {
        return false;
      }
      admin := admin.(dialogs := admin.dialogs[dialog := Dialog(version + 1)]);
      admin := admin.(tombstones := admin.tombstones + {dialog});
      state := state.(stateVersion := state.stateVersion + 1);
      AppendEvent(EventKind.DialogDeleted, dialog, version + 1, None, Some(dialog), false);
      ok := true;
    }

    // ----- dispatch.go -----

    // ORDER BY queue_sequence LIMIT 1, over the requests no hold covers
    method FirstInQueue() returns (found: Option<Id>)
      ensures found.Some? ==> NextInQueue(View(), found.value)
      ensures found.None? ==> forall r :: r in core.requests && IsQueued(View(), r) ==> Held(View(), core.requests[r].dialog)
    {
      found := None;
      var rest := core.requests.Keys;
      while rest != {}
        invariant rest <= core.requests.Keys
        invariant found.Some? ==>
          && IsQueued(View(), found.value) && !Held(View(), core.requests[found.value].dialog)
          && forall r :: r in core.requests && r !in rest && IsQueued(View(), r) && !Held(View(), core.requests[r].dialog) ==>
               core.requests[found.value].queueSequence <= core.requests[r].queueSequence
        invariant found.None? ==>
          forall r :: r in core.requests && r !in rest && IsQueued(View(), r) ==> Held(View(), core.requests[r].dialog)
        decreases |rest|
      {
        var r := RowSets.AnyOf(rest);
        if core.requests[r].status.Queued? && !Held(View(), core.requests[r].dialog) {
          if found.None? || core.requests[r].queueSequence < core.requests[found.value].queueSequence {
            found := Some(r);
          }
        }
        rest := rest - {r};
      }
    }

    // remembers the request if it comes first and the queue is open
    method PeekAt(request: Id)
      modifies this`run
      ensures View() == Peek(old(View()), request)
    {
      if state.queuePaused || state.slot.Some? || state.pendingCount == 0 || ExecutionUnknown in state.blocked
         || !IsQueued(View(), request) || Held(View(), core.requests[request].dialog) {
        return;
      }
      var first := FirstInQueue();
      var r := core.requests[request];
      if core.requests[first.value].queueSequence < r.queueSequence {
        return;
      }
      run := run.(peeked := Some(Candidate(request, r.dialog, r.message, r.queueSequence, state.stateVersion)));
    }

    // peekDispatch
    method PeekNext() returns (found: Option<Id>)
      modifies this`run
      ensures found.Some? ==> View() == Peek(old(View()), found.value)
      ensures found.None? ==> View() == old(View())
    {
      found := FirstInQueue();
      if found.Some? {
        PeekAt(found.value);
      }
    }

    // COALESCE(MAX(generation),0)+1 over the attempts made for the message
    method GenerationFor(message: Id) returns (generation: int)
      ensures NextGeneration(View(), message, generation)
    {
      var newest: Option<Id> := None;
      var rest := core.attempts.Keys;
      while rest != {}
        invariant rest <= core.attempts.Keys
        invariant newest.Some? ==>
          && AttemptOf(View(), newest.value, message)
          && forall a :: a in core.attempts && a !in rest && AttemptOf(View(), a, message) ==>
               core.attempts[a].generation <= core.attempts[newest.value].generation
        invariant newest.None? ==> forall a :: a in core.attempts && a !in rest ==> !AttemptOf(View(), a, message)
        decreases |rest|
      {
        var a := RowSets.AnyOf(rest);
        if AttemptOf(View(), a, message)
           && (newest.None? || core.attempts[a].generation > core.attempts[newest.value].generation) {
          newest := Some(a);
        }
        rest := rest - {a};
      }
      generation := if newest.Some? then core.attempts[newest.value].generation + 1 else 1;
    }

    method BlockOnPolicy()
      modifies this`state, this`log
      ensures View() == BlockPolicy(old(View()))
    {
      if state.readiness.Blocked? && PolicyUnavailable in state.blocked {
        return;
      }
      state := state.(readiness := Readiness.Blocked);
      state := state.(blocked := AddReason(state.blocked, PolicyUnavailable));
      state := state.(stateVersion := state.stateVersion + 1);
      AppendNodeEvent();
    }

    method CommitDispatch(candidate: Candidate, attempt: Id, generation: int) returns (ok: bool)
      modifies this`core, this`state, this`log
      ensures ok <==> Dispatch(old(View()), candidate, attempt, generation).Some?
      ensures ok ==> Some(View()) == Dispatch(old(View()), candidate, attempt, generation)
      ensures !ok ==> View() == old(View())
    {
      var request := candidate.request;
      if state.stateVersion != candidate.stateVersion || state.queuePaused || state.slot.Some? || state.pendingCount == 0 {
        return false;
      }
      if !NextInQueue(View(), request) {
        return false;
      }
      var r := core.requests[request];
      if r.dialog != candidate.dialog || r.message != candidate.message || r.queueSequence != candidate.queueSequence
         || attempt in core.attempts || attempt in core.actions || r.message !in core.messages {
        return false;
      }
      if OtherLive(View(), attempt) {
        return false;
      }
      if !NextGeneration(View(), r.message, generation) {
        return false;
      }
      WriteDispatch(candidate, attempt, generation);
      ok := true;
    }

    // the rows of a new attempt, its request, its message and its start action
    method WriteDispatch(candidate: Candidate, attempt: Id, generation: int)
      requires Dispatch(View(), candidate, attempt, generation).Some?
      modifies this`core, this`state, this`log
      ensures Some(View()) == Dispatch(old(View()), candidate, attempt, generation)
    {
      var request := candidate.request;
      var r := core.requests[request];
      core := core.(attempts := core.attempts[attempt := Attempt(r.dialog, request, generation, 1, AttemptState.Dispatching,
                                                                 Effects.Nothing, false, 0)]);
      UpdateRequest(request, RequestStatus.Dispatching);
      var m := core.messages[r.message];
      if m.disposition.Queued? {
        var applied := m.(version := m.version + 1, disposition := Disposition.Applied, attempt := Some(attempt));
        core := core.(messages := core.messages[r.message := applied]);
        AppendEvent(DispositionChanged, r.message, m.version + 1, None, None, false);
      }
      OccupySlot(attempt);
      AppendEvent(AttemptDispatching, attempt, 1, Some(attempt), Some(r.dialog), false);
      AppendQueueEvent();
      AppendNodeEvent();
      InsertActionRow(attempt, ActionKind.DispatchStart, AttemptRef(r.dialog, request, attempt, generation), 0, 0, 0);
    }

    method OccupySlot(attempt: Id)
      modifies this`state
      ensures state == old(state).(pendingCount := old(state).pendingCount - 1, queueVersion := old(state).queueVersion + 1,
                                   stateVersion := old(state).stateVersion + 1, slot := Some(attempt), readiness := Readiness.Ready,
                                   occupancy := Occupancy.Active, blocked := RemoveReason(old(state).blocked, PolicyUnavailable))
    {
      state := state.(pendingCount := state.pendingCount - 1);
      state := state.(queueVersion := state.queueVersion + 1, stateVersion := state.stateVersion + 1);
      state := state.(slot := Some(attempt), readiness := Readiness.Ready, occupancy := Occupancy.Active);
      state := state.(blocked := RemoveReason(state.blocked, PolicyUnavailable));
    }

    // the committing half of DispatchNext; the candidate is used up
    method DispatchAs(attempt: Id, generation: int)
      modifies this`core, this`state, this`log, this`run
      ensures View() == DispatchCandidate(old(View()), attempt, generation)
    {
      if run.peeked.Some? {
        var ok := CommitDispatch(run.peeked.value, attempt, generation);
        run := run.(peeked := None);
      }
    }

    // DispatchNext, from the policy snapshot on
    method DispatchPeeked(attempt: Id) returns (generation: int)
      modifies this`core, this`state, this`log, this`run
      ensures View() == DispatchCandidate(old(View()), attempt, generation)
      ensures var p := old(run.peeked);
        p.Some? && p.value.request in old(core.requests) ==>
          NextGeneration(old(View()), old(core.requests)[p.value.request].message, generation)
    {
      generation := 0;
      if run.peeked.Some? && run.peeked.value.request in core.requests {
        generation := GenerationFor(core.requests[run.peeked.value.request].message);
      }
      DispatchAs(attempt, generation);
    }

    // ----- actions.go -----

    // ORDER BY rowid LIMIT 1, over the pending rows of a lane
    method OldestAction(lane: Lane) returns (found: Option<Id>)
      ensures found.Some? ==>
        && Claimable(View(), found.value, lane)
        && forall c :: c in core.actions && Claimable(View(), c, lane) ==> core.actions[found.value].row <= core.actions[c].row
      ensures found.None? ==> forall c :: c in core.actions ==> !Claimable(View(), c, lane)
    {
      found := None;
      var rest := core.actions.Keys;
      while rest != {}
        invariant rest <= core.actions.Keys
        invariant found.Some? ==>
          && Claimable(View(), found.value, lane)
          && forall c :: c in core.actions && c !in rest && Claimable(View(), c, lane) ==>
               core.actions[found.value].row <= core.actions[c].row
        invariant found.None? ==> forall c :: c in core.actions && c !in rest ==> !Claimable(View(), c, lane)
        decreases |rest|
      {
        var c := RowSets.AnyOf(rest);
        if Claimable(View(), c, lane) && (found.None? || core.actions[c].row < core.actions[found.value].row) {
          found := Some(c);
        }
        rest := rest - {c};
      }
    }

    // the row becomes inflight and gets a worker if it is the oldest of its lane
    method ClaimRow(lane: Lane, id: Id)
      modifies this`core, this`run
      ensures View() == Claim(old(View()), lane, id)
    {
      if !Claimable(View(), id, lane) || id in run.workers {
        return;
      }
      var oldest := OldestAction(lane);
      if core.actions[oldest.value].row < core.actions[id].row {
        return;
      }
      core := core.(actions := core.actions[id := core.actions[id].(status := ActionStatus.Inflight)]);
      run := run.(workers := run.workers[id := Claimed]);
    }

    // claimAction
    method ClaimNext(lane: Lane) returns (found: Option<Id>)
      modifies this`core, this`run
      ensures found.Some? ==> View() == Claim(old(View()), lane, found.value)
      ensures found.None? ==> View() == old(View()) && forall c :: c in core.actions ==> !Claimable(View(), c, lane)
    {
      found := OldestAction(lane);
      if found.Some? {
        ClaimRow(lane, found.value);
      }
    }

    method MarkStartedRow(reference: AttemptRef) returns (ok: bool)
      modifies this`core, this`state, this`log
      ensures ok <==> MarkStarted(old(View()), reference).Some?
      ensures ok ==> Some(View()) == MarkStarted(old(View()), reference)
      ensures !ok ==> View() == old(View())
    {
      if state.slot != Some(reference.attempt) || reference.attempt !in core.attempts
         || !core.attempts[reference.attempt].state.Dispatching? || (reference.attempt, Key.Started) in log.projected {
        return false;
      }
      var a := core.attempts[reference.attempt];
      var version := a.version + 1;
      core := core.(attempts := core.attempts[reference.attempt := a.(version := version, state := AttemptState.Running, started := true)]);
      UpdateRequest(reference.request, RequestStatus.Active);
      state := state.(stateVersion := state.stateVersion + 1);
      AppendEvent(AttemptStarted, reference.attempt, version, Some(reference.attempt), Some(reference.dialog), false);
      log := log.(projected := log.projected[(reference.attempt, Key.Started) := OfEvent(AdapterEvent.Started)]);
      AppendNodeEvent();
      ok := true;
    }

    method UpdateSteered(message: Id, to: Disposition)
      requires message in core.messages && core.messages[message].request.Some?
      modifies this`core, this`state, this`log
      ensures View() == SteerRows(old(View()), message, to)
    {
      var m := core.messages[message];
      if !to.Queued? {
        state := state.(pendingCount := state.pendingCount - 1);
        UpdateRequest(m.request.value, if to.Applied? then RequestStatus.Completed else RequestStatus.Unknown);
      }
      UpdateDisposition(message, to);
      state := state.(queueVersion := state.queueVersion + 1, stateVersion := state.stateVersion + 1);
      AppendEvent(DispositionChanged, message, m.version + 1, None, None, false);
    }

    method FinishSteerRow(reference: AttemptRef, message: Id, answer: Answer) returns (ok: bool)
      modifies this`core, this`state, this`log
      ensures ok <==> FinishSteer(old(View()), reference, message, answer).Some?
      ensures ok ==> Some(View()) == FinishSteer(old(View()), reference, message, answer)
    {
      if message !in core.messages || !core.messages[message].disposition.SteerPending? || core.messages[message].request.None? {
        return false;
      }
      var to := SteerDisposition(answer);
      UpdateSteered(message, to);
      if to.Unknown? {
        ok := MarkUnknown(reference, Effects.Unknown);
        if !ok {
          return;
        }
      }
      AppendQueueEvent();
      ok := true;
    }

    method UpdateAnswer(action: Action, status: AnswerStatus)
      modifies this`rows
      ensures View() == AnswerRows(old(View()), action, status)
    {
      if action.kind.Approval? {
        if action.subject in rows.approvals && rows.approvals[action.subject].version == action.subjectVersion {
          rows := rows.(approvals := rows.approvals[action.subject := rows.approvals[action.subject].(status := status)]);
        }
      } else if action.subject in rows.inputs && rows.inputs[action.subject].version == action.subjectVersion {
        rows := rows.(inputs := rows.inputs[action.subject := rows.inputs[action.subject].(status := status)]);
      }
    }

    method FinishResponseRow(action: Action, answer: Answer) returns (ok: bool)
      modifies this`core, this`rows, this`state, this`log
      ensures ok <==> FinishResponse(old(View()), action, answer).Some?
      ensures ok ==> Some(View()) == FinishResponse(old(View()), action, answer)
    {
      var status := AnswerRow(answer);
      UpdateAnswer(action, status);
      ok := true;
      if status.Resolved? {
        AppendEvent(if action.kind.Approval? then ApprovalResolved else InputResolved, action.subject, action.subjectVersion,
                    Some(action.reference.attempt), Some(action.reference.dialog), false);
      } else if status.Unknown? {
        ok := MarkUnknown(action.reference, Effects.Unknown);
      }
    }

    // the transaction of an answered worker; one that fails rolls back and is ignored
    method SettleWorker(id: Id, commit: bool)
      modifies this
      ensures View() == Settle(old(View()), id, commit)
    {
      if id !in run.workers || id !in core.actions || !run.workers[id].Answered? {
        return;
      }
      var saved := View();
      var action := core.actions[id];
      var answer := run.workers[id].answer;
      var phase := SettleAction(saved, id, answer, commit).1;
      if commit {
        var ok := true;
        if action.kind.DispatchStart? && answer.Accepted? {
          ok := MarkStartedRow(action.reference);
        } else if action.kind.DispatchStart? && answer.Rejected? {
          ReportFailure(action.reference.attempt, action.reference.generation);
        } else if action.kind.DispatchStart? || (action.kind.Stop? && !answer.Accepted? && !answer.Rejected?)
                  || (!action.kind.Stop? && !Declared(action.kind, answer)) {
          MarkAttempt(action.reference);
        } else if action.kind.Steer? {
          ok := FinishSteerRow(action.reference, action.message, answer);
        } else if !action.kind.Stop? {
          ok := FinishResponseRow(action, answer);
        }
        if !ok {
          Rollback(saved);
        }
      }
      run := run.(workers := run.workers[id := phase]);
    }

    method FinishWorker(id: Id, commit: bool)
      modifies this`core, this`run
      ensures View() == FinishAction(old(View()), id, commit)
    {
      if id in run.workers && id in core.actions && run.workers[id].Finishing? {
        var status := run.workers[id].status;
        if commit && core.actions[id].status.Inflight? {
          core := core.(actions := core.actions[id := core.actions[id].(status := status)]);
        }
        run := run.(workers := run.workers - {id});
      }
    }

    // performDispatch up to the adapter's answer, under the start gate

    method EnterGate(id: Id)
      modifies this`run
      ensures View() == TakeGate(old(View()), id)
    {
      if InPhase(View(), id, Claimed) && core.actions[id].kind.DispatchStart? && run.gate.None? {
        run := run.(gate := Some(id));
        run := run.(workers := run.workers[id := Gated]);
      }
    }

    method ReadSnapshot(id: Id, policySound: bool)
      modifies this`run
      ensures View() == ReadDispatch(old(View()), id, policySound)
    {
      if !InPhase(View(), id, Gated) {
        return;
      }
      var attempt := core.actions[id].reference.attempt;
      var phase := Answered(Answer.Error);
      if attempt in core.attempts && core.attempts[attempt].state.Dispatching? && policySound {
        phase := Phase.Ready(HasEnded(View(), attempt));
      }
      run := run.(workers := run.workers[id := phase]);
    }

    // Adapter.Start or Adapter.Resume begins
    method BeginAdapterCall(id: Id)
      modifies this`run
      ensures View() == BeginCall(old(View()), id)
    {
      if id in run.workers && run.workers[id].Ready? {
        run := run.(workers := run.workers[id := Calling(run.workers[id].resume)]);
      }
    }

    // the adapter's answer to a worker
    method TakeReply(id: Id, answer: Answer)
      modifies this`run
      ensures View() == TakeAnswer(old(View()), id, answer)
    {
      if id in run.workers && id in core.actions
         && (run.workers[id].Calling? || (run.workers[id].Claimed? && !core.actions[id].kind.DispatchStart?)) {
        run := run.(workers := run.workers[id := Answered(answer)]);
      }
    }

    method LeaveGate()
      modifies this`run
      ensures View() == ReleaseGate(old(View()))
    {
      if run.gate.Some? && run.gate.value !in run.workers {
        run := run.(gate := None);
      }
    }

    // ----- observe.go: the pieces of a projection -----

    method ScheduleStop(reference: AttemptRef, stop: Id) returns (ok: bool)
      modifies this`core, this`state, this`log
      ensures ok <==> ScheduleOutputLimitStop(old(View()), reference, stop).Some?
      ensures ok ==> Some(View()) == ScheduleOutputLimitStop(old(View()), reference, stop)
    {
      if state.slot != Some(reference.attempt) || reference.attempt !in core.attempts {
        return true;
      }
      var a := core.attempts[reference.attempt];
      if a.generation != reference.generation || !(a.state.Running? || a.state.WaitingInput?) {
        return true;
      }
      if stop in core.actions {
        return false;
      }
      var version := a.version + 1;
      core := core.(attempts := core.attempts[reference.attempt := a.(version := version, state := AttemptState.Stopping)]);
      state := state.(stateVersion := state.stateVersion + 1);
      AppendEvent(AttemptStopRequested, reference.attempt, version, Some(reference.attempt), Some(reference.dialog), false);
      InsertActionRow(stop, ActionKind.Stop, reference, 0, 0, 0);
      ok := true;
    }

    // an event row with its projection key, digest and charge
    method RecordProjection(reference: AttemptRef, kind: EventKind, entity: Id, version: int, key: Key, digest: Digest) returns (ok: bool)
      modifies this`state, this`log
      ensures ok <==> Record(old(View()), reference, kind, entity, version, key, digest).Some?
      ensures ok ==> Some(View()) == Record(old(View()), reference, kind, entity, version, key, digest)
    {
      if (reference.attempt, key) in log.projected {
        return false;
      }
      state := state.(stateVersion := state.stateVersion + 1);
      AppendEvent(kind, entity, version, Some(reference.attempt), Some(reference.dialog), false);
      log := log.(projected := log.projected[(reference.attempt, key) := digest]);
      ok := true;
    }

    method RecordAndLimit(reference: AttemptRef, event: AdapterEvent, key: Key, limited: bool, stop: Id) returns (ok: bool)
      modifies this`core, this`state, this`log
      ensures ok <==> RecordEvent(old(View()), reference, event, key, limited, stop).Some?
      ensures ok ==> Some(View()) == RecordEvent(old(View()), reference, event, key, limited, stop)
    {
      var version := LiveVersion(View(), reference.attempt, event);
      ok := RecordProjection(reference, EventKindOf(event), EntityOf(event, reference.attempt), version, key, OfEvent(event));
      if ok && limited {
        ok := ScheduleStop(reference, stop);
      }
    }

    method InsertAssistantRow(reference: AttemptRef, message: Id, content: Content) returns (ok: bool)
      modifies this`core, this`state
      ensures ok <==> InsertAssistant(old(View()), reference, message, content).Some?
      ensures ok ==> Some(View()) == InsertAssistant(old(View()), reference, message, content)
    {
      if message in core.messages {
        return false;
      }
      var row := Message(reference.dialog, state.nextMessageSequence, 1, Disposition.Unset, None, Some(reference.attempt), Some(content));
      core := core.(messages := core.messages[message := row]);
      state := state.(nextMessageSequence := state.nextMessageSequence + 1);
      ok := true;
    }

    method WaitForAnswer(reference: AttemptRef) returns (ok: bool)
      requires reference.attempt in core.attempts
      modifies this`core, this`state, this`log
      ensures ok <==> TransitionWaiting(old(View()), reference).Some?
      ensures ok ==> Some(View()) == TransitionWaiting(old(View()), reference)
    {
      var a := core.attempts[reference.attempt];
      if !(a.state.Running? || a.state.WaitingInput?) {
        return false;
      }
      core := core.(attempts := core.attempts[reference.attempt := a.(version := a.version + 1, state := AttemptState.WaitingInput)]);
      state := state.(stateVersion := state.stateVersion + 1);
      AppendEvent(AttemptWaiting, reference.attempt, a.version + 1, Some(reference.attempt), Some(reference.dialog), false);
      ok := true;
    }

    // COALESCE(SUM(output_bytes),0) over the keyed late rows of the attempt
    method ArchivedTotal(attempt: Id) returns (total: nat)
      ensures total == Sum(ArchivedBytes(log.late, attempt))
    {
      total := 0;
      for i := 0 to |log.late|
        invariant total == Sum(ArchivedBytes(log.late[..i], attempt))
      {
        var row := log.late[i];
        assert log.late[..i + 1] == log.late[..i] + [row];
        ArchivedBytesAppend(log.late[..i], row, attempt);
        if row.attempt == attempt && row.key.Some? {
          SumAppend(ArchivedBytes(log.late[..i], attempt), [row.outputBytes]);
          assert Sum([row.outputBytes]) == row.outputBytes;
          total := total + row.outputBytes;
        } else {
          assert ArchivedBytes(log.late[..i + 1], attempt) == ArchivedBytes(log.late[..i], attempt);
        }
      }
      assert log.late[..|log.late|] == log.late;
    }

    // chargeAttemptOutput
    method ChargeBytes(attempt: Id, bytes: nat) returns (charge: Charge)
      requires attempt in core.attempts && bytes <= MAXIMUM_ATTEMPT_OUTPUT_BYTES
      modifies this`core
      ensures var a := old(View()).core.attempts[attempt];
        var (c, used) := ChargeLive(a.outputBytes, Sum(ArchivedBytes(old(View()).log.late, attempt)), bytes);
        charge == c && core == old(View()).core.(attempts := old(View()).core.attempts[attempt := a.(outputBytes := used)])
    {
      var a := core.attempts[attempt];
      var archived := ArchivedTotal(attempt);
      var used := a.outputBytes;
      if used > MAXIMUM_ATTEMPT_OUTPUT_BYTES || archived > MAXIMUM_ATTEMPT_OUTPUT_BYTES || used > MAXIMUM_ATTEMPT_OUTPUT_BYTES - archived {
        charge := Charge(true, false);
      } else if bytes > MAXIMUM_ATTEMPT_OUTPUT_BYTES - used - archived {
        charge := Charge(true, true);
        used := MAXIMUM_ATTEMPT_OUTPUT_BYTES + 1;
      } else {
        charge := Charge(false, false);
        used := used + bytes;
      }
      core := core.(attempts := core.attempts[attempt := a.(outputBytes := used)]);
    }

    // the projection is looked up first, and charged only when it is new
    method ChargeEvent(attempt: Id, key: Key, event: AdapterEvent) returns (outcome: Charging)
      requires attempt in core.attempts
      modifies this`core
      ensures outcome == ChargeProjection(old(View()), attempt, key, event)
      ensures View() == if outcome.Admit? then outcome.state else old(View())
    {
      if (attempt, key) in log.projected {
        return if log.projected[(attempt, key)] == OfEvent(event) then Drop else Refuse;
      }
      if OutputBytes(event) > MAXIMUM_ATTEMPT_OUTPUT_BYTES {
        return Refuse;
      }
      var before := core;
      var charge := ChargeBytes(attempt, OutputBytes(event));
      if charge.exceeded && !charge.newlyExceeded {
        core := before;
        return Drop;
      }
      outcome := Admit(View(), charge.exceeded);
    }

    // ----- observe.go: prepareProjection, case by case -----

    method ProjectOutputRow(reference: AttemptRef, event: AdapterEvent, ids: Ids) returns (ok: bool)
      requires reference.attempt in core.attempts && IsOutput(event)
      modifies this`core, this`rows, this`state, this`log
      ensures ok <==> ProjectOutput(old(View()), reference, event, ids).Some?
      ensures ok ==> Some(View()) == ProjectOutput(old(View()), reference, event, ids)
    {
      if event.ToolOutput? || event.ToolCompleted? {
        if event.call !in rows.tools || rows.tools[event.call].attempt != reference.attempt {
          return false;
        }
      }
      var key := LiveKey(event, 0);
      var outcome := ChargeEvent(reference.attempt, key, event);
      if !outcome.Admit? {
        return outcome.Drop?;
      }
      ok := InsertOutputRow(reference, event, outcome.limited);
      if ok {
        ok := RecordAndLimit(reference, event, key, outcome.limited, ids.stop);
      }
    }

    method InsertOutputRow(reference: AttemptRef, event: AdapterEvent, limited: bool) returns (ok: bool)
      requires IsOutput(event)
      modifies this`core, this`rows, this`state
      ensures ok <==> InsertOutput(old(View()), reference, event, limited).Some?
      ensures ok ==> Some(View()) == InsertOutput(old(View()), reference, event, limited)
    {
      ok := true;
      match event {
        case AssistantMessage(message, content) =>
          ok := InsertAssistantRow(reference, message, Limited(content, limited));
        case ToolStarted(call, actionHash, _) =>
          if call in rows.tools {
            return false;
          }
          rows := rows.(tools := rows.tools[call := ToolCall(reference.attempt, actionHash, 1, ToolStatus.Running)]);
        case ToolCompleted(call, status, _, _) =>
          if call !in rows.tools {
            return false;
          }
          rows := rows.(tools := rows.tools[call := rows.tools[call].(version := rows.tools[call].version + 1, status := status)]);
        case _ =>
      }
    }

    method ProjectApprovalRow(reference: AttemptRef, event: AdapterEvent, ids: Ids) returns (ok: bool)
      requires reference.attempt in core.attempts && event.ApprovalRequested?
      modifies this`core, this`rows, this`state, this`log
      ensures ok <==> ProjectApproval(old(View()), reference, event, ids).Some?
      ensures ok ==> Some(View()) == ProjectApproval(old(View()), reference, event, ids)
    {
      if event.call !in rows.tools || rows.tools[event.call].attempt != reference.attempt
         || rows.tools[event.call].actionHash != event.actionHash {
        return false;
      }
      var key := Key.ApprovalRequested(event.approval);
      var outcome := ChargeEvent(reference.attempt, key, event);
      if !outcome.Admit? {
        return outcome.Drop?;
      }
      if outcome.limited {
        ok := MarkLimit(reference, key, OfEvent(event), ids);
        return;
      }
      if event.approval in rows.approvals {
        return false;
      }
      rows := rows.(approvals := rows.approvals[event.approval :=
        ApprovalRow(reference.attempt, event.call, event.actionHash, 1, AnswerStatus.Pending)]);
      ok := WaitForAnswer(reference);
      if ok {
        ok := RecordAndLimit(reference, event, key, false, ids.stop);
      }
    }

    // an output-limit marker message in place of what did not fit
    method MarkLimit(reference: AttemptRef, key: Key, digest: Digest, ids: Ids) returns (ok: bool)
      modifies this`core, this`state, this`log
      ensures ok <==> Marked(old(View()), reference, key, digest, ids).Some?
      ensures ok ==> Some(View()) == Marked(old(View()), reference, key, digest, ids)
    {
      ok := InsertAssistantRow(reference, ids.marker, OutputLimit);
      if ok {
        ok := RecordProjection(reference, EventKind.AssistantMessage, ids.marker, 1, key, digest);
        if ok {
          ok := ScheduleStop(reference, ids.stop);
        }
      }
    }

    method ProjectInputRow(reference: AttemptRef, event: AdapterEvent, ids: Ids) returns (ok: bool)
      requires reference.attempt in core.attempts && event.InputRequested?
      modifies this`core, this`rows, this`state, this`log
      ensures ok <==> ProjectInput(old(View()), reference, event, ids).Some?
      ensures ok ==> Some(View()) == ProjectInput(old(View()), reference, event, ids)
    {
      var key := Key.InputRequested(event.input);
      var outcome := ChargeEvent(reference.attempt, key, event);
      if !outcome.Admit? {
        return outcome.Drop?;
      }
      if event.input in rows.inputs {
        return false;
      }
      rows := rows.(inputs := rows.inputs[event.input := InputRow(reference.attempt, 1, AnswerStatus.Pending)]);
      ok := true;
      if !outcome.limited {
        ok := WaitForAnswer(reference);
      }
      if ok {
        ok := RecordAndLimit(reference, event, key, outcome.limited, ids.stop);
      }
    }

    method ProjectWaitingRow(reference: AttemptRef, event: AdapterEvent) returns (ok: bool)
      requires reference.attempt in core.attempts && event.Waiting?
      modifies this`core, this`state, this`log
      ensures ok <==> ProjectWaiting(old(View()), reference, event).Some?
      ensures ok ==> Some(View()) == ProjectWaiting(old(View()), reference, event)
    {
      if event.kind.Other? {
        return false;
      }
      var a := core.attempts[reference.attempt];
      if a.state.WaitingInput? {
        return true;
      }
      if !a.state.Running? {
        return false;
      }
      var version := a.version + 1;
      core := core.(attempts := core.attempts[reference.attempt := a.(version := version, state := AttemptState.WaitingInput)]);
      var key := Key.Waiting(version);
      if (reference.attempt, key) in log.projected {
        return log.projected[(reference.attempt, key)] == OfEvent(event);
      }
      ok := RecordAndLimit(reference, event, key, false, 0);
    }

    method ProjectTerminalRow(reference: AttemptRef, event: AdapterEvent, ids: Ids) returns (ok: bool)
      requires reference.attempt in core.attempts && event.Terminal?
      modifies this`core, this`state, this`log
      ensures ok <==> ProjectTerminal(old(View()), reference, event, ids).Some?
      ensures ok ==> Some(View()) == ProjectTerminal(old(View()), reference, event, ids)
    {
      if event.terminalEffects.None? {
        return false;
      }
      if ControlOwed(View(), reference.attempt) || event.terminalEffects.value.Unknown? {
        ok := MarkUnknown(reference, Effects.Unknown);
        if ok {
          ok := Archive(reference, event, true, ids);
        }
        return;
      }
      if event.outcome.Unknown? {
        ok := MarkUnknown(reference, event.terminalEffects.value);
        return;
      }
      if event.outcome.Other? || (event.outcome.Failed? && event.failure.None?) {
        return false;
      }
      if event.outcome.Completed? && event.output.Some? && !OutputMatches(View(), reference.attempt, event.output.value) {
        return false;
      }
      ok := EndAttemptRow(reference, event);
    }

    method EndAttemptRow(reference: AttemptRef, event: AdapterEvent) returns (ok: bool)
      requires reference.attempt in core.attempts && event.Terminal? && event.terminalEffects.Some?
      modifies this`core, this`state, this`log
      ensures ok <==> EndAttempt(old(View()), reference, event).Some?
      ensures ok ==> Some(View()) == EndAttempt(old(View()), reference, event)
    {
      var digest := TerminalDigest(View(), reference.attempt, event);
      if (reference.attempt, Key.Terminal) in log.projected {
        return log.projected[(reference.attempt, Key.Terminal)] == digest;
      }
      var a := core.attempts[reference.attempt];
      var version := a.version + 1;
      var ended := OutcomeState(event.outcome);
      core := core.(attempts := core.attempts[reference.attempt :=
        a.(version := version, state := ended, effects := event.terminalEffects.value)]);
      UpdateRequest(reference.request, TerminalStatus(ended));
      var blocked := FailureReasons(RemoveReason(state.blocked, ExecutionUnknown), event);
      state := state.(slot := None, occupancy := Occupancy.Idle, blocked := blocked);
      state := state.(readiness := if blocked == [] then Readiness.Ready else Readiness.Blocked);
      ok := RecordProjection(reference, TerminalEvent(ended), reference.attempt, version, Key.Terminal, digest);
      AppendNodeEvent();
    }

    method AppendLate(reference: AttemptRef, event: AdapterEvent, version: int, limited: bool, marker: Id)
      modifies this`log
      ensures View() == EmitLate(old(View()), reference, event, version, limited, marker)
    {
      if limited && !CarriesContent(event) {
        AppendEvent(EventKind.AssistantMessage, marker, 1, Some(reference.attempt), Some(reference.dialog), true);
      } else {
        AppendEvent(EventKindOf(event), EntityOf(event, reference.attempt), EntityVersion(event, version),
                    Some(reference.attempt), Some(reference.dialog), true);
      }
    }

    // archiveAdapterEvent
    method Archive(reference: AttemptRef, event: AdapterEvent, suppressed: bool, ids: Ids) returns (ok: bool)
      requires reference.attempt in core.attempts
      modifies this`core, this`state, this`log
      ensures ok <==> ArchiveEvent(old(View()), reference, event, suppressed, ids).Some?
      ensures ok ==> Some(View()) == ArchiveEvent(old(View()), reference, event, suppressed, ids)
    {
      var a := core.attempts[reference.attempt];
      if !Archivable(View(), reference.attempt, event) {
        return false;
      }
      var key := Key.Archive(LiveKey(event, a.version));
      var found := FindArchived(View(), reference.attempt, event, a.version);
      if !found.Absent? {
        return found.Same?;
      }
      if OutputBytes(event) > MAXIMUM_ATTEMPT_OUTPUT_BYTES {
        return false;
      }
      var archived := ArchivedTotal(reference.attempt);
      var (charge, stored) := ChargeArchived(a.outputBytes, archived, OutputBytes(event));
      if charge.exceeded && !charge.newlyExceeded {
        return true;
      }
      if !suppressed {
        AppendLate(reference, event, a.version, charge.newlyExceeded, ids.marker);
        log := log.(projected := log.projected[(reference.attempt, key) := OfEvent(event)]);
      }
      log := log.(late := log.late + [LateRow(reference.attempt, Some(key), Some(OfEvent(event)), stored)]);
      ok := true;
      if charge.newlyExceeded {
        ok := ScheduleStop(reference, ids.stop);
      }
    }

    // prepareProjection
    method Project(reference: AttemptRef, event: AdapterEvent, ids: Ids) returns (ok: bool)
      requires reference.attempt in core.attempts
      modifies this`core, this`rows, this`state, this`log
      ensures ok <==> ProjectEvent(old(View()), reference, event, ids).Some?
      ensures ok ==> Some(View()) == ProjectEvent(old(View()), reference, event, ids)
    {
      match event
      case Started =>
        if (reference.attempt, Key.Started) in log.projected {
          return log.projected[(reference.attempt, Key.Started)] == OfEvent(event);
        }
        ok := RecordAndLimit(reference, event, Key.Started, false, ids.stop);
      case Waiting(_) => ok := ProjectWaitingRow(reference, event);
      case ApprovalRequested(_, _, _, _) => ok := ProjectApprovalRow(reference, event, ids);
      case InputRequested(_, _) => ok := ProjectInputRow(reference, event, ids);
      case Terminal(_, _, _, _, _) => ok := ProjectTerminalRow(reference, event, ids);
      case UnknownReport(effects) => ok := MarkUnknown(reference, effects);
      case _ => ok := ProjectOutputRow(reference, event, ids);
    }

    // ObserveAdapterEvent
    method Deliver(reference: AttemptRef, event: AdapterEvent, ids: Ids)
      modifies this
      ensures View() == ObserveAdapterEvent(old(View()), reference, event, ids)
    {
      if reference.attempt !in core.attempts || core.attempts[reference.attempt].dialog in admin.tombstones
         || !core.attempts[reference.attempt].started || Reference(View(), reference.attempt) != reference {
        return;
      }
      var saved := View();
      var a := core.attempts[reference.attempt];
      var ok: bool;
      if (a.state.Stopping? || a.state.Unknown?) && Interactive(event) {
        ok := Archive(reference, event, true, ids);
      } else if state.slot != Some(reference.attempt) || !IsLive(a.state) {
        ok := Archive(reference, event, false, ids);
      } else {
        ok := Project(reference, event, ids);
      }
      if !ok {
        Rollback(saved);
      }
    }

    // observeAdapterStream gives up on an attempt
    method LoseAttemptStream(reference: AttemptRef)
      modifies this`core, this`state, this`log
      ensures View() == LoseStream(old(View()), reference)
    {
      if reference.attempt in core.attempts && Reference(View(), reference.attempt) == reference {
        MarkAttempt(reference);
      }
    }

    // ----- artifact.go -----

    method IngestArtifact(reference: AttemptRef, artifact: Id, call: Option<Id>, size: nat, ids: Ids)
      modifies this
      ensures View() == StoreArtifact(old(View()), reference, artifact, call, size, ids)
    {
      if reference.attempt !in core.attempts || core.attempts[reference.attempt].dialog in admin.tombstones
         || Reference(View(), reference.attempt) != reference || size > MAXIMUM_ATTEMPT_OUTPUT_BYTES || artifact in rows.artifacts {
        return;
      }
      if call.Some? && (call.value !in rows.tools || rows.tools[call.value].attempt != reference.attempt) {
        return;
      }
      var saved := View();
      var dialog := core.attempts[reference.attempt].dialog;
      var charge := ChargeBytes(reference.attempt, size);
      if charge.newlyExceeded {
        var ok := MarkLimit(reference, Key.ArtifactLimit, OfMarker(ids.marker), ids);
        if !ok {
          Rollback(saved);
        }
      } else if charge.exceeded {
        Rollback(saved);
      } else {
        rows := rows.(artifacts := rows.artifacts[artifact := Artifact(dialog, reference.attempt, call, size)]);
        AppendEvent(ArtifactAvailable, artifact, 1, Some(reference.attempt), Some(dialog), false);
      }
    }

    // ----- reconcile.go -----

    method ReconcileReport(reference: AttemptRef, event: AdapterEvent, message: Id, ids: Ids)
      modifies this
      ensures View() == Reconcile(old(View()), reference, event, message, ids)
    {
      if !(event.Terminal? && event.terminalEffects.Some? && !event.terminalEffects.value.Unknown?
           && (event.outcome.Completed? || event.outcome.Failed? || event.outcome.Interrupted?)) {
        return;
      }
      if state.slot != Some(reference.attempt) || reference.attempt !in core.attempts
         || Reference(View(), reference.attempt) != reference || !core.attempts[reference.attempt].state.Unknown?
         || EffectsUnresolved(View(), reference.attempt) {
        return;
      }
      var saved := View();
      var ok := true;
      if event.outcome.Completed? && event.output.Some? && !StoredOutput(View(), reference.attempt, event.output.value) {
        ok := Project(reference, AdapterEvent.AssistantMessage(message, event.output.value), ids);
      }
      if ok && reference.attempt in core.attempts {
        ok := Project(reference, event, ids);
      } else {
        ok := false;
      }
      if !ok {
        Rollback(saved);
      }
    }

    // ----- recovery.go -----

    method RecoverStartup()
      modifies this
      ensures View() == Restart(old(View()))
    {
      var saved := View();
      run := Volatile(None, map[], None);
      core := core.(actions := AbandonAll(core.actions));
      if state.slot.None? {
        return;
      }
      var attempt := state.slot.value;
      if attempt !in core.attempts || !IsLive(core.attempts[attempt].state) {
        Rollback(saved);
        return;
      }
      var ok := MarkUnknown(Reference(View(), attempt), Effects.Unknown);
      if !ok {
        Rollback(saved);
      }
    }

    // ----- any step -----

    // One step of the schedule, as the transaction or worker move that it is.
    method Take(step: Step)
      modifies this
      ensures View() == Next(old(View()), step)
    {
      hide SubmitCommand, InstallHold, ReleaseHold, DeleteLogicalDialog, Peek, DispatchCandidate, BlockPolicy, Claim, TakeGate, ReadDispatch;
      hide BeginCall, TakeAnswer, Settle, FinishAction, ReleaseGate, ObserveAdapterEvent, LoseStream, StoreArtifact, Reconcile, Restart;
      match step
      case Submit(id, command, drawn) => var _ := Submit(id, command, drawn);
      case Install(operation, request) => var _ := Install(operation, request);
      case Release(operation, request) => var _ := Release(operation, request);
      case Delete(operation, request) => var _ := Delete(operation, request);
      case PeekDispatch(request) => PeekAt(request);
      case DispatchNext(attempt, generation) => DispatchAs(attempt, generation);
      case Block => BlockOnPolicy();
      case ClaimAction(lane, action) => ClaimRow(lane, action);
      case Gate(action) => EnterGate(action);
      case Read(action, sound) => ReadSnapshot(action, sound);
      case Begin(action) => BeginAdapterCall(action);
      case Reply(action, answer) => TakeReply(action, answer);
      case Commit(action, commit) => SettleWorker(action, commit);
      case Finish(action, commit) => FinishWorker(action, commit);
      case Ungate => LeaveGate();
      case Observe(reference, event, ids) => Deliver(reference, event, ids);
      case StreamLost(reference) => LoseAttemptStream(reference);
      case Ingest(reference, artifact, call, size, ids) => IngestArtifact(reference, artifact, call, size, ids);
      case ReconcileStep(reference, event, message, ids) => ReconcileReport(reference, event, message, ids);
      case CrashAndRestart => RecoverStartup();
    }
  }
}
