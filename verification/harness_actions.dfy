// Dispatch and the action workers (harness/node/dispatch.go, actions.go, recovery.go). The adapter
// is called between transactions, so each worker is split where the code leaves the node lock.
module HarnessActions {
  import opened Common
  import opened HarnessState
  import opened HarnessObserve

  // ----- dispatch -----

  // first in the queue among the requests no hold covers
  predicate NextInQueue(s: State, request: Id) {
    && IsQueued(s, request)
    && !Held(s, s.core.requests[request].dialog)
    && forall r :: r in s.core.requests && IsQueued(s, r) && !Held(s, s.core.requests[r].dialog) ==>
         s.core.requests[request].queueSequence <= s.core.requests[r].queueSequence
  }

  // peekDispatch
  function Peek(s: State, request: Id): State {
    if s.node.queuePaused || s.node.slot.Some? || s.node.pendingCount == 0 || ExecutionUnknown in s.node.blocked
       || !NextInQueue(s, request) then s
    else
      var r := s.core.requests[request];
      s.(run := s.run.(peeked := Some(Candidate(request, r.dialog, r.message, r.queueSequence, s.node.stateVersion))))
  }

  // blockPolicy
  function BlockPolicy(s: State): State {
    if s.node.readiness.Blocked? && PolicyUnavailable in s.node.blocked then s
    else
      var s1 := Tick(s.(node := s.node.(readiness := Readiness.Blocked, blocked := AddReason(s.node.blocked, PolicyUnavailable))));
      EmitNode(s1)
  }

  // an attempt made for this input message, by any of its requests
  predicate AttemptOf(s: State, attempt: Id, message: Id) {
    attempt in s.core.attempts && s.core.attempts[attempt].request in s.core.requests && s.core.requests[s.core.attempts[attempt].request].message == message
  }

  // COALESCE(MAX(generation),0)+1
  predicate NextGeneration(s: State, message: Id, generation: int) {
    && (forall a :: a in s.core.attempts && AttemptOf(s, a, message) ==> s.core.attempts[a].generation < generation)
    && (generation == 1 || exists a :: a in s.core.attempts && AttemptOf(s, a, message) && s.core.attempts[a].generation == generation - 1)
  }

  // the committing half of DispatchNext, with the candidate peeked earlier
  function Dispatch(s: State, candidate: Candidate, attempt: Id, generation: int): Option<State> {
    var request := candidate.request;
    if s.node.stateVersion != candidate.stateVersion || s.node.queuePaused || s.node.slot.Some? || s.node.pendingCount == 0
       || !NextInQueue(s, request) then None
    else
      var r := s.core.requests[request];
      if r.dialog != candidate.dialog || r.message != candidate.message || r.queueSequence != candidate.queueSequence
         || attempt in s.core.attempts || OtherLive(s, attempt) || attempt in s.core.actions || r.message !in s.core.messages
         || !NextGeneration(s, r.message, generation) then None
      else
        var m := s.core.messages[r.message];
        var s1 := s.(core := s.core.(attempts := s.core.attempts[attempt := Attempt(r.dialog, request, generation, 1, AttemptState.Dispatching,
                                                               Effects.Nothing, false, 0)]));
        var s2 := SetRequest(s1, request, RequestStatus.Dispatching);
        var s3 := if m.disposition.Queued? then
                    Emit(s2.(core := s2.core.(messages := s2.core.messages[r.message :=
                               m.(version := m.version + 1, disposition := Disposition.Applied, attempt := Some(attempt))])),
                         DispositionChanged, r.message, m.version + 1, None, None, false)
                  else s2;
        var n := s3.node;
        var s4 := s3.(node := n.(pendingCount := n.pendingCount - 1, queueVersion := n.queueVersion + 1,
                                 stateVersion := n.stateVersion + 1, slot := Some(attempt), readiness := Readiness.Ready,
                                 occupancy := Occupancy.Active, blocked := RemoveReason(n.blocked, PolicyUnavailable)));
        var s5 := EmitNode(EmitQueue(Emit(s4, AttemptDispatching, attempt, 1, Some(attempt), Some(r.dialog), false)));
        Some(InsertAction(s5, attempt, ActionKind.DispatchStart, AttemptRef(r.dialog, request, attempt, generation), 0, 0, 0))
  }

  // DispatchNext after the policy snapshot was fetched without the lock
  function DispatchCandidate(s: State, attempt: Id, generation: int): State {
    if s.run.peeked.None? then s
    else
      var t := Else(Dispatch(s, s.run.peeked.value, attempt, generation), s);
      t.(run := t.run.(peeked := None))
  }

  // ----- claiming -----

  datatype Lane = StopLane | DispatchLane | ControlLane

  function LaneOf(kind: ActionKind): Lane {
    match kind
    case Stop => StopLane
    case DispatchStart => DispatchLane
    case _ => ControlLane
  }

  // the rows claimAction selects from: a held dialog's dispatch waits
  predicate Claimable(s: State, action: Id, lane: Lane) {
    && action in s.core.actions
    && s.core.actions[action].status.Pending?
    && LaneOf(s.core.actions[action].kind) == lane
    && (lane.DispatchLane? ==>
          s.core.actions[action].reference.attempt in s.core.attempts
          && !Held(s, s.core.attempts[s.core.actions[action].reference.attempt].dialog))
  }

  function SetAction(s: State, action: Id, status: ActionStatus): State
    requires action in s.core.actions
  {
    s.(core := s.core.(actions := s.core.actions[action := s.core.actions[action].(status := status)]))
  }

  function SetPhase(s: State, action: Id, phase: Phase): State {
    s.(run := s.run.(workers := s.run.workers[action := phase]))
  }

  // claimAction: the oldest row of the lane becomes inflight and gets a worker
  function Claim(s: State, lane: Lane, action: Id): State {
    if !Claimable(s, action, lane) || action in s.run.workers
       || exists c :: c in s.core.actions && Claimable(s, c, lane) && s.core.actions[c].row < s.core.actions[action].row then s
    else SetPhase(SetAction(s, action, ActionStatus.Inflight), action, Claimed)
  }

  predicate InPhase(s: State, action: Id, phase: Phase) {
    action in s.run.workers && action in s.core.actions && s.run.workers[action] == phase
  }

  // ----- performDispatch up to the adapter's answer -----

  function TakeGate(s: State, action: Id): State {
    if InPhase(s, action, Claimed) && s.core.actions[action].kind.DispatchStart? && s.run.gate.None?
    then var t := SetPhase(s, action, Gated); t.(run := t.run.(gate := Some(action)))
    else s
  }

  predicate HasEnded(s: State, attempt: Id) {
    exists a :: a in s.core.attempts && a != attempt && attempt in s.core.attempts
      && s.core.attempts[a].dialog == s.core.attempts[attempt].dialog && IsTerminal(s.core.attempts[a].state)
  }

  // the read under mu: the attempt must still be dispatching and its policy snapshot sound
  function ReadDispatch(s: State, action: Id, policySound: bool): State {
    if !InPhase(s, action, Gated) then s
    else
      var attempt := s.core.actions[action].reference.attempt;
      if attempt in s.core.attempts && s.core.attempts[attempt].state.Dispatching? && policySound
      then SetPhase(s, action, Phase.Ready(HasEnded(s, attempt)))
      else SetPhase(s, action, Answered(Answer.Error))
  }

  // Adapter.Start or Adapter.Resume begins
  function BeginCall(s: State, action: Id): State {
    if action in s.run.workers && s.run.workers[action].Ready? then SetPhase(s, action, Calling(s.run.workers[action].resume)) else s
  }

  // the adapter answers; only dispatch calls were split into a begin and an end
  function TakeAnswer(s: State, action: Id, answer: Answer): State {
    if action in s.run.workers && action in s.core.actions
       && (s.run.workers[action].Calling? || (s.run.workers[action].Claimed? && !s.core.actions[action].kind.DispatchStart?))
    then SetPhase(s, action, Answered(answer))
    else s
  }

  // ----- what each answer commits -----

  // markStarted
  function MarkStarted(s: State, reference: AttemptRef): Option<State> {
    if s.node.slot != Some(reference.attempt) || reference.attempt !in s.core.attempts
       || !s.core.attempts[reference.attempt].state.Dispatching? then None
    else
      var a := s.core.attempts[reference.attempt];
      var s1 := s.(core := s.core.(attempts := s.core.attempts[reference.attempt := a.(version := a.version + 1, state := AttemptState.Running, started := true)]));
      var s2 := SetRequest(s1, reference.request, RequestStatus.Active);
      match Record(s2, reference, AttemptStarted, reference.attempt, a.version + 1, Key.Started, OfEvent(AdapterEvent.Started))
      case None => None
      case Some(s3) => Some(EmitNode(s3))
  }

  function SteerDisposition(answer: Answer): Disposition {
    match answer
    case Accepted => Disposition.Applied
    case Fallback => Disposition.Queued
    case Rejected => Disposition.Queued
    case _ => Disposition.Unknown
  }

  // the request and the message of a steer whose answer is known
  function SteerRows(s: State, message: Id, to: Disposition): State
    requires message in s.core.messages && s.core.messages[message].request.Some?
  {
    var m := s.core.messages[message];
    var s1 := if to.Queued? then s
              else SetRequest(s, m.request.value, if to.Applied? then RequestStatus.Completed else RequestStatus.Unknown)
                   .(node := s.node.(pendingCount := s.node.pendingCount - 1));
    var s2 := SetDisposition(s1, message, to);
    var s3 := s2.(node := s2.node.(queueVersion := s2.node.queueVersion + 1, stateVersion := s2.node.stateVersion + 1));
    Emit(s3, DispositionChanged, message, m.version + 1, None, None, false)
  }

  // finishSteer
  function FinishSteer(s: State, reference: AttemptRef, message: Id, answer: Answer): Option<State> {
    if message !in s.core.messages || !s.core.messages[message].disposition.SteerPending?
       || s.core.messages[message].request.None? then None
    else
      var to := SteerDisposition(answer);
      var s1 := SteerRows(s, message, to);
      if to.Unknown? then
        match SetAttemptUnknown(s1, reference, Effects.Unknown)
        case None => None
        case Some(s2) => Some(EmitQueue(s2))
      else Some(EmitQueue(s1))
  }

  function AnswerRow(answer: Answer): AnswerStatus {
    match answer
    case Accepted => AnswerStatus.Resolved
    case Rejected => AnswerStatus.Pending
    case _ => AnswerStatus.Unknown
  }

  // the approval or input row, unless it moved on to another version
  function AnswerRows(s: State, action: Action, status: AnswerStatus): State {
    if action.kind.Approval? then
      if action.subject in s.rows.approvals && s.rows.approvals[action.subject].version == action.subjectVersion then
        s.(rows := s.rows.(approvals := s.rows.approvals[action.subject := s.rows.approvals[action.subject].(status := status)]))
      else s
    else if action.subject in s.rows.inputs && s.rows.inputs[action.subject].version == action.subjectVersion then
      s.(rows := s.rows.(inputs := s.rows.inputs[action.subject := s.rows.inputs[action.subject].(status := status)]))
    else s
  }

  // finishApproval and finishInput: an unknown answer marks the attempt whoever holds the slot
  function FinishResponse(s: State, action: Action, answer: Answer): Option<State> {
    var status := AnswerRow(answer);
    var s1 := AnswerRows(s, action, status);
    if status.Resolved? then
      Some(Emit(s1, if action.kind.Approval? then ApprovalResolved else InputResolved, action.subject, action.subjectVersion,
                Some(action.reference.attempt), Some(action.reference.dialog), false))
    else if status.Unknown? then SetAttemptUnknown(s1, action.reference, Effects.Unknown)
    else Some(s1)
  }

  function AnswerStatusOf(answer: Answer): ActionStatus {
    match answer
    case Accepted => ActionStatus.Acknowledged
    case Fallback => ActionStatus.Acknowledged
    case Rejected => ActionStatus.Rejected
    case _ => ActionStatus.Unknown
  }

  function Else(r: Option<State>, s: State): State {
    if r.Some? then r.value else s
  }

  // An outcome the action does not declare is handled as an adapter protocol fault.
  predicate Declared(kind: ActionKind, answer: Answer) {
    !answer.Undeclared? && (answer.Fallback? ==> kind.Steer?)
  }

  // The transaction a worker runs for its answer, and the phase it goes to. Without commit the
  // transaction fails and rolls back, and the worker goes on: the code ignores that error. A
  // protocol fault of a control commits twice, first the unknown attempt and then the answer.
  function SettleAction(s: State, id: Id, answer: Answer, commit: bool): (State, Phase)
    requires id in s.core.actions
  {
    var action := s.core.actions[id];
    var mark := if commit then MarkAttemptUnknown(s, action.reference) else s;
    match action.kind
    case DispatchStart =>
      if answer.Accepted? then
        if commit && MarkStarted(s, action.reference).Some?
        then (MarkStarted(s, action.reference).value, Finishing(ActionStatus.Acknowledged))
        else (s, Answered(Answer.Error))
      else if answer.Rejected? then
        (if commit then ObserveRejected(s, action.reference.attempt, action.reference.generation) else s,
         Finishing(ActionStatus.Rejected))
      else (mark, Finishing(ActionStatus.Unknown))
    case Stop =>
      if answer.Accepted? then (s, Finishing(ActionStatus.Acknowledged))
      else if answer.Rejected? then (s, Finishing(ActionStatus.Rejected))
      else (mark, Finishing(ActionStatus.Unknown))
    case Steer =>
      if !Declared(ActionKind.Steer, answer) then (mark, Answered(Answer.Uncertain))
      else (if commit then Else(FinishSteer(s, action.reference, action.message, answer), s) else s,
            Finishing(AnswerStatusOf(answer)))
    case _ =>
      if !Declared(action.kind, answer) then (mark, Answered(Answer.Uncertain))
      else (if commit then Else(FinishResponse(s, action, answer), s) else s, Finishing(AnswerStatusOf(answer)))
  }

  function Settle(s: State, id: Id, commit: bool): State {
    if id in s.run.workers && id in s.core.actions && s.run.workers[id].Answered? then
      var (t, phase) := SettleAction(s, id, s.run.workers[id].answer, commit);
      SetPhase(t, id, phase)
    else s
  }

  // finishAction: without commit its UPDATE fails, an error the code drops, and the row stays inflight. The
  // worker of a dispatch still holds the gate afterwards.
  function FinishAction(s: State, id: Id, commit: bool): State {
    if id in s.run.workers && id in s.core.actions && s.run.workers[id].Finishing? then
      var s1 := if commit && s.core.actions[id].status.Inflight? then SetAction(s, id, s.run.workers[id].status) else s;
      s1.(run := s1.run.(workers := s1.run.workers - {id}))
    else s
  }

  function ReleaseGate(s: State): State {
    if s.run.gate.Some? && s.run.gate.value !in s.run.workers then s.(run := s.run.(gate := None)) else s
  }

  // ----- restart -----

  // pending and inflight rows: their answer can no longer arrive
  function Abandoned(action: Action): Action {
    if action.status.Pending? || action.status.Inflight? then action.(status := ActionStatus.Unknown) else action
  }

  function AbandonAll(actions: map<Id, Action>): map<Id, Action> {
    map c | c in actions :: Abandoned(actions[c])
  }

  // recoverStartup after a crash: every worker is gone; an error leaves the node down and the store as it was
  function Restart(s: State): State {
    var s1 := s.(core := s.core.(actions := AbandonAll(s.core.actions)), run := s.run.(workers := map[], gate := None, peeked := None));
    if s.node.slot.None? then s1
    else if s.node.slot.value !in s.core.attempts || !IsLive(s.core.attempts[s.node.slot.value].state) then s
    else Else(SetAttemptUnknown(s1, Reference(s1, s.node.slot.value), Effects.Unknown), s)
  }
}
