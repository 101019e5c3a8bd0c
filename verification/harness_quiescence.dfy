// Holds over whole runs: no start call under a hold, and a proved quiescence lasts until release.
module HarnessQuiescence {
  import opened Common
  import opened HarnessState
  import opened HarnessObserve
  import opened HarnessFrame
  import opened HarnessAdmission
  import opened HarnessHold
  import opened HarnessActions
  import opened HarnessStep
  import opened HarnessInvariant
  import opened HarnessHoldHistory

  // ----- no start call under a hold -----

  // A start or resume call is in progress, or about to be made, only for a dialog no hold covers,
  // and no hold can be installed meanwhile.
  lemma NoStartUnderHold(registryVersion: int, steps: seq<Step>, c: Id)
    requires var s := Run(Init(registryVersion), steps);
      c in s.run.workers && (s.run.workers[c].Ready? || s.run.workers[c].Calling?)
    ensures var s := Run(Init(registryVersion), steps);
      && c in s.core.attempts
      && !Held(s, s.core.attempts[c].dialog)
      && forall operation, request :: InstallHold(s, operation, request) == (s, GateBusy)
  {
    hide Init, Next, Run;
    RunKeepsBase(registryVersion, steps);
    var s := Run(Init(registryVersion), steps);
    assert ActionOk(s, c);
  }

  // ----- a scope closed to admission -----

  ghost predicate Sealed(s: State, scope: Scope) {
    match scope
    case WholeNode => NodeHeld(s)
    case OneDialog(d) => Held(s, d) || (d in s.admin.tombstones && !exists r :: IsQueued(s, r) && s.core.requests[r].dialog == d)
  }

  // Nothing of the scope changes, apart from byte counts, archived reports and cancelled requests.
  ghost predicate Apart(s: State, t: State, scope: Scope) {
    ApartAttempts(s, t, scope) && ApartRequests(s, t, scope) && ApartActions(s, t, scope) && ApartRows(s, t, scope) && ApartLog(s, t, scope)
  }

  ghost predicate ApartAttempts(s: State, t: State, scope: Scope) {
    && (forall a :: a in s.core.attempts ==> a in t.core.attempts && t.core.attempts[a].dialog == s.core.attempts[a].dialog)
    && (forall a :: a in t.core.attempts && Covers(scope, t.core.attempts[a].dialog) ==>
          a in s.core.attempts && t.core.attempts[a] == s.core.attempts[a].(outputBytes := t.core.attempts[a].outputBytes))
  }

  ghost predicate ApartRequests(s: State, t: State, scope: Scope) {
    forall r :: r in t.core.requests && Covers(scope, t.core.requests[r].dialog) ==>
      r in s.core.requests && (t.core.requests[r] == s.core.requests[r] || CancelledFrom(s.core.requests[r], t.core.requests[r]))
  }

  ghost predicate ApartActions(s: State, t: State, scope: Scope) {
    forall c :: c in t.core.actions && InScope(t, t.core.actions[c].reference.attempt, scope) ==>
      c in s.core.actions && t.core.actions[c] == s.core.actions[c]
  }

  ghost predicate ApartRows(s: State, t: State, scope: Scope) {
    && (forall x :: x in t.rows.tools && InScope(t, t.rows.tools[x].attempt, scope) ==>
          x in s.rows.tools && t.rows.tools[x] == s.rows.tools[x])
    && (forall x :: x in t.rows.approvals && InScope(t, t.rows.approvals[x].attempt, scope) ==>
          x in s.rows.approvals && t.rows.approvals[x] == s.rows.approvals[x])
    && (forall x :: x in t.rows.inputs && InScope(t, t.rows.inputs[x].attempt, scope) ==>
          x in s.rows.inputs && t.rows.inputs[x] == s.rows.inputs[x])
  }

  ghost predicate ApartLog(s: State, t: State, scope: Scope) {
    forall k :: k in t.log.projected && InScope(t, k.0, scope) && k.1.ToolCompleted? ==>
      k in s.log.projected && t.log.projected[k] == s.log.projected[k]
  }

  predicate CancelledFrom(before: Request, after: Request) {
    before.status.Queued? && after == before.(version := before.version + 1, status := RequestStatus.Cancelled)
  }

  lemma ApartKeepsParked(s: State, t: State, scope: Scope)
    requires Parked(s, scope) && Apart(s, t, scope)
    ensures Parked(t, scope) && ParkedRequests(t, scope) <= ParkedRequests(s, scope)
  {
    forall c | c in t.core.actions && InScope(t, t.core.actions[c].reference.attempt, scope)
      ensures !Owed(t.core.actions[c].status)
    {
      assert c in s.core.actions && InScope(s, s.core.actions[c].reference.attempt, scope);
    }
    forall k | k in t.log.projected && InScope(t, k.0, scope) ensures !EffectUnproved(t, k) {
      if k.1.ToolCompleted? {
        assert k in s.log.projected && InScope(s, k.0, scope) && !EffectUnproved(s, k);
      }
    }
    forall r | r in ParkedRequests(t, scope) ensures r in ParkedRequests(s, scope) {
      assert r in t.core.requests && Covers(scope, t.core.requests[r].dialog);
    }
  }

  // an attempt of the scope is settled, so no control action of it is under way
  lemma ParkedIsIdle(s: State, scope: Scope)
    requires Base(s) && Parked(s, scope)
    ensures forall c :: c in s.run.workers ==> !InScope(s, s.core.actions[c].reference.attempt, scope)
    ensures s.node.slot.Some? ==> !InScope(s, s.node.slot.value, scope)
  {
  }

  lemma ObservedIsApart(s: State, t: State, a: Id, q: Id, scope: Scope)
    requires Base(s) && Parked(s, scope) && Observed(s, t, a, q)
    requires q in s.core.requests && s.core.requests[q].dialog == s.core.attempts[a].dialog
    ensures Apart(s, t, scope)
  {
    hide Base, Parked;
    assert !InScope(s, a, scope) || Quiet(s, t, a) by {
      ParkedIsIdle(s, scope);
    }
    TouchIsApart(s, t, a, q, scope);
    TouchRowsIsApart(s, t, a, scope);
  }

  lemma TouchIsApart(s: State, t: State, a: Id, q: Id, scope: Scope)
    requires a in s.core.attempts && TouchAttempts(s, t, a) && TouchRequests(s, t, q) && TouchActions(s, t, a)
    requires !InScope(s, a, scope) || Quiet(s, t, a)
    requires q in s.core.requests && s.core.requests[q].dialog == s.core.attempts[a].dialog
    ensures ApartAttempts(s, t, scope) && ApartRequests(s, t, scope) && ApartActions(s, t, scope)
  {
  }

  lemma TouchRowsIsApart(s: State, t: State, a: Id, scope: Scope)
    requires a in s.core.attempts && TouchAttempts(s, t, a) && TouchRows(s, t, a) && TouchLog(s, t, a)
    requires !InScope(s, a, scope) || Quiet(s, t, a)
    ensures ApartRows(s, t, scope) && ApartLog(s, t, scope)
  {
  }

  // ----- the same, step by step -----

  lemma SealedDialog(s: State, scope: Scope, d: Id)
    requires Sealed(s, scope) && Covers(scope, d)
    ensures Held(s, d) || d in s.admin.tombstones
  {
    if scope.WholeNode? {
      var op :| op in s.admin.holds && op !in s.admin.holdOutcomes && s.admin.holds[op].scope.WholeNode?;
      assert Covers(s.admin.holds[op].scope, d);
    }
  }

  // the tables the scope speaks of, as one value
  lemma SameIsApart(s: State, t: State, scope: Scope)
    requires t.core == s.core && t.rows == s.rows && t.log.projected == s.log.projected
    ensures Apart(s, t, scope)
  {
  }

  lemma CommandIsApart(s: State, id: Id, command: Command, drawn: Drawn, t: State, scope: Scope)
    requires Base(s) && Parked(s, scope) && Sealed(s, scope)
    requires Authorized(s, command) && !CoveredByHold(s, command) && ApplyCommand(s, id, command, drawn) == Some(t)
    ensures Apart(s, t, scope)
  {
    hide Base, Parked, Sealed, Apart;
    hide ApplyMessageEnqueue, ApplyRequestCancel, ApplyAttemptStop, ApplyAttemptRetry, ApplyMessageSteer, ApplyApproval, ApplyInput;
    match command
    case CreateDialog(_) => SameIsApart(s, t, scope);
    case DeleteDialog(_, _) =>
    case ResumeQueue(_) => SameIsApart(s, t, scope);
    case EnqueueMessage(d, v, _) => EnqueueIsApart(s, d, v, drawn, t, scope);
    case CancelRequest(r, v) => CancelIsApart(s, r, v, t, scope);
    case StopAttempt(a, g) => StopIsApart(s, id, a, g, t, scope);
    case RetryAttempt(a, g, ack) => RetryIsApart(s, a, g, ack, drawn.first, t, scope);
    case SteerMessage(d, a, m, g, v) => SteerIsApart(s, id, d, a, m, g, v, t, scope);
    case RespondApproval(p, a, v, g, h, _) => ApprovalIsApart(s, id, p, a, v, g, h, t, scope);
    case RespondInput(i, a, v, g, _) => InputIsApart(s, id, i, a, v, g, drawn.first, t, scope);
  }

  lemma EnqueueIsApart(s: State, d: Id, v: int, drawn: Drawn, t: State, scope: Scope)
    requires Base(s) && Sealed(s, scope) && Visible(s, d) && !Held(s, d) && ApplyMessageEnqueue(s, d, v, drawn) == Some(t)
    ensures Apart(s, t, scope)
  {
    if Covers(scope, d) {
      SealedDialog(s, scope, d);
    }
  }

  lemma CancelIsApart(s: State, r: Id, v: int, t: State, scope: Scope)
    requires ApplyRequestCancel(s, r, v) == Some(t)
    ensures Apart(s, t, scope)
  {
  }

  lemma StopIsApart(s: State, c: Id, a: Id, g: int, t: State, scope: Scope)
    requires Base(s) && Parked(s, scope) && ApplyAttemptStop(s, c, a, g) == Some(t)
    ensures Apart(s, t, scope)
  {
    hide Base, Parked;
    ParkedIsIdle(s, scope);
  }

  lemma RetryIsApart(s: State, a: Id, g: int, acknowledge: bool, request: Id, t: State, scope: Scope)
    requires Base(s) && Sealed(s, scope) && a in s.core.attempts && Visible(s, s.core.attempts[a].dialog) && !Held(s, s.core.attempts[a].dialog)
    requires ApplyAttemptRetry(s, a, g, acknowledge, request) == Some(t)
    ensures Apart(s, t, scope)
  {
    if Covers(scope, s.core.attempts[a].dialog) {
      SealedDialog(s, scope, s.core.attempts[a].dialog);
    }
  }

  lemma SteerIsApart(s: State, c: Id, d: Id, a: Id, m: Id, g: int, v: int, t: State, scope: Scope)
    requires Base(s) && Parked(s, scope) && ApplyMessageSteer(s, c, d, a, m, g, v) == Some(t)
    ensures Apart(s, t, scope)
  {
    hide Base, Parked;
    ParkedIsIdle(s, scope);
  }

  lemma ApprovalIsApart(s: State, c: Id, p: Id, a: Id, v: int, g: int, h: Id, t: State, scope: Scope)
    requires Base(s) && Parked(s, scope) && ApplyApproval(s, c, p, a, v, g, h) == Some(t)
    ensures Apart(s, t, scope)
  {
    assert !InScope(s, a, scope);
  }

  lemma InputIsApart(s: State, c: Id, i: Id, a: Id, v: int, g: int, m: Id, t: State, scope: Scope)
    requires Base(s) && Parked(s, scope) && ApplyInput(s, c, i, a, v, g, m) == Some(t)
    ensures Apart(s, t, scope)
  {
    assert !InScope(s, a, scope);
  }

  lemma DispatchIsApart(s: State, candidate: Candidate, attempt: Id, generation: int, t: State, scope: Scope)
    requires Base(s) && Sealed(s, scope) && Dispatch(s, candidate, attempt, generation) == Some(t)
    ensures Apart(s, t, scope)
  {
    var d := s.core.requests[candidate.request].dialog;
    if Covers(scope, d) {
      SealedDialog(s, scope, d);
    }
  }

  // claiming and finishing change the status of an action that is owed, so not one of the scope
  lemma StatusIsApart(s: State, t: State, action: Id, scope: Scope)
    requires action in s.core.actions && !InScope(s, s.core.actions[action].reference.attempt, scope)
    requires exists status :: t.core == SetAction(s, action, status).core
    requires t.rows == s.rows && t.log == s.log
    ensures Apart(s, t, scope)
  {
  }

  lemma SettleIsApart(s: State, id: Id, commit: bool, scope: Scope)
    requires Base(s) && Parked(s, scope)
    ensures Apart(s, Settle(s, id, commit), scope)
  {
    hide Parked, Observed, MarkStarted, FinishSteer, FinishResponse, MarkAttemptUnknown, ObserveRejected, Apart;
    if id in s.run.workers && id in s.core.actions && s.run.workers[id].Answered? {
      var action := s.core.actions[id];
      var answer := s.run.workers[id].answer;
      var (t, phase) := SettleAction(s, id, answer, commit);
      assert ActionOk(s, id);
      ParkedIsIdle(s, scope);
      if t == s {
        SameIsApart(s, Settle(s, id, commit), scope);
      } else if action.kind.DispatchStart? && answer.Accepted? {
        StartedIsApart(s, action.reference, t, scope);
      } else {
        SettledIsApart(s, id, answer, t, phase, scope);
      }
      PhaseIsApart(s, t, id, phase, scope);
    } else {
      SameIsApart(s, s, scope);
    }
  }

  lemma PhaseIsApart(s: State, t: State, id: Id, phase: Phase, scope: Scope)
    requires Apart(s, t, scope) || t == s
    ensures Apart(s, SetPhase(t, id, phase), scope)
  {
  }

  lemma StartedIsApart(s: State, reference: AttemptRef, t: State, scope: Scope)
    requires Base(s) && MarkStarted(s, reference) == Some(t) && !InScope(s, reference.attempt, scope)
    requires reference.request == s.core.attempts[reference.attempt].request
    ensures Apart(s, t, scope)
  {
    assert AttemptOk(s, reference.attempt);
  }

  lemma SettledIsApart(s: State, id: Id, answer: Answer, t: State, phase: Phase, scope: Scope)
    requires Base(s) && Parked(s, scope) && id in s.run.workers && id in s.core.actions && s.run.workers[id].Answered?
    requires SettleAction(s, id, answer, true) == (t, phase)
    requires !(s.core.actions[id].kind.DispatchStart? && answer.Accepted?)
    requires !InScope(s, s.core.actions[id].reference.attempt, scope)
    ensures Apart(s, t, scope)
  {
    hide Observed, Parked;
    var action := s.core.actions[id];
    var reference := action.reference;
    assert ActionOk(s, id) && AttemptOk(s, reference.attempt);
    if t == s {
    } else if action.kind.DispatchStart? && answer.Rejected? {
      assert StartAhead(s, id);
      RejectionObserved(s, reference);
      ObservedIsApart(s, t, reference.attempt, reference.request, scope);
    } else if t == MarkAttemptUnknown(s, reference) {
      MarkObserved(s, reference);
      ObservedIsApart(s, t, reference.attempt, reference.request, scope);
    } else if action.kind.Steer? {
      SteeredIsApart(s, reference, action.message, answer, t, scope);
    } else {
      ResponseIsApart(s, action, answer, t, scope);
    }
  }

  lemma SteeredIsApart(s: State, reference: AttemptRef, message: Id, answer: Answer, t: State, scope: Scope)
    requires Base(s) && FinishSteer(s, reference, message, answer) == Some(t)
    requires !Covers(scope, reference.dialog) && reference.attempt in s.core.attempts && s.core.attempts[reference.attempt].dialog == reference.dialog
    requires s.core.messages[message].request == Some(reference.request)
    requires reference.request in s.core.requests && s.core.requests[reference.request].dialog == reference.dialog
    ensures Apart(s, t, scope)
  {
    hide Base;
  }

  lemma ResponseIsApart(s: State, action: Action, answer: Answer, t: State, scope: Scope)
    requires Base(s) && FinishResponse(s, action, answer) == Some(t) && action.reference.attempt in s.core.attempts
    requires action.reference.request in s.core.requests
    requires s.core.requests[action.reference.request].dialog == s.core.attempts[action.reference.attempt].dialog
    requires !InScope(s, action.reference.attempt, scope)
    requires action.kind.Approval? ==>
               action.subject in s.rows.approvals && s.rows.approvals[action.subject].attempt == action.reference.attempt
    requires !action.kind.Approval? ==>
               action.subject in s.rows.inputs && s.rows.inputs[action.subject].attempt == action.reference.attempt
    ensures Apart(s, t, scope)
  {
    hide Base, Apart, SetAttemptUnknown, AnswerRows;
    var s1 := AnswerRows(s, action, AnswerRow(answer));
    AnswerRowsApart(s, action, AnswerRow(answer), scope);
    if AnswerRow(answer).Unknown? {
      UnknownIsApart(s1, action.reference, t, scope);
      ApartThenApart(s, s1, t, scope);
    } else {
      ApartIgnoresEvents(s, s1, t, scope);
    }
  }

  lemma AnswerRowsApart(s: State, action: Action, status: AnswerStatus, scope: Scope)
    requires !InScope(s, action.reference.attempt, scope)
    requires action.kind.Approval? ==>
               action.subject in s.rows.approvals && s.rows.approvals[action.subject].attempt == action.reference.attempt
    requires !action.kind.Approval? ==>
               action.subject in s.rows.inputs && s.rows.inputs[action.subject].attempt == action.reference.attempt
    ensures Apart(s, AnswerRows(s, action, status), scope)
    ensures AnswerRows(s, action, status).core == s.core
  {
  }

  lemma ApartIgnoresEvents(s: State, t: State, u: State, scope: Scope)
    requires Apart(s, t, scope)
    requires u.core == t.core && u.rows == t.rows && u.log.projected == t.log.projected
    ensures Apart(s, u, scope)
  {
  }

  lemma RestartIsApart(s: State, scope: Scope)
    requires Base(s) && Parked(s, scope)
    ensures Apart(s, Restart(s), scope)
  {
    hide Base, Parked, SetAttemptUnknown;
    ParkedIsIdle(s, scope);
    var s1 := s.(core := s.core.(actions := AbandonAll(s.core.actions)), run := s.run.(workers := map[], gate := None, peeked := None));
    AbandonIsApart(s, s1, scope);
    if s.node.slot.Some? && Restart(s) != s {
      var reference := Reference(s1, s.node.slot.value);
      var r := SetAttemptUnknown(s1, reference, Effects.Unknown);
      if r.Some? {
        AttemptRequestDialog(s, s.node.slot.value);
        UnknownIsApart(s1, reference, r.value, scope);
        ApartThenApart(s, s1, r.value, scope);
      }
    }
  }

  lemma AttemptRequestDialog(s: State, a: Id)
    requires Base(s) && a in s.core.attempts
    ensures s.core.attempts[a].request in s.core.requests
    ensures s.core.requests[s.core.attempts[a].request].dialog == s.core.attempts[a].dialog
  {
    assert AttemptOk(s, a);
  }

  lemma AbandonIsApart(s: State, t: State, scope: Scope)
    requires Parked(s, scope)
    requires t.core == s.core.(actions := AbandonAll(s.core.actions)) && t.rows == s.rows && t.log == s.log
    ensures Apart(s, t, scope)
  {
  }

  lemma UnknownIsApart(s: State, reference: AttemptRef, t: State, scope: Scope)
    requires SetAttemptUnknown(s, reference, Effects.Unknown) == Some(t) && !InScope(s, reference.attempt, scope)
    requires reference.request in s.core.requests && s.core.requests[reference.request].dialog == s.core.attempts[reference.attempt].dialog
    ensures Apart(s, t, scope)
  {
  }

  lemma ApartThenApart(s: State, t: State, u: State, scope: Scope)
    requires Apart(s, t, scope) && Apart(t, u, scope) && t.core.requests == s.core.requests
    ensures Apart(s, u, scope)
  {
  }

  // ----- the theorem -----

  // While a scope is sealed and quiet, no step of any kind disturbs it.
  lemma NextIsApart(s: State, step: Step, scope: Scope)
    requires Base(s) && Parked(s, scope) && Sealed(s, scope)
    ensures Apart(s, Next(s, step), scope)
  {
    hide Base, Parked, Sealed, Apart, Observed, SubmitCommand, InstallHold, ReleaseHold, DeleteLogicalDialog, Peek, DispatchCandidate;
    hide BlockPolicy, Claim, TakeGate, ReadDispatch, BeginCall, TakeAnswer, Settle, FinishAction, ReleaseGate, ObserveAdapterEvent;
    hide LoseStream, StoreArtifact, Reconcile, Restart;
    match step
    case Submit(id, command, drawn) => SubmitIsApart(s, id, command, drawn, scope);
    case DispatchNext(attempt, generation) => CandidateIsApart(s, attempt, generation, scope);
    case ClaimAction(lane, action) => ClaimIsApart(s, lane, action, scope);
    case Commit(action, commit) => SettleIsApart(s, action, commit, scope);
    case Finish(action, commit) => FinishIsApart(s, action, commit, scope);
    case CrashAndRestart => RestartIsApart(s, scope);
    case _ =>
      if Observing(step) {
        ObservingIsApart(s, step, scope);
      } else {
        StillIsApart(s, step, scope);
      }
  }

  lemma StillIsApart(s: State, step: Step, scope: Scope)
    requires Still(step)
    ensures Apart(s, Next(s, step), scope)
  {
    hide Apart;
    StillTables(s, step);
    SameIsApart(s, Next(s, step), scope);
  }

  lemma SubmitIsApart(s: State, id: Id, command: Command, drawn: Drawn, scope: Scope)
    requires Base(s) && Parked(s, scope) && Sealed(s, scope)
    ensures Apart(s, SubmitCommand(s, id, command, drawn).0, scope)
  {
    hide Base, Parked, Sealed, Apart, ApplyCommand, Authorized, CoveredByHold;
    var (t, reply) := SubmitCommand(s, id, command, drawn);
    if reply.Admitted? {
      var r := ApplyCommand(s, id, command, drawn).value;
      CommandIsApart(s, id, command, drawn, r, scope);
      AdminIsApart(s, r, t, scope);
    } else {
      SameIsApart(s, t, scope);
    }
  }

  lemma AdminIsApart(s: State, t: State, u: State, scope: Scope)
    requires Apart(s, t, scope) && u.core == t.core && u.rows == t.rows && u.log == t.log
    ensures Apart(s, u, scope)
  {
  }

  lemma CandidateIsApart(s: State, attempt: Id, generation: int, scope: Scope)
    requires Base(s) && Sealed(s, scope)
    ensures Apart(s, DispatchCandidate(s, attempt, generation), scope)
  {
    hide Base, Sealed, Apart, Dispatch;
    if s.run.peeked.Some? {
      var r := Dispatch(s, s.run.peeked.value, attempt, generation);
      if r.Some? {
        DispatchIsApart(s, s.run.peeked.value, attempt, generation, r.value, scope);
        AdminIsApart(s, r.value, DispatchCandidate(s, attempt, generation), scope);
      } else {
        SameIsApart(s, DispatchCandidate(s, attempt, generation), scope);
      }
    } else {
      SameIsApart(s, s, scope);
    }
  }

  lemma ClaimIsApart(s: State, lane: Lane, action: Id, scope: Scope)
    requires Base(s) && Parked(s, scope)
    ensures Apart(s, Claim(s, lane, action), scope)
  {
    hide Base, Apart;
    var t := Claim(s, lane, action);
    if t == s {
      SameIsApart(s, t, scope);
    } else {
      assert Claimable(s, action, lane);
      StatusIsApart(s, t, action, scope);
    }
  }

  lemma FinishIsApart(s: State, id: Id, commit: bool, scope: Scope)
    requires Base(s) && Parked(s, scope)
    ensures Apart(s, FinishAction(s, id, commit), scope)
  {
    hide Apart;
    var t := FinishAction(s, id, commit);
    if t == s {
      SameIsApart(s, t, scope);
    } else {
      ParkedIsIdle(s, scope);
      FinishSetsStatus(s, id, commit);
      StatusIsApart(s, t, id, scope);
    }
  }

  lemma ObservingIsApart(s: State, step: Step, scope: Scope)
    requires Base(s) && Parked(s, scope) && Observing(step)
    ensures Apart(s, Next(s, step), scope)
  {
    hide Base, Parked, Observed, Next, Apart;
    ObservingStep(s, step);
    if Next(s, step) == s {
      SameIsApart(s, s, scope);
    } else {
      AttemptRequestDialog(s, step.reference.attempt);
      ObservedIsApart(s, Next(s, step), step.reference.attempt, step.reference.request, scope);
    }
  }

  // ----- quiescence lasts until release -----

  lemma HoldSeals(s: State, operation: Id)
    requires Holds(s, operation)
    ensures Sealed(s, s.admin.holds[operation].scope)
  {
    var scope := s.admin.holds[operation].scope;
    if scope.OneDialog? {
      assert Covers(s.admin.holds[operation].scope, scope.dialog);
    }
  }

  lemma NextKeepsQuiescence(s: State, step: Step, operation: Id)
    requires Base(s) && HoldsOk(s) && QuiescenceProved(s, operation) && Holds(Next(s, step), operation)
    ensures var t := Next(s, step); var scope := s.admin.holds[operation].scope;
      && QuiescenceProved(t, operation) && t.admin.holds[operation] == s.admin.holds[operation]
      && ParkedRequests(t, scope) <= ParkedRequests(s, scope)
  {
    hide Base, Next, Sealed, Apart, Parked, Disjoint;
    var scope := s.admin.holds[operation].scope;
    HoldSeals(s, operation);
    NextIsApart(s, step, scope);
    ApartKeepsParked(s, Next(s, step), scope);
    HoldsEndOnce(s, step, operation);
    NextKeepsRules(s, step);
  }

  // Once the quiescence of an active hold is proved, it stays proved until that hold is released, and
  // the set of parked requests can only shrink.
  lemma {:induction false} QuiescenceLasts(registryVersion: int, steps: seq<Step>, later: seq<Step>, operation: Id)
    requires QuiescenceProved(Run(Init(registryVersion), steps), operation)
    requires Holds(Run(Init(registryVersion), steps + later), operation)
    ensures var s := Run(Init(registryVersion), steps); var u := Run(Init(registryVersion), steps + later);
      && QuiescenceProved(u, operation) && u.admin.holds[operation] == s.admin.holds[operation]
      && ParkedRequests(u, s.admin.holds[operation].scope) <= ParkedRequests(s, s.admin.holds[operation].scope)
  {
    hide Init, Next, Base, HoldsOk, Parked;
    if later == [] {
      assert steps + later == steps;
    } else {
      var shorter := later[..|later| - 1];
      var all := steps + later;
      assert all[..|all| - 1] == steps + shorter && all[|all| - 1] == later[|later| - 1];
      var t := Run(Init(registryVersion), steps + shorter);
      HeldSince(registryVersion, steps, shorter, operation);
      HoldsEndOnce(t, later[|later| - 1], operation);
      QuiescenceLasts(registryVersion, steps, shorter, operation);
      RunKeepsBase(registryVersion, steps + shorter);
      RunKeepsRules(registryVersion, steps + shorter);
      NextKeepsQuiescence(t, later[|later| - 1], operation);
    }
  }

  // the row of a hold never goes away
  lemma {:induction false} HeldSince(registryVersion: int, steps: seq<Step>, later: seq<Step>, operation: Id)
    requires operation in Run(Init(registryVersion), steps).admin.holds
    ensures operation in Run(Init(registryVersion), steps + later).admin.holds
  {
    hide Init, Next;
    if later == [] {
      assert steps + later == steps;
    } else {
      var shorter := later[..|later| - 1];
      var all := steps + later;
      assert all[..|all| - 1] == steps + shorter && all[|all| - 1] == later[|later| - 1];
      HeldSince(registryVersion, steps, shorter, operation);
      HoldsEndOnce(Run(Init(registryVersion), steps + shorter), later[|later| - 1], operation);
    }
  }
}
