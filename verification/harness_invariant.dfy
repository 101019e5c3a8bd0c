// What every transaction and every worker move keeps, with no assumption about callers.
module HarnessInvariant {
  import opened Common
  import opened HarnessState
  import opened HarnessObserve
  import opened HarnessFrame
  import opened HarnessAdmission
  import opened HarnessHold
  import opened HarnessActions
  import opened HarnessStep

  // ----- rows name existing rows -----

  ghost predicate AttemptsOk(s: State) {
    forall a :: a in s.core.attempts ==> AttemptOk(s, a)
  }

  // an attempt's own request has left the queue
  ghost predicate AttemptOk(s: State, a: Id)
    requires a in s.core.attempts
  {
    var row := s.core.attempts[a];
    && row.request in s.core.requests
    && s.core.requests[row.request].dialog == row.dialog
    && !s.core.requests[row.request].status.Queued?
    && (row.state.Dispatching? ==> !row.started)
    && (row.state.Running? || row.state.WaitingInput? ==> row.started)
  }

  ghost predicate RequestsOk(s: State) {
    forall r :: r in s.core.requests ==>
      s.core.requests[r].message in s.core.messages
      && s.core.messages[s.core.requests[r].message].dialog == s.core.requests[r].dialog
  }

  // a message that waits names the request that waits with it
  ghost predicate MessagesOk(s: State) {
    forall m :: m in s.core.messages && (s.core.messages[m].disposition.Queued? || s.core.messages[m].disposition.SteerPending?) ==>
      s.core.messages[m].request.Some? && s.core.messages[m].request.value in s.core.requests
      && s.core.requests[s.core.messages[m].request.value].message == m
  }

  ghost predicate ActionsOk(s: State) {
    forall c :: c in s.core.actions ==> ActionOk(s, c)
  }

  ghost predicate ActionOk(s: State, c: Id)
    requires c in s.core.actions
  {
    var x := s.core.actions[c];
    var a := x.reference.attempt;
    && a in s.core.attempts
    && x.reference.dialog == s.core.attempts[a].dialog
    && x.reference.generation == s.core.attempts[a].generation
    && (!x.kind.Steer? ==> x.reference.request == s.core.attempts[a].request)
    && (x.kind.DispatchStart? ==> a == c)
    && (x.kind.Steer? ==>
          && s.core.attempts[a].started
          && x.message in s.core.messages && s.core.messages[x.message].request == Some(x.reference.request)
          && x.reference.request in s.core.requests && s.core.requests[x.reference.request].dialog == x.reference.dialog
          && s.core.messages[x.message].dialog == x.reference.dialog)
    && (x.kind.Approval? ==>
          s.core.attempts[a].started && x.subject in s.rows.approvals && s.rows.approvals[x.subject].attempt == a)
    && (x.kind.Input? ==> s.core.attempts[a].started && x.subject in s.rows.inputs && s.rows.inputs[x.subject].attempt == a)
  }

  ghost predicate RowsOk(s: State) {
    && (forall p :: p in s.rows.approvals ==>
          s.rows.approvals[p].attempt in s.core.attempts && s.core.attempts[s.rows.approvals[p].attempt].started)
    && (forall i :: i in s.rows.inputs ==>
          s.rows.inputs[i].attempt in s.core.attempts && s.core.attempts[s.rows.inputs[i].attempt].started)
  }

  ghost predicate SlotOk(s: State) {
    s.node.slot.Some? ==> s.node.slot.value in s.core.attempts && IsLive(s.core.attempts[s.node.slot.value].state)
  }

  // ----- workers, the start gate and the hold barrier -----

  predicate AtGate(phase: Phase) {
    phase.Gated? || phase.Ready? || phase.Calling?
  }

  ghost predicate WorkersOk(s: State) {
    forall c :: c in s.run.workers ==>
      && c in s.core.actions && s.core.actions[c].status.Inflight?
      && (AtGate(s.run.workers[c]) ==> s.core.actions[c].kind.DispatchStart? && s.run.gate == Some(c))
      && (s.run.workers[c].Finishing? ==> !s.run.workers[c].status.Pending? && !s.run.workers[c].status.Inflight?)
  }

  // the start of attempt c is still ahead: nothing has been committed for it
  predicate StartAhead(s: State, c: Id)
    requires c in s.core.actions
  {
    && s.core.actions[c].kind.DispatchStart?
    && (s.core.actions[c].status.Pending? || (s.core.actions[c].status.Inflight? && c in s.run.workers && !s.run.workers[c].Finishing?))
  }

  ghost predicate StartsOk(s: State) {
    forall c :: c in s.core.actions && StartAhead(s, c) ==> c in s.core.attempts && !s.core.attempts[c].started
  }

  // a start that may still be made is not covered by a hold
  ghost predicate Barrier(s: State) {
    && (forall c :: c in s.core.actions && MayStart(s, c) ==> !Held(s, s.core.attempts[c].dialog))
    && (forall c :: c in s.run.workers && (s.run.workers[c].Ready? || s.run.workers[c].Calling?) && c in s.core.attempts ==>
          !Held(s, s.core.attempts[c].dialog))
  }

  predicate MayStart(s: State, c: Id)
    requires c in s.core.actions
  {
    && s.core.actions[c].kind.DispatchStart?
    && (s.core.actions[c].status.Pending? || s.core.actions[c].status.Inflight?)
    && c in s.core.attempts && s.core.attempts[c].state.Dispatching?
  }

  ghost predicate Base(s: State) {
    && AttemptsOk(s) && RequestsOk(s) && MessagesOk(s) && ActionsOk(s) && RowsOk(s) && SlotOk(s)
    && WorkersOk(s) && StartsOk(s) && Barrier(s)
  }

  // ----- observing -----

  lemma TouchKeepsMessages(s: State, t: State, a: Id, q: Id)
    requires MessagesOk(s) && a in s.core.attempts && TouchMessages(s, t, a) && TouchRequests(s, t, q)
    ensures MessagesOk(t)
  {
    forall m | m in t.core.messages && (t.core.messages[m].disposition.Queued? || t.core.messages[m].disposition.SteerPending?)
      ensures t.core.messages[m].request.Some? && t.core.messages[m].request.value in t.core.requests
      ensures t.core.requests[t.core.messages[m].request.value].message == m
    {
      assert m in s.core.messages;
      var r := s.core.messages[m].request.value;
      assert r in s.core.requests && s.core.requests[r].message == m;
    }
  }

  lemma TouchKeepsRows(s: State, t: State, a: Id, q: Id)
    requires a in s.core.attempts && TouchAttempts(s, t, a) && TouchRequests(s, t, q) && TouchMessages(s, t, a) && TouchRows(s, t, a)
    requires AttemptsOk(s) && RequestsOk(s) && RowsOk(s)
    ensures AttemptsOk(t) && RequestsOk(t) && RowsOk(t)
  {
  }

  lemma TouchKeepsActions(s: State, t: State, a: Id, q: Id)
    requires a in s.core.attempts && TouchAttempts(s, t, a) && TouchRequests(s, t, q) && TouchMessages(s, t, a) && TouchRows(s, t, a)
    requires TouchActions(s, t, a) && ActionsOk(s)
    ensures ActionsOk(t)
  {
    forall c | c in t.core.actions ensures ActionOk(t, c) {
      if c in s.core.actions {
        assert ActionOk(s, c);
      }
    }
  }

  lemma TouchKeepsWork(s: State, t: State, a: Id)
    requires a in s.core.attempts && TouchAttempts(s, t, a) && TouchActions(s, t, a) && s.run == t.run && s.admin == t.admin
    requires WorkersOk(s) && StartsOk(s) && Barrier(s)
    ensures WorkersOk(t) && StartsOk(t) && Barrier(t)
  {
    assert forall d :: Held(t, d) == Held(s, d);
    forall c | c in t.core.actions && MayStart(t, c) ensures !Held(t, t.core.attempts[c].dialog) {
      assert c in s.core.actions && MayStart(s, c);
    }
  }

  lemma TouchKeepsBase(s: State, t: State, a: Id, q: Id)
    requires Base(s) && Touch(s, t, a, q) && SlotOk(t)
    ensures Base(t)
  {
    hide AttemptsOk, RequestsOk, MessagesOk, ActionsOk, RowsOk, SlotOk, WorkersOk, StartsOk, Barrier;
    hide TouchAttempts, TouchRequests, TouchMessages, TouchRows, TouchActions, TouchLog;
    TouchKeepsMessages(s, t, a, q);
    TouchKeepsRows(s, t, a, q);
    TouchKeepsActions(s, t, a, q);
    TouchKeepsWork(s, t, a);
  }

  lemma ObservedKeepsBase(s: State, t: State, a: Id, q: Id)
    requires Base(s) && Observed(s, t, a, q) == true
    ensures Base(t)
  {
    assert SlotOk(t) by {
      if t.node.slot.Some? {
        if s.node.slot != Some(a) {
          assert t.node.slot == s.node.slot;
          var b := s.node.slot.value;
          assert b in s.core.attempts && b != a && t.core.attempts[b] == s.core.attempts[b];
        }
      }
    }
    TouchKeepsBase(s, t, a, q);
  }

  // ----- admission -----

  // the worker side of Base survives what command handlers do
  ghost predicate SameWork(s: State, t: State) {
    && t.run == s.run && t.admin.holds == s.admin.holds && t.admin.holdOutcomes == s.admin.holdOutcomes
    && (forall a :: a in s.core.attempts <==> a in t.core.attempts)
    && (forall a :: a in s.core.attempts ==>
          && t.core.attempts[a].dialog == s.core.attempts[a].dialog
          && t.core.attempts[a].started == s.core.attempts[a].started
          && (t.core.attempts[a].state.Dispatching? ==> s.core.attempts[a].state.Dispatching?))
    && (forall c :: c in s.core.actions ==> c in t.core.actions && t.core.actions[c] == s.core.actions[c])
    && (forall c :: c in t.core.actions && c !in s.core.actions ==>
          t.core.actions[c].status.Pending? && !t.core.actions[c].kind.DispatchStart?)
  }

  lemma SameWorkKeeps(s: State, t: State)
    requires WorkersOk(s) && StartsOk(s) && Barrier(s) && SameWork(s, t)
    ensures WorkersOk(t) && StartsOk(t) && Barrier(t)
  {
    assert forall d :: Held(t, d) == Held(s, d);
    forall c | c in t.core.actions && MayStart(t, c) ensures !Held(t, t.core.attempts[c].dialog) {
      assert c in s.core.actions && MayStart(s, c);
    }
  }

  ghost predicate Tables(s: State) {
    AttemptsOk(s) && RequestsOk(s) && MessagesOk(s) && ActionsOk(s) && RowsOk(s) && SlotOk(s)
  }

  lemma EnqueueKeepsBase(s: State, dialog: Id, version: int, drawn: Drawn, t: State)
    requires Base(s) && ApplyMessageEnqueue(s, dialog, version, drawn) == Some(t)
    ensures Tables(t) && SameWork(s, t)
  {
  }

  lemma CancelKeepsBase(s: State, request: Id, version: int, t: State)
    requires Base(s) && ApplyRequestCancel(s, request, version) == Some(t)
    ensures Tables(t) && SameWork(s, t)
  {
  }

  lemma StopKeepsBase(s: State, command: Id, attempt: Id, generation: int, t: State)
    requires Base(s) && ApplyAttemptStop(s, command, attempt, generation) == Some(t)
    ensures Tables(t) && SameWork(s, t)
  {
  }

  lemma RetryKeepsBase(s: State, attempt: Id, generation: int, acknowledge: bool, request: Id, t: State)
    requires Base(s) && ApplyAttemptRetry(s, attempt, generation, acknowledge, request) == Some(t)
    ensures Tables(t) && SameWork(s, t)
  {
  }

  lemma SteerKeepsBase(s: State, command: Id, dialog: Id, attempt: Id, message: Id, generation: int, version: int, t: State)
    requires Base(s) && ApplyMessageSteer(s, command, dialog, attempt, message, generation, version) == Some(t)
    ensures Tables(t) && SameWork(s, t)
  {
  }

  lemma ApprovalKeepsBase(s: State, command: Id, approval: Id, attempt: Id, version: int, generation: int, hash: Id, t: State)
    requires Base(s) && ApplyApproval(s, command, approval, attempt, version, generation, hash) == Some(t)
    ensures Tables(t) && SameWork(s, t)
  {
  }

  lemma InputKeepsBase(s: State, command: Id, input: Id, attempt: Id, version: int, generation: int, message: Id, t: State)
    requires Base(s) && ApplyInput(s, command, input, attempt, version, generation, message) == Some(t)
    ensures Tables(t) && SameWork(s, t)
  {
  }

  // a step that leaves the tables of Base, the workers and the holds alone
  ghost predicate SameTables(s: State, t: State) {
    && t.core == s.core && t.rows == s.rows && t.node.slot == s.node.slot
    && t.run.workers == s.run.workers && t.run.gate == s.run.gate
    && t.admin.holds == s.admin.holds && t.admin.holdOutcomes == s.admin.holdOutcomes
  }

  lemma SameTablesKeepBase(s: State, t: State)
    requires Base(s) && SameTables(s, t)
    ensures Base(t)
  {
    assert forall d :: Held(t, d) == Held(s, d);
    assert forall c :: c in s.core.actions ==> MayStart(t, c) == MayStart(s, c) && ActionOk(t, c) == ActionOk(s, c);
    assert forall a :: a in s.core.attempts ==> AttemptOk(t, a) == AttemptOk(s, a);
  }

  lemma CommandKeepsBase(s: State, id: Id, command: Command, drawn: Drawn, t: State)
    requires Base(s) && ApplyCommand(s, id, command, drawn) == Some(t)
    ensures Base(t)
  {
    hide AttemptsOk, RequestsOk, MessagesOk, ActionsOk, RowsOk, SlotOk, WorkersOk, StartsOk, Barrier, SameWork;
    hide ApplyMessageEnqueue, ApplyRequestCancel, ApplyAttemptStop, ApplyAttemptRetry, ApplyMessageSteer, ApplyApproval, ApplyInput;
    match command
    case CreateDialog(_) => SameTablesKeepBase(s, t);
    case DeleteDialog(_, _) =>
    case ResumeQueue(_) => SameTablesKeepBase(s, t);
    case EnqueueMessage(d, v, _) => EnqueueKeepsBase(s, d, v, drawn, t); SameWorkKeeps(s, t);
    case CancelRequest(r, v) => CancelKeepsBase(s, r, v, t); SameWorkKeeps(s, t);
    case StopAttempt(a, g) => StopKeepsBase(s, id, a, g, t); SameWorkKeeps(s, t);
    case RetryAttempt(a, g, ack) => RetryKeepsBase(s, a, g, ack, drawn.first, t); SameWorkKeeps(s, t);
    case SteerMessage(d, a, m, g, v) => SteerKeepsBase(s, id, d, a, m, g, v, t); SameWorkKeeps(s, t);
    case RespondApproval(p, a, v, g, h, _) => ApprovalKeepsBase(s, id, p, a, v, g, h, t); SameWorkKeeps(s, t);
    case RespondInput(i, a, v, g, _) => InputKeepsBase(s, id, i, a, v, g, drawn.first, t); SameWorkKeeps(s, t);
  }

  lemma SubmitKeepsBase(s: State, id: Id, command: Command, drawn: Drawn)
    requires Base(s)
    ensures Base(SubmitCommand(s, id, command, drawn).0)
  {
    hide Base, ApplyCommand;
    var (t, reply) := SubmitCommand(s, id, command, drawn);
    if !reply.Admitted? {
      SameTablesKeepBase(s, t);
    } else {
      var r := ApplyCommand(s, id, command, drawn);
      CommandKeepsBase(s, id, command, drawn, r.value);
      SameTablesKeepBase(r.value, t);
    }
  }

  // ----- holds -----

  lemma InstallKeepsBase(s: State, operation: Id, request: InstallRequest)
    requires Base(s)
    ensures Base(InstallHold(s, operation, request).0)
  {
    var t := InstallHold(s, operation, request).0;
    if t != s {
      var scope := request.scope;
      assert t.admin.holds[operation].scope == scope;
      forall d ensures Held(t, d) ==> Held(s, d) || Covers(scope, d) {
        if Held(t, d) {
          var op :| op in t.admin.holds && op !in t.admin.holdOutcomes && Covers(t.admin.holds[op].scope, d);
          assert op != operation ==> op in s.admin.holds;
        }
      }
      forall c | c in t.core.actions && MayStart(t, c) ensures !Held(t, t.core.attempts[c].dialog) {
        assert MayStart(s, c) && AttemptOk(s, c) && ActionOk(s, c);
      }
      InstallKeepsTables(s, t);
    }
  }

  lemma InstallKeepsTables(s: State, t: State)
    requires t == s.(admin := t.admin)
    requires Tables(s) && WorkersOk(s) && StartsOk(s)
    ensures Tables(t) && WorkersOk(t) && StartsOk(t)
  {
    assert forall c :: c in s.core.actions ==> ActionOk(t, c) == ActionOk(s, c);
    assert forall a :: a in s.core.attempts ==> AttemptOk(t, a) == AttemptOk(s, a);
  }

  // ending a hold, and whatever else changes in the administrative tables, only widens what may run
  lemma FewerHoldsKeepBase(s: State, t: State)
    requires Base(s) && t.core == s.core && t.rows == s.rows && t.run == s.run && t.node.slot == s.node.slot
    requires t.admin.holds == s.admin.holds && forall op :: op in s.admin.holdOutcomes ==> op in t.admin.holdOutcomes
    ensures Base(t)
  {
    assert forall d :: Held(t, d) ==> Held(s, d);
    assert forall c :: c in s.core.actions ==> MayStart(t, c) == MayStart(s, c) && ActionOk(t, c) == ActionOk(s, c);
    assert forall a :: a in s.core.attempts ==> AttemptOk(t, a) == AttemptOk(s, a);
  }

  // ----- dispatch -----

  lemma DispatchKeepsRows(s: State, candidate: Candidate, attempt: Id, generation: int, t: State)
    requires Base(s) && Dispatch(s, candidate, attempt, generation) == Some(t)
    ensures AttemptsOk(t) && RequestsOk(t) && MessagesOk(t) && RowsOk(t) && SlotOk(t)
  {
    hide OtherLive, NextGeneration, WorkersOk, StartsOk, Barrier, ActionsOk, ActionOk;
    assert forall a :: a in s.core.attempts ==> AttemptOk(s, a) && a != attempt;
  }

  lemma DispatchKeepsActions(s: State, candidate: Candidate, attempt: Id, generation: int, t: State)
    requires Base(s) && Dispatch(s, candidate, attempt, generation) == Some(t)
    ensures ActionsOk(t)
  {
    hide OtherLive, NextGeneration, WorkersOk, StartsOk, Barrier, RequestsOk, RowsOk, SlotOk;
    assert forall c :: c in s.core.actions ==> ActionOk(s, c) && c != attempt;
  }

  lemma DispatchKeepsTables(s: State, candidate: Candidate, attempt: Id, generation: int, t: State)
    requires Base(s) && Dispatch(s, candidate, attempt, generation) == Some(t)
    ensures Tables(t)
  {
    hide Dispatch, AttemptsOk, RequestsOk, MessagesOk, ActionsOk, RowsOk, SlotOk;
    DispatchKeepsRows(s, candidate, attempt, generation, t);
    DispatchKeepsActions(s, candidate, attempt, generation, t);
  }

  lemma DispatchKeepsWork(s: State, candidate: Candidate, attempt: Id, generation: int, t: State)
    requires Base(s) && Dispatch(s, candidate, attempt, generation) == Some(t)
    ensures WorkersOk(t) && StartsOk(t) && Barrier(t)
  {
    hide OtherLive, NextGeneration;
    assert forall d :: Held(t, d) == Held(s, d);
    forall c | c in t.core.actions && MayStart(t, c) ensures !Held(t, t.core.attempts[c].dialog) {
      assert c != attempt ==> MayStart(s, c);
    }
  }

  // ----- workers -----

  lemma ClaimKeepsBase(s: State, lane: Lane, action: Id)
    requires Base(s)
    ensures Base(Claim(s, lane, action))
  {
    var t := Claim(s, lane, action);
    if t != s {
      assert Claimable(s, action, lane);
      StatusKeepsActions(s, t, action);
      assert forall d :: Held(t, d) == Held(s, d);
      forall c | c in t.core.actions && MayStart(t, c) ensures !Held(t, t.core.attempts[c].dialog) {
        assert MayStart(s, c);
      }
    }
  }

  // changing the status of an action keeps the tables
  lemma StatusKeepsActions(s: State, t: State, action: Id)
    requires Tables(s) && action in s.core.actions
    requires exists status :: t.core == SetAction(s, action, status).core
    requires t.rows == s.rows && t.node == s.node
    ensures Tables(t)
  {
    assert forall c :: c in s.core.actions ==> ActionOk(t, c) == ActionOk(s, c);
    assert forall a :: a in s.core.attempts ==> AttemptOk(t, a) == AttemptOk(s, a);
  }

  // a worker moves to another phase; only the gate's worker may be between Gated and Calling
  lemma PhaseKeepsBase(s: State, action: Id, phase: Phase)
    requires Base(s) && action in s.run.workers
    requires !s.run.workers[action].Finishing?
    requires AtGate(phase) ==> AtGate(s.run.workers[action])
    requires (phase.Ready? || phase.Calling?) && action in s.core.attempts ==> !Held(s, s.core.attempts[action].dialog)
    requires phase.Finishing? ==> !phase.status.Pending? && !phase.status.Inflight?
    ensures Base(SetPhase(s, action, phase))
  {
    WorkersKeepTables(s, SetPhase(s, action, phase));
  }

  lemma WorkersKeepTables(s: State, t: State)
    requires Base(s) && t.core == s.core && t.rows == s.rows && t.node == s.node
    requires t.admin.holds == s.admin.holds && t.admin.holdOutcomes == s.admin.holdOutcomes
    ensures Tables(t)
    ensures forall d :: Held(t, d) == Held(s, d)
    ensures forall c :: c in s.core.actions ==> MayStart(t, c) == MayStart(s, c)
  {
    assert forall c :: c in s.core.actions ==> ActionOk(t, c) == ActionOk(s, c);
    assert forall a :: a in s.core.attempts ==> AttemptOk(t, a) == AttemptOk(s, a);
  }

  lemma TakeGateKeepsBase(s: State, action: Id)
    requires Base(s)
    ensures Base(TakeGate(s, action))
  {
    WorkersKeepTables(s, TakeGate(s, action));
  }

  lemma ReadKeepsBase(s: State, action: Id, policySound: bool)
    requires Base(s)
    ensures Base(ReadDispatch(s, action, policySound))
  {
    if InPhase(s, action, Gated) {
      var attempt := s.core.actions[action].reference.attempt;
      assert ActionOk(s, action);
      if attempt in s.core.attempts && s.core.attempts[attempt].state.Dispatching? && policySound {
        assert MayStart(s, action);
        PhaseKeepsBase(s, action, Phase.Ready(HasEnded(s, attempt)));
      } else {
        PhaseKeepsBase(s, action, Answered(Answer.Error));
      }
    }
  }

  lemma BeginKeepsBase(s: State, action: Id)
    requires Base(s)
    ensures Base(BeginCall(s, action))
  {
    if action in s.run.workers && s.run.workers[action].Ready? {
      PhaseKeepsBase(s, action, Calling(s.run.workers[action].resume));
    }
  }

  lemma AnswerKeepsBase(s: State, action: Id, answer: Answer)
    requires Base(s)
    ensures Base(TakeAnswer(s, action, answer))
  {
    if TakeAnswer(s, action, answer) != s {
      PhaseKeepsBase(s, action, Answered(answer));
    }
  }

  // without commit the row keeps the status it has
  lemma FinishSetsStatus(s: State, id: Id, commit: bool)
    requires WorkersOk(s) && FinishAction(s, id, commit) != s
    ensures var status := if commit then s.run.workers[id].status else ActionStatus.Inflight;
      FinishAction(s, id, commit).core == SetAction(s, id, status).core
  {
    assert SetAction(s, id, ActionStatus.Inflight).core.actions == s.core.actions;
  }

  lemma FinishKeepsBase(s: State, id: Id, commit: bool)
    requires Base(s)
    ensures Base(FinishAction(s, id, commit))
  {
    var t := FinishAction(s, id, commit);
    if t != s {
      FinishSetsStatus(s, id, commit);
      StatusKeepsActions(s, t, id);
      assert forall d :: Held(t, d) == Held(s, d);
      forall c | c in t.core.actions && MayStart(t, c) ensures !Held(t, t.core.attempts[c].dialog) {
        assert MayStart(s, c);
      }
    }
  }

  lemma UngateKeepsBase(s: State)
    requires Base(s)
    ensures Base(ReleaseGate(s))
  {
    WorkersKeepTables(s, ReleaseGate(s));
  }

  // ----- answers -----

  lemma StartedKeepsBase(s: State, id: Id, t: State)
    requires Base(s) && id in s.run.workers && id in s.core.actions && s.core.actions[id].kind.DispatchStart?
    requires !s.run.workers[id].Finishing?
    requires MarkStarted(s, s.core.actions[id].reference) == Some(t)
    ensures Base(SetPhase(t, id, Finishing(ActionStatus.Acknowledged)))
  {
    var u := SetPhase(t, id, Finishing(ActionStatus.Acknowledged));
    assert ActionOk(s, id);
    StartedKeepsTables(s, id, u);
    StartedKeepsWork(s, id, u);
  }

  lemma StartedKeepsTables(s: State, id: Id, u: State)
    requires Base(s) && id in s.core.actions && s.core.actions[id].kind.DispatchStart?
    requires var r := MarkStarted(s, s.core.actions[id].reference); r.Some? && u.core == r.value.core && u.rows == s.rows && u.node == r.value.node
    ensures Tables(u)
  {
    assert ActionOk(s, id) && AttemptOk(s, id);
    forall c | c in u.core.actions ensures ActionOk(u, c) {
      assert ActionOk(s, c);
    }
    forall a | a in u.core.attempts ensures AttemptOk(u, a) {
      assert AttemptOk(s, a);
    }
  }

  lemma StartedKeepsWork(s: State, id: Id, u: State)
    requires Base(s) && id in s.run.workers && id in s.core.actions && s.core.actions[id].kind.DispatchStart?
    requires !s.run.workers[id].Finishing?
    requires var r := MarkStarted(s, s.core.actions[id].reference); r.Some? && u == SetPhase(r.value, id, Finishing(ActionStatus.Acknowledged))
    ensures WorkersOk(u) && StartsOk(u) && Barrier(u)
  {
    assert ActionOk(s, id);
    assert forall d :: Held(u, d) == Held(s, d);
    forall c | c in u.core.actions && MayStart(u, c) ensures !Held(u, u.core.attempts[c].dialog) {
      assert MayStart(s, c);
    }
  }

  lemma SteeredKeepsBase(s: State, reference: AttemptRef, message: Id, answer: Answer, t: State)
    requires Base(s) && FinishSteer(s, reference, message, answer) == Some(t)
    ensures Base(t)
  {
    hide AttemptsOk, RequestsOk, MessagesOk, ActionsOk, RowsOk, WorkersOk, StartsOk, Barrier, SameWork, SteerRows;
    var to := SteerDisposition(answer);
    var s1 := SteerRows(s, message, to);
    SteeredTables(s, message, to);
    SameWorkKeeps(s, s1);
    if to.Unknown? {
      var s2 := SetAttemptUnknown(s1, reference, Effects.Unknown).value;
      UnknownKeepsBase(s1, reference, s2);
      SameTablesKeepBase(s2, t);
    } else {
      SameTablesKeepBase(s1, t);
    }
  }

  lemma SteeredTables(s: State, message: Id, to: Disposition)
    requires Base(s) && message in s.core.messages && s.core.messages[message].disposition.SteerPending?
    requires s.core.messages[message].request.Some? && (to.Queued? || to.Applied? || to.Unknown?)
    ensures Tables(SteerRows(s, message, to)) && SameWork(s, SteerRows(s, message, to))
  {
    var t := SteerRows(s, message, to);
    forall c | c in t.core.actions ensures ActionOk(t, c) {
      assert ActionOk(s, c);
    }
    forall a | a in t.core.attempts ensures AttemptOk(t, a) {
      assert AttemptOk(s, a);
    }
  }

  lemma UnknownKeepsBase(s: State, reference: AttemptRef, t: State)
    requires Base(s) && SetAttemptUnknown(s, reference, Effects.Unknown) == Some(t)
    ensures Base(t)
  {
    hide AttemptsOk, RequestsOk, MessagesOk, ActionsOk, RowsOk, WorkersOk, StartsOk, Barrier;
    UnknownTouches(s, reference, Effects.Unknown, t);
    TouchKeepsBase(s, t, reference.attempt, reference.request);
  }

  lemma ResponseKeepsBase(s: State, action: Action, answer: Answer, t: State)
    requires Base(s) && FinishResponse(s, action, answer) == Some(t)
    ensures Base(t)
  {
    hide Base;
    var status := AnswerRow(answer);
    var s1 := AnswerRows(s, action, status);
    AnsweredTables(s, s1);
    if status.Resolved? {
      SameTablesKeepBase(s1, t);
    } else if status.Unknown? {
      UnknownKeepsBase(s1, action.reference, t);
    }
  }

  lemma AnsweredTables(s: State, t: State)
    requires Base(s) && t == s.(rows := s.rows.(approvals := t.rows.approvals, inputs := t.rows.inputs))
    requires t.rows.approvals.Keys == s.rows.approvals.Keys && t.rows.inputs.Keys == s.rows.inputs.Keys
    requires forall p :: p in s.rows.approvals ==> t.rows.approvals[p].attempt == s.rows.approvals[p].attempt
    requires forall i :: i in s.rows.inputs ==> t.rows.inputs[i].attempt == s.rows.inputs[i].attempt
    ensures Base(t)
  {
    forall c | c in t.core.actions ensures ActionOk(t, c) {
      assert ActionOk(s, c);
    }
    assert RowsOk(t) by {
      assert forall p :: p in t.rows.approvals ==> p in s.rows.approvals;
      assert forall i :: i in t.rows.inputs ==> i in s.rows.inputs;
    }
    assert forall d :: Held(t, d) == Held(s, d);
    assert forall c :: c in s.core.actions ==> MayStart(t, c) == MayStart(s, c);
    assert forall a :: a in s.core.attempts ==> AttemptOk(t, a) == AttemptOk(s, a);
  }

  lemma SettleKeepsBase(s: State, id: Id, commit: bool)
    requires Base(s)
    ensures Base(Settle(s, id, commit))
  {
    hide Observed, MarkStarted, FinishSteer, FinishResponse, MarkAttemptUnknown, ObserveRejected;
    if id in s.run.workers && id in s.core.actions && s.run.workers[id].Answered? {
      var action := s.core.actions[id];
      var answer := s.run.workers[id].answer;
      var (t, phase) := SettleAction(s, id, answer, commit);
      assert ActionOk(s, id);
      if t == s {
        PhaseKeepsBase(s, id, phase);
      } else if action.kind.DispatchStart? && answer.Accepted? {
        StartedKeepsBase(s, id, t);
      } else {
        SettledKeepsBase(s, id, answer, t, phase);
        PhaseKeepsBase(t, id, phase);
      }
    }
  }

  lemma SettledKeepsBase(s: State, id: Id, answer: Answer, t: State, phase: Phase)
    requires Base(s) && id in s.run.workers && id in s.core.actions && s.run.workers[id].Answered?
    requires SettleAction(s, id, answer, true) == (t, phase)
    requires !(s.core.actions[id].kind.DispatchStart? && answer.Accepted?)
    ensures Base(t) && t.run == s.run
  {
    hide Observed;
    var action := s.core.actions[id];
    var reference := action.reference;
    assert ActionOk(s, id);
    SettledKeepsRun(s, id, answer);
    if t == s {
    } else if action.kind.DispatchStart? && answer.Rejected? {
      assert StartAhead(s, id);
      RejectionObserved(s, reference);
      ObservedKeepsBase(s, t, reference.attempt, reference.request);
    } else if t == MarkAttemptUnknown(s, reference) {
      MarkObserved(s, reference);
      ObservedKeepsBase(s, t, reference.attempt, reference.request);
    } else if action.kind.Steer? {
      SteeredKeepsBase(s, reference, action.message, answer, t);
    } else {
      ResponseKeepsBase(s, action, answer, t);
    }
  }

  lemma SettledKeepsRun(s: State, id: Id, answer: Answer)
    requires id in s.core.actions
    ensures SettleAction(s, id, answer, true).0.run == s.run
  {
    hide SetAttemptUnknown, ObserveRejected;
    var action := s.core.actions[id];
    var m := action.message;
    UnknownKeepsRun(s, action.reference);
    RejectionKeepsRun(s, action.reference);
    if action.kind.Steer? && m in s.core.messages && s.core.messages[m].request.Some? {
      UnknownKeepsRun(SteerRows(s, m, SteerDisposition(answer)), action.reference);
    }
    UnknownKeepsRun(AnswerRows(s, action, AnswerRow(answer)), action.reference);
  }

  lemma UnknownKeepsRun(s: State, reference: AttemptRef)
    ensures var r := SetAttemptUnknown(s, reference, Effects.Unknown); r.Some? ==> r.value.run == s.run
  {
  }

  lemma RejectionKeepsRun(s: State, reference: AttemptRef)
    ensures ObserveRejected(s, reference.attempt, reference.generation).run == s.run
  {
  }

  // ----- restart -----

  lemma RestartKeepsBase(s: State)
    requires Base(s)
    ensures Base(Restart(s))
  {
    hide Touch;
    var s1 := s.(core := s.core.(actions := AbandonAll(s.core.actions)), run := s.run.(workers := map[], gate := None, peeked := None));
    AbandonedBase(s, s1);
    if s.node.slot.Some? {
      var reference := Reference(s1, s.node.slot.value);
      var r := SetAttemptUnknown(s1, reference, Effects.Unknown);
      if r.Some? {
        UnknownKeepsBase(s1, reference, r.value);
      }
    }
  }

  lemma AbandonedBase(s: State, t: State)
    requires Base(s)
    requires t == s.(core := s.core.(actions := AbandonAll(s.core.actions)), run := s.run.(workers := map[], gate := None, peeked := None))
    ensures Base(t)
  {
    forall c | c in t.core.actions
      ensures ActionOk(t, c) && !t.core.actions[c].status.Pending? && !t.core.actions[c].status.Inflight?
    {
      assert ActionOk(s, c);
    }
    assert forall a :: a in s.core.attempts ==> AttemptOk(t, a) == AttemptOk(s, a);
  }

  // ----- every step, every run -----

  lemma NextKeepsBase(s: State, step: Step)
    requires Base(s)
    ensures Base(Next(s, step))
  {
    hide Base, Observed, SubmitCommand, InstallHold, ReleaseHold, DeleteLogicalDialog, Peek, DispatchCandidate, BlockPolicy;
    hide Claim, TakeGate, ReadDispatch, BeginCall, TakeAnswer, Settle, FinishAction, ReleaseGate, ObserveAdapterEvent, LoseStream;
    hide StoreArtifact, Reconcile, Restart;
    match step
    case Submit(id, command, drawn) => SubmitKeepsBase(s, id, command, drawn);
    case Install(operation, request) => InstallKeepsBase(s, operation, request);
    case Release(operation, request) => ReleaseKeepsBase(s, operation, request);
    case Delete(operation, request) => DeleteKeepsBase(s, operation, request);
    case PeekDispatch(request) => QuietKeepsBase(s, request);
    case DispatchNext(attempt, generation) => CandidateKeepsBase(s, attempt, generation);
    case Block => QuietKeepsBase(s, 0);
    case ClaimAction(lane, action) => ClaimKeepsBase(s, lane, action);
    case Gate(action) => TakeGateKeepsBase(s, action);
    case Read(action, sound) => ReadKeepsBase(s, action, sound);
    case Begin(action) => BeginKeepsBase(s, action);
    case Reply(action, answer) => AnswerKeepsBase(s, action, answer);
    case Commit(action, commit) => SettleKeepsBase(s, action, commit);
    case Finish(action, commit) => FinishKeepsBase(s, action, commit);
    case Ungate => UngateKeepsBase(s);
    case CrashAndRestart => RestartKeepsBase(s);
    case _ => ObservingKeepsBase(s, step);
  }

  // the five steps that observe an attempt
  predicate Observing(step: Step) {
    step.Observe? || step.StreamLost? || step.Ingest? || step.ReconcileStep?
  }

  lemma ObservingStep(s: State, step: Step)
    requires Observing(step)
    ensures Next(s, step) == s
         || (Current(s, step.reference) && Observed(s, Next(s, step), step.reference.attempt, step.reference.request))
  {
    hide Observed, ObserveAdapterEvent, StoreArtifact, Reconcile, MarkAttemptUnknown;
    if step.reference.attempt in s.core.attempts {
      match step
      case Observe(reference, event, ids) => AdapterEventObserved(s, reference, event, ids); ObserveIsCurrent(s, step);
      case StreamLost(reference) => MarkObserved(s, reference);
      case Ingest(reference, artifact, call, size, ids) => ArtifactObserved(s, reference, artifact, call, size, ids); ObserveIsCurrent(s, step);
      case ReconcileStep(reference, event, message, ids) => ReconcileObserved(s, reference, event, message, ids); ObserveIsCurrent(s, step);
    } else {
      ObserveIsCurrent(s, step);
    }
  }

  lemma ObserveIsCurrent(s: State, step: Step)
    requires Observing(step)
    ensures Next(s, step) == s || Current(s, step.reference)
  {
    hide ProjectEvent, ArchiveEvent, Marked, EffectsUnresolved, StoredOutput, MarkAttemptUnknown;
  }

  // the steps that touch neither requests, attempts, actions nor the rows that hang on attempts
  predicate Still(step: Step) {
    step.Install? || step.Release? || step.Delete? || step.PeekDispatch? || step.Block? || step.Gate? || step.Read? || step.Begin?
    || step.Reply? || step.Ungate?
  }

  lemma StillTables(s: State, step: Step)
    requires Still(step)
    ensures var t := Next(s, step);
      && t.core == s.core && t.rows == s.rows && t.log.projected == s.log.projected && t.log.late == s.log.late
      && t.node.slot == s.node.slot && t.node.pendingCount == s.node.pendingCount
  {
    hide NextInQueue, DialogSettled, HasEnded, PreStart, ScopeTaken;
  }

  lemma ObservingKeepsBase(s: State, step: Step)
    requires Base(s) && Observing(step)
    ensures Base(Next(s, step))
  {
    hide Base, Observed, Next;
    ObservingStep(s, step);
    if Next(s, step) != s {
      ObservedKeepsBase(s, Next(s, step), step.reference.attempt, step.reference.request);
    }
  }

  lemma ReleaseKeepsBase(s: State, operation: Id, request: ReleaseRequest)
    requires Base(s)
    ensures Base(ReleaseHold(s, operation, request).0)
  {
    hide Base;
    FewerHoldsKeepBase(s, ReleaseHold(s, operation, request).0);
  }

  lemma DeleteKeepsBase(s: State, operation: Id, request: DeleteRequest)
    requires Base(s)
    ensures Base(DeleteLogicalDialog(s, operation, request).0)
  {
    hide Base, DialogSettled;
    FewerHoldsKeepBase(s, DeleteLogicalDialog(s, operation, request).0);
  }

  lemma QuietKeepsBase(s: State, request: Id)
    requires Base(s)
    ensures Base(Peek(s, request)) && Base(BlockPolicy(s))
  {
    hide Base, NextInQueue;
    SameTablesKeepBase(s, Peek(s, request));
    SameTablesKeepBase(s, BlockPolicy(s));
  }

  lemma CandidateKeepsBase(s: State, attempt: Id, generation: int)
    requires Base(s)
    ensures Base(DispatchCandidate(s, attempt, generation))
  {
    hide Dispatch, AttemptsOk, RequestsOk, MessagesOk, ActionsOk, RowsOk, SlotOk, WorkersOk, StartsOk, Barrier;
    if s.run.peeked.Some? {
      var r := Dispatch(s, s.run.peeked.value, attempt, generation);
      if r.Some? {
        DispatchKeepsTables(s, s.run.peeked.value, attempt, generation, r.value);
        DispatchKeepsWork(s, s.run.peeked.value, attempt, generation, r.value);
      }
      SameTablesKeepBase(Else(r, s), DispatchCandidate(s, attempt, generation));
    }
  }

  lemma {:induction false} RunKeepsBase(registryVersion: int, steps: seq<Step>)
    ensures Base(Run(Init(registryVersion), steps))
  {
    hide Base, Next;
    if steps == [] {
      InitIsBase(registryVersion);
    } else {
      RunKeepsBase(registryVersion, steps[..|steps| - 1]);
      NextKeepsBase(Run(Init(registryVersion), steps[..|steps| - 1]), steps[|steps| - 1]);
    }
  }

  lemma InitIsBase(registryVersion: int)
    ensures Base(Init(registryVersion))
  {
  }
}
