// The pending count: the number of queued requests in every run whose steer calls answer an error or a
// declared outcome, and exactly what breaks it otherwise.
module HarnessPending {
  import opened Common
  import opened HarnessState
  import opened HarnessObserve
  import opened HarnessFrame
  import opened HarnessAdmission
  import opened HarnessHold
  import opened HarnessActions
  import opened HarnessStep
  import opened HarnessInvariant
  import opened HarnessSlot
  import opened HarnessHoldHistory
  import opened HarnessPersistence

  // an adapter answers a steer call with an error or one of the four outcomes
  predicate Declares(s: State, step: Step) {
    step.Reply? && step.action in s.core.actions && s.core.actions[step.action].kind.Steer? ==>
      Declared(ActionKind.Steer, step.answer)
  }

  function QueuedSet(s: State): set<Id> {
    set r | r in s.core.requests && s.core.requests[r].status.Queued?
  }

  // what the count needs to stay right
  ghost predicate Queue(s: State) {
    CountOk(s) && QueuedMessages(s) && SteeredMessages(s)
  }

  predicate CountOk(s: State) {
    s.node.pendingCount == |QueuedSet(s)| <= QUEUE_CAPACITY
  }

  // a queued message's request is queued
  ghost predicate QueuedMessages(s: State) {
    forall m :: m in s.core.messages && s.core.messages[m].disposition.Queued? ==> RequestWaits(s, m)
  }

  predicate RequestWaits(s: State, m: Id)
    requires m in s.core.messages
  {
    s.core.messages[m].request.Some? && IsQueued(s, s.core.messages[m].request.value)
  }

  // so is the request of a message whose steer is still owed
  ghost predicate SteeredMessages(s: State) {
    forall c :: c in s.core.actions && SteerOwed(s, c) ==> RequestWaits(s, s.core.actions[c].message)
  }

  predicate SteerOwed(s: State, c: Id)
    requires c in s.core.actions
  {
    && s.core.actions[c].kind.Steer? && Owed(s.core.actions[c].status)
    && s.core.actions[c].message in s.core.messages
    && s.core.messages[s.core.actions[c].message].disposition.SteerPending?
  }

  ghost predicate AnswersDeclared(s: State) {
    forall c :: c in s.run.workers && s.run.workers[c].Answered? && c in s.core.actions && s.core.actions[c].kind.Steer? ==>
      Declared(ActionKind.Steer, s.run.workers[c].answer)
  }

  // what a step that breaks nothing does
  ghost predicate Keeps(s: State, t: State) {
    Queue(t) && (AnswersDeclared(s) ==> AnswersDeclared(t))
  }

  // ----- steps that leave the queue alone -----

  // no request enters or leaves the queue, and no message starts to wait
  ghost predicate SameQueue(s: State, t: State) {
    && t.node.pendingCount == s.node.pendingCount
    && (forall r :: IsQueued(t, r) <==> IsQueued(s, r))
    && (forall m :: m in s.core.messages ==> m in t.core.messages && t.core.messages[m] == s.core.messages[m])
    && (forall m :: m in t.core.messages && m !in s.core.messages ==>
          !t.core.messages[m].disposition.Queued? && !t.core.messages[m].disposition.SteerPending?)
    && (forall c :: c in t.core.actions && SteerOwed(t, c) ==>
          c in s.core.actions && s.core.actions[c].kind.Steer? && Owed(s.core.actions[c].status)
          && s.core.actions[c].message == t.core.actions[c].message)
  }

  lemma SameQueueKeeps(s: State, t: State)
    requires CountOk(s) && QueuedMessages(s) && SteeredMessages(s) && SameQueue(s, t)
    ensures CountOk(t) && QueuedMessages(t) && SteeredMessages(t)
  {
    forall r ensures r in QueuedSet(t) <==> r in QueuedSet(s) {
      assert IsQueued(t, r) <==> IsQueued(s, r);
    }
    assert QueuedSet(t) == QueuedSet(s);
    forall c | c in t.core.actions && SteerOwed(t, c) ensures RequestWaits(t, t.core.actions[c].message) {
      assert SteerOwed(s, c) && RequestWaits(s, s.core.actions[c].message);
    }
    forall m | m in t.core.messages && t.core.messages[m].disposition.Queued? ensures RequestWaits(t, m) {
      assert RequestWaits(s, m);
    }
  }

  lemma TouchKeepsQueue(s: State, t: State, a: Id, q: Id)
    requires Touch(s, t, a, q) == true && !IsQueued(s, q)
    ensures SameQueue(s, t)
  {
    forall r ensures IsQueued(t, r) <==> IsQueued(s, r) {
      assert r in t.core.requests <==> r in s.core.requests;
    }
  }

  // ----- the queue moves -----

  lemma CountInsert(s: State, t: State, r: Id)
    requires CountOk(s) && s.node.pendingCount < QUEUE_CAPACITY && t.node.pendingCount == s.node.pendingCount + 1
    requires !IsQueued(s, r) && forall x :: IsQueued(t, x) <==> x == r || IsQueued(s, x)
    ensures CountOk(t)
  {
    forall x ensures x in QueuedSet(t) <==> x in QueuedSet(s) + {r} {
      assert IsQueued(t, x) <==> x == r || IsQueued(s, x);
    }
    assert QueuedSet(t) == QueuedSet(s) + {r};
  }

  lemma CountRemove(s: State, t: State, r: Id)
    requires CountOk(s) && t.node.pendingCount == s.node.pendingCount - 1
    requires IsQueued(s, r) && forall x :: IsQueued(t, x) <==> x != r && IsQueued(s, x)
    ensures CountOk(t)
  {
    forall x ensures x in QueuedSet(s) <==> x in QueuedSet(t) + {r} {
      assert IsQueued(t, x) <==> x != r && IsQueued(s, x);
    }
    assert QueuedSet(s) == QueuedSet(t) + {r};
  }

  lemma EnqueueKeepsQueue(s: State, d: Id, v: int, drawn: Drawn, t: State)
    requires Tables(s) && Queue(s) && ApplyMessageEnqueue(s, d, v, drawn) == Some(t)
    ensures Queue(t)
  {
    CountInsert(s, t, drawn.second);
    KeepsWaiting(s, t, drawn.first);
  }

  // messages other than m keep their rows, and their requests stay queued; m, if it waits, waits rightly
  lemma KeepsWaiting(s: State, t: State, m: Id)
    requires QueuedMessages(s) && SteeredMessages(s)
    requires forall x :: x in s.core.messages && x != m && Waits(s, x) ==>
               x in t.core.messages && t.core.messages[x] == s.core.messages[x]
               && (RequestWaits(s, x) ==> RequestWaits(t, x))
    requires forall x :: x in t.core.messages && x != m && Waits(t, x) ==>
               x in s.core.messages && t.core.messages[x] == s.core.messages[x]
    requires m in t.core.messages && t.core.messages[m].disposition.Queued? ==> RequestWaits(t, m)
    requires forall c :: c in t.core.actions && SteerOwed(t, c) && t.core.actions[c].message == m ==> RequestWaits(t, m)
    requires forall c :: c in t.core.actions && t.core.actions[c].kind.Steer? && Owed(t.core.actions[c].status) && t.core.actions[c].message != m ==>
               c in s.core.actions && s.core.actions[c] == t.core.actions[c]
    ensures QueuedMessages(t) && SteeredMessages(t)
  {
    forall x | x in t.core.messages && t.core.messages[x].disposition.Queued? ensures RequestWaits(t, x) {
      if x != m {
        assert Waits(s, x) && RequestWaits(s, x);
      }
    }
    forall c | c in t.core.actions && SteerOwed(t, c) ensures RequestWaits(t, t.core.actions[c].message) {
      var x := t.core.actions[c].message;
      if x != m {
        assert Waits(t, x) && Waits(s, x) && SteerOwed(s, c) && RequestWaits(s, x);
      }
    }
  }

  predicate Waits(s: State, m: Id)
    requires m in s.core.messages
  {
    s.core.messages[m].disposition.Queued? || s.core.messages[m].disposition.SteerPending?
  }

  lemma CancelKeepsQueue(s: State, r: Id, v: int, t: State)
    requires Tables(s) && Queue(s) && ApplyRequestCancel(s, r, v) == Some(t)
    ensures Queue(t)
  {
    CountRemove(s, t, r);
    KeepsWaiting(s, t, s.core.requests[r].message);
  }

  lemma RetryKeepsQueue(s: State, a: Id, g: int, acknowledge: bool, request: Id, t: State)
    requires Tables(s) && Queue(s) && ApplyAttemptRetry(s, a, g, acknowledge, request) == Some(t)
    ensures Queue(t)
  {
    hide RetryPending;
    CountInsert(s, t, request);
    forall m | m in t.core.messages && RequestWaits(s, m) ensures RequestWaits(t, m) {
    }
    forall c | c in t.core.actions && SteerOwed(t, c) ensures RequestWaits(t, t.core.actions[c].message) {
      assert SteerOwed(s, c);
    }
  }

  lemma SteerKeepsQueue(s: State, c: Id, d: Id, a: Id, m: Id, g: int, v: int, t: State)
    requires Tables(s) && Queue(s) && ApplyMessageSteer(s, c, d, a, m, g, v) == Some(t)
    ensures Queue(t)
  {
    assert RequestWaits(s, m);
    assert QueuedSet(t) == QueuedSet(s);
    KeepsWaiting(s, t, m);
  }

  lemma StopOrAnswerKeepsQueue(s: State, id: Id, command: Command, drawn: Drawn, t: State)
    requires command.CreateDialog? || command.ResumeQueue? || command.StopAttempt? || command.RespondApproval? || command.RespondInput?
    requires ApplyCommand(s, id, command, drawn) == Some(t)
    ensures SameQueue(s, t)
  {
  }

  lemma CommandKeepsQueue(s: State, id: Id, command: Command, drawn: Drawn, t: State)
    requires Tables(s) && Queue(s) && ApplyCommand(s, id, command, drawn) == Some(t)
    ensures Queue(t)
  {
    hide Tables, CountOk, QueuedMessages, SteeredMessages, SameQueue;
    hide ApplyMessageEnqueue, ApplyRequestCancel, ApplyAttemptStop, ApplyAttemptRetry, ApplyMessageSteer, ApplyApproval, ApplyInput;
    match command
    case EnqueueMessage(d, v, _) => EnqueueKeepsQueue(s, d, v, drawn, t);
    case CancelRequest(r, v) => CancelKeepsQueue(s, r, v, t);
    case RetryAttempt(a, g, ack) => RetryKeepsQueue(s, a, g, ack, drawn.first, t);
    case SteerMessage(d, a, m, g, v) => SteerKeepsQueue(s, id, d, a, m, g, v, t);
    case DeleteDialog(_, _) =>
    case _ =>
      StopOrAnswerKeepsQueue(s, id, command, drawn, t);
      SameQueueKeeps(s, t);
  }

  lemma SubmitKeepsPending(s: State, id: Id, command: Command, drawn: Drawn)
    requires Base(s) && Queue(s)
    ensures Keeps(s, SubmitCommand(s, id, command, drawn).0)
  {
    hide Base, CountOk, QueuedMessages, SteeredMessages, SameQueue, AnswersDeclared, ApplyCommand, Authorized, CoveredByHold;
    var (t, reply) := SubmitCommand(s, id, command, drawn);
    if reply.Admitted? {
      var r := ApplyCommand(s, id, command, drawn).value;
      BaseTables(s);
      CommandKeepsQueue(s, id, command, drawn, r);
      CommandKeepsWorkers(s, id, command, drawn, r);
      SameIsSameQueue(r, t);
      SameQueueKeeps(r, t);
      SameAnswers(s, t);
    } else {
      SameIsSameQueue(s, t);
      SameQueueKeeps(s, t);
      SameAnswers(s, t);
    }
  }

  lemma BaseTables(s: State)
    requires Base(s)
    ensures Tables(s)
  {
  }

  lemma CommandKeepsWorkers(s: State, id: Id, command: Command, drawn: Drawn, t: State)
    requires Base(s) && ApplyCommand(s, id, command, drawn) == Some(t)
    ensures t.run == s.run && KindsKept(s, t)
  {
    hide RetryPending;
  }

  // a worker's action keeps its kind
  ghost predicate KindsKept(s: State, t: State) {
    forall c :: c in s.run.workers && c in t.core.actions ==> c in s.core.actions && t.core.actions[c].kind == s.core.actions[c].kind
  }

  lemma SameAnswers(s: State, t: State)
    requires t.run.workers == s.run.workers && KindsKept(s, t)
    ensures AnswersDeclared(s) ==> AnswersDeclared(t)
  {
  }

  lemma SameIsSameQueue(s: State, t: State)
    requires t.core == s.core && t.node.pendingCount == s.node.pendingCount
    ensures SameQueue(s, t)
  {
  }

  // ----- dispatch -----

  lemma DispatchKeepsQueue(s: State, candidate: Candidate, attempt: Id, generation: int, t: State)
    requires Base(s) && Slotted(s) && Queue(s) && Dispatch(s, candidate, attempt, generation) == Some(t)
    ensures Queue(t)
  {
    hide NextGeneration, WorkersOk, StartsOk, Barrier;
    var r := candidate.request;
    assert IsQueued(s, r);
    CountRemove(s, t, r);
    KeepsWaiting(s, t, s.core.requests[r].message);
  }

  lemma CandidateKeepsPending(s: State, attempt: Id, generation: int)
    requires Base(s) && Slotted(s) && Queue(s)
    ensures Keeps(s, DispatchCandidate(s, attempt, generation))
  {
    hide Base, Slotted, CountOk, QueuedMessages, SteeredMessages, AnswersDeclared, SameQueue, Dispatch;
    var t := DispatchCandidate(s, attempt, generation);
    if s.run.peeked.Some? && Dispatch(s, s.run.peeked.value, attempt, generation).Some? {
      var r := Dispatch(s, s.run.peeked.value, attempt, generation).value;
      DispatchKeepsQueue(s, s.run.peeked.value, attempt, generation, r);
      SameIsSameQueue(r, t);
      SameQueueKeeps(r, t);
      DispatchKeepsWorkers(s, s.run.peeked.value, attempt, generation, r);
      SameAnswers(s, t);
    } else {
      SameIsSameQueue(s, t);
      SameQueueKeeps(s, t);
      SameAnswers(s, t);
    }
  }

  lemma DispatchKeepsWorkers(s: State, candidate: Candidate, attempt: Id, generation: int, t: State)
    requires Base(s) && Dispatch(s, candidate, attempt, generation) == Some(t)
    ensures t.run == s.run && KindsKept(s, t)
  {
    hide NextInQueue, NextGeneration;
  }

  // ----- workers -----

  // an action goes from owed to owed, or leaves; and a worker's answer is still declared
  lemma StatusKeepsPending(s: State, t: State, action: Id, status: ActionStatus)
    requires Queue(s) && action in s.core.actions && (Owed(status) ==> Owed(s.core.actions[action].status))
    requires t.core == SetAction(s, action, status).core && t.node == s.node
    requires forall c :: c in t.run.workers && t.run.workers[c].Answered? ==> c in s.run.workers && s.run.workers[c] == t.run.workers[c]
    ensures Keeps(s, t)
  {
    assert SameQueue(s, t);
    SameQueueKeeps(s, t);
  }

  lemma ClaimKeepsPending(s: State, lane: Lane, action: Id)
    requires Queue(s)
    ensures Keeps(s, Claim(s, lane, action))
  {
    hide Queue, AnswersDeclared;
    var t := Claim(s, lane, action);
    if t != s {
      assert Claimable(s, action, lane);
      StatusKeepsPending(s, t, action, ActionStatus.Inflight);
    }
  }

  lemma FinishKeepsPending(s: State, id: Id, commit: bool)
    requires Base(s) && Queue(s)
    ensures Keeps(s, FinishAction(s, id, commit))
  {
    hide Queue, AnswersDeclared;
    var t := FinishAction(s, id, commit);
    if t != s {
      FinishSetsStatus(s, id, commit);
      StatusKeepsPending(s, t, id, if commit then s.run.workers[id].status else ActionStatus.Inflight);
    }
  }

  lemma ReplyKeepsPending(s: State, id: Id, answer: Answer)
    requires Queue(s)
    ensures Queue(TakeAnswer(s, id, answer))
    ensures AnswersDeclared(s) && Declares(s, Reply(id, answer)) ==> AnswersDeclared(TakeAnswer(s, id, answer))
  {
    var t := TakeAnswer(s, id, answer);
    SameIsSameQueue(s, t);
    SameQueueKeeps(s, t);
  }

  // ----- answers -----

  lemma SteerRowsKeepQueue(s: State, id: Id, to: Disposition)
    requires Tables(s) && Queue(s) && id in s.core.actions && SteerOwed(s, id) && (to.Queued? || to.Applied? || to.Unknown?)
    requires s.core.messages[s.core.actions[id].message].request.Some?
    ensures Queue(SteerRows(s, s.core.actions[id].message, to))
  {
    var m := s.core.actions[id].message;
    var t := SteerRows(s, m, to);
    assert RequestWaits(s, m);
    var q := s.core.messages[m].request.value;
    if to.Queued? {
      assert QueuedSet(t) == QueuedSet(s);
    } else {
      CountRemove(s, t, q);
    }
    KeepsWaiting(s, t, m);
  }

  lemma SteeredKeepsQueue(s: State, id: Id, answer: Answer, t: State)
    requires Tables(s) && Queue(s) && id in s.core.actions && s.core.actions[id].kind.Steer? && Owed(s.core.actions[id].status)
    requires var x := s.core.actions[id]; FinishSteer(s, x.reference, x.message, answer) == Some(t)
    ensures Queue(t)
  {
    hide AttemptsOk, RequestsOk, MessagesOk, ActionsOk, RowsOk, SlotOk;
    hide CountOk, QueuedMessages, SteeredMessages, SameQueue, SetAttemptUnknown, SteerRows;
    var x := s.core.actions[id];
    var to := SteerDisposition(answer);
    assert SteerOwed(s, id);
    SteerRowsKeepQueue(s, id, to);
    var s1 := SteerRows(s, x.message, to);
    if to.Unknown? {
      var s2 := SetAttemptUnknown(s1, x.reference, Effects.Unknown).value;
      SteeredRequestLeft(s, id);
      UnknownTouches(s1, x.reference, Effects.Unknown, s2);
      TouchKeepsQueue(s1, s2, x.reference.attempt, x.reference.request);
      SameQueueKeeps(s1, s2);
      SameIsSameQueue(s2, t);
      SameQueueKeeps(s2, t);
    } else {
      SameIsSameQueue(s1, t);
      SameQueueKeeps(s1, t);
    }
  }

  // after an unknown steer the steered request is no longer queued
  lemma SteeredRequestLeft(s: State, id: Id)
    requires ActionsOk(s) && id in s.core.actions && s.core.actions[id].kind.Steer?
    requires s.core.actions[id].message in s.core.messages && s.core.messages[s.core.actions[id].message].request.Some?
    ensures !IsQueued(SteerRows(s, s.core.actions[id].message, Disposition.Unknown), s.core.actions[id].reference.request)
  {
    assert ActionOk(s, id);
  }

  lemma ResponseKeepsQueue(s: State, action: Action, answer: Answer, t: State)
    requires Queue(s) && FinishResponse(s, action, answer) == Some(t) && !IsQueued(s, action.reference.request)
    ensures Queue(t)
  {
    hide CountOk, QueuedMessages, SteeredMessages, SameQueue, SetAttemptUnknown;
    var s1 := AnswerRows(s, action, AnswerRow(answer));
    SameIsSameQueue(s, s1);
    SameQueueKeeps(s, s1);
    if AnswerRow(answer).Unknown? {
      UnknownTouches(s1, action.reference, Effects.Unknown, t);
      TouchKeepsQueue(s1, t, action.reference.attempt, action.reference.request);
      SameQueueKeeps(s1, t);
    } else {
      SameIsSameQueue(s, t);
      SameQueueKeeps(s, t);
    }
  }

  lemma StartedKeepsQueue(s: State, reference: AttemptRef, t: State)
    requires Queue(s) && MarkStarted(s, reference) == Some(t) && !IsQueued(s, reference.request)
    ensures Queue(t)
  {
    assert SameQueue(s, t);
    SameQueueKeeps(s, t);
  }

  lemma OwnRequestLeft(s: State, id: Id)
    requires Base(s) && id in s.core.actions && !s.core.actions[id].kind.Steer?
    ensures !IsQueued(s, s.core.actions[id].reference.request)
  {
    assert ActionOk(s, id) && AttemptOk(s, s.core.actions[id].reference.attempt);
  }

  lemma SettleKeepsPending(s: State, id: Id, commit: bool)
    requires Base(s) && Queue(s) && !Breaks(s, Commit(id, commit))
    ensures Keeps(s, Settle(s, id, commit))
  {
    hide Observed, MarkStarted, FinishSteer, FinishResponse, MarkAttemptUnknown, ObserveRejected, CountOk, QueuedMessages, SteeredMessages;
    hide SameQueue, AttemptsOk, RequestsOk, MessagesOk, RowsOk, SlotOk, StartsOk, Barrier;
    var u := Settle(s, id, commit);
    if id in s.run.workers && id in s.core.actions && s.run.workers[id].Answered? {
      var action := s.core.actions[id];
      var reference := action.reference;
      var answer := s.run.workers[id].answer;
      var (t, phase) := SettleAction(s, id, answer, commit);
      SettledKeepsQueue(s, id, answer, commit);
      if AnswersDeclared(s) {
        SettleKeepsAnswers(s, id, commit);
      }
      SameIsSameQueue(t, u);
      SameQueueKeeps(t, u);
    }
  }

  lemma SettleKeepsAnswers(s: State, id: Id, commit: bool)
    requires WorkersOk(s) && AnswersDeclared(s) && id in s.run.workers && s.run.workers[id].Answered?
    ensures AnswersDeclared(Settle(s, id, commit))
  {
    hide Persists, Settle;
    SettleMovesOneWorker(s, id, commit);
    SettlePersists(s, id, commit);
    PersistsKinds(s, Settle(s, id, commit));
    SettledPhase(s, id, s.run.workers[id].answer, commit);
  }

  lemma PersistsKinds(s: State, t: State)
    requires Persists(s, t) == true
    ensures forall c :: c in s.core.actions ==> c in t.core.actions && t.core.actions[c].kind == s.core.actions[c].kind
  {
  }

  lemma SettledPhase(s: State, id: Id, answer: Answer, commit: bool)
    requires id in s.core.actions
    ensures var phase := SettleAction(s, id, answer, commit).1;
      phase.Finishing? || (phase.Answered? && (phase.answer.Error? || phase.answer.Uncertain?))
  {
    hide MarkStarted, FinishSteer, FinishResponse, MarkAttemptUnknown, ObserveRejected;
  }

  lemma SettledKeepsQueue(s: State, id: Id, answer: Answer, commit: bool)
    requires Base(s) && Queue(s) && id in s.run.workers && s.run.workers[id] == Answered(answer)
    requires !Breaks(s, Commit(id, commit))
    ensures Queue(SettleAction(s, id, answer, commit).0)
  {
    hide Observed, MarkStarted, FinishSteer, FinishResponse, MarkAttemptUnknown, ObserveRejected, CountOk, QueuedMessages, SteeredMessages;
    hide SameQueue;
    var action := s.core.actions[id];
    var reference := action.reference;
    var t := SettleAction(s, id, answer, commit).0;
    assert ActionOk(s, id);
    if t != s {
      if action.kind.Steer? && Declared(ActionKind.Steer, answer) {
        SteeredKeepsQueue(s, id, answer, t);
      } else if action.kind.Steer? {
        MarkedBySlot(s, reference);
        MarkedKeepsQueue(s, reference, t);
      } else {
        OwnRequestLeft(s, id);
        if action.kind.DispatchStart? && answer.Accepted? {
          StartedKeepsQueue(s, reference, t);
        } else if action.kind.DispatchStart? && answer.Rejected? {
          assert StartAhead(s, id);
          RejectionObserved(s, reference);
          ObservedKeepsQueue(s, t, reference.attempt, reference.request);
        } else if t == MarkAttemptUnknown(s, reference) {
          MarkObserved(s, reference);
          ObservedKeepsQueue(s, t, reference.attempt, reference.request);
        } else {
          ResponseKeepsQueue(s, action, answer, t);
        }
      }
    }
  }

  lemma MarkedBySlot(s: State, reference: AttemptRef)
    ensures MarkAttemptUnknown(s, reference) != s ==> s.node.slot == Some(reference.attempt)
  {
    hide SetAttemptUnknown;
  }

  // the first commit of a protocol fault, when the request it names has left the queue
  lemma MarkedKeepsQueue(s: State, reference: AttemptRef, t: State)
    requires Queue(s) && t == MarkAttemptUnknown(s, reference) && t != s
    requires s.node.slot == Some(reference.attempt) && reference.attempt in s.core.attempts
    requires !s.core.attempts[reference.attempt].state.Unknown? && s.core.attempts[reference.attempt].generation == reference.generation ==>
               !IsQueued(s, reference.request)
    ensures Queue(t)
  {
    hide Queue, SameQueue, Touch, Calm;
    UnknownTouches(s, reference, Effects.Unknown, t);
    TouchKeepsQueue(s, t, reference.attempt, reference.request);
    SameKeepsQueue(s, t);
  }

  lemma SameKeepsQueue(s: State, t: State)
    requires Queue(s) && SameQueue(s, t) == true
    ensures Queue(t)
  {
    SameQueueKeeps(s, t);
  }

  lemma ObservedKeepsQueue(s: State, t: State, a: Id, q: Id)
    requires Queue(s) && Observed(s, t, a, q) == true && !IsQueued(s, q)
    ensures Queue(t)
  {
    hide CountOk, QueuedMessages, SteeredMessages, SameQueue, Touch, Calm;
    TouchKeepsQueue(s, t, a, q);
    SameQueueKeeps(s, t);
  }

  lemma RestartKeepsPending(s: State)
    requires Base(s) && Queue(s)
    ensures Keeps(s, Restart(s))
  {
    hide SetAttemptUnknown, CountOk, QueuedMessages, SteeredMessages, SameQueue, AttemptsOk, RequestsOk, MessagesOk, ActionsOk, RowsOk;
    hide WorkersOk, StartsOk, Barrier;
    var s1 := s.(core := s.core.(actions := AbandonAll(s.core.actions)), run := s.run.(workers := map[], gate := None, peeked := None));
    AbandonKeepsQueue(s, s1);
    SameQueueKeeps(s, s1);
    if s.node.slot.Some? {
      var a := s.node.slot.value;
      var reference := Reference(s1, a);
      var r := SetAttemptUnknown(s1, reference, Effects.Unknown);
      if r.Some? {
        SlotRequestLeft(s);
        UnknownTouches(s1, reference, Effects.Unknown, r.value);
        TouchKeepsQueue(s1, r.value, a, reference.request);
        SameQueueKeeps(s1, r.value);
        TouchKeepsRun(s1, r.value, a, reference.request);
      }
    }
  }

  lemma SlotRequestLeft(s: State)
    requires Base(s) && s.node.slot.Some?
    ensures s.node.slot.value in s.core.attempts && !IsQueued(s, s.core.attempts[s.node.slot.value].request)
  {
    assert AttemptOk(s, s.node.slot.value);
  }

  lemma TouchKeepsRun(s: State, t: State, a: Id, q: Id)
    requires Touch(s, t, a, q) == true
    ensures t.run == s.run
  {
  }

  lemma AbandonKeepsQueue(s: State, t: State)
    requires t.core == s.core.(actions := AbandonAll(s.core.actions)) && t.node == s.node
    ensures SameQueue(s, t)
  {
  }

  // ----- every step, every run -----

  // Every step that does not break it keeps the count right, with what it needs.
  lemma NextKeepsPending(s: State, step: Step)
    requires Base(s) && Slotted(s) && Queue(s) && !Breaks(s, step)
    ensures Queue(Next(s, step))
    ensures AnswersDeclared(s) && Declares(s, step) ==> AnswersDeclared(Next(s, step))
  {
    hide Base, Slotted, Queue, AnswersDeclared, Observed, SubmitCommand, DispatchCandidate, Claim, TakeAnswer, Settle, FinishAction, Restart;
    hide Breaks;
    match step
    case Submit(id, command, drawn) => SubmitKeepsPending(s, id, command, drawn);
    case DispatchNext(attempt, generation) => CandidateKeepsPending(s, attempt, generation);
    case ClaimAction(lane, action) => ClaimKeepsPending(s, lane, action);
    case Reply(action, answer) => ReplyKeepsPending(s, action, answer);
    case Commit(action, commit) => SettleKeepsPending(s, action, commit);
    case Finish(action, commit) => FinishKeepsPending(s, action, commit);
    case CrashAndRestart => RestartKeepsPending(s);
    case _ => OtherStepsKeepPending(s, step);
  }

  lemma OtherStepsKeepPending(s: State, step: Step)
    requires Base(s) && Queue(s) && !step.Reply? && (Observing(step) || Still(step))
    ensures Keeps(s, Next(s, step))
  {
    hide Base, CountOk, QueuedMessages, SteeredMessages, SameQueue, AnswersDeclared, Observed, Next;
    var t := Next(s, step);
    if Observing(step) {
      ObservingStep(s, step);
      if t != s {
        CurrentRequestLeft(s, step.reference);
        ObservedKeepsQueue(s, t, step.reference.attempt, step.reference.request);
        if AnswersDeclared(s) {
          ObservedKeepsAnswers(s, t, step.reference.attempt, step.reference.request);
        }
      }
    } else {
      StillTables(s, step);
      SameIsSameQueue(s, t);
      SameQueueKeeps(s, t);
      if AnswersDeclared(s) {
        StillKeepsAnswers(s, step);
      }
    }
  }

  lemma CurrentRequestLeft(s: State, reference: AttemptRef)
    requires Base(s) && Current(s, reference)
    ensures !IsQueued(s, reference.request)
  {
    assert AttemptOk(s, reference.attempt);
  }

  lemma ObservedKeepsAnswers(s: State, t: State, a: Id, q: Id)
    requires Base(s) && AnswersDeclared(s) && Observed(s, t, a, q) == true
    ensures AnswersDeclared(t)
  {
  }

  lemma StillKeepsAnswers(s: State, step: Step)
    requires Still(step) && !step.Reply? && AnswersDeclared(s)
    ensures AnswersDeclared(Next(s, step))
  {
    hide NextInQueue, DialogSettled, HasEnded, PreStart, ScopeTaken;
    StillTables(s, step);
  }

  ghost predicate DeclaredRun(s: State, steps: seq<Step>) {
    steps == [] || (DeclaredRun(s, steps[..|steps| - 1]) && Declares(Run(s, steps[..|steps| - 1]), steps[|steps| - 1]))
  }

  // In every run whose steer calls answer as declared, whoever responds to what, the pending count is
  // the number of queued requests and stays within the capacity; a message whose steer is owed never
  // lost its place in the queue.
  lemma {:induction false} PendingCountIsExact(registryVersion: int, steps: seq<Step>)
    requires DeclaredRun(Init(registryVersion), steps)
    ensures var s := Run(Init(registryVersion), steps);
      && Queue(s) && AnswersDeclared(s) && UnbrokenRun(Init(registryVersion), steps)
      && s.node.pendingCount == |QueuedSet(s)| && 0 <= s.node.pendingCount <= QUEUE_CAPACITY
  {
    hide Init, Next;
    if steps == [] {
      InitIsPending(registryVersion);
    } else {
      var shorter := steps[..|steps| - 1];
      PendingCountIsExact(registryVersion, shorter);
      OneLiveAttempt(registryVersion, shorter);
      RunKeepsBase(registryVersion, shorter);
      DeclaredNeverBreaks(Run(Init(registryVersion), shorter), steps[|steps| - 1]);
      NextKeepsPending(Run(Init(registryVersion), shorter), steps[|steps| - 1]);
    }
  }

  // With no assumption about adapters: the count is right all along a run if and only if no step of it is
  // a breaking commit.
  lemma {:induction false} CountIsExactIff(registryVersion: int, steps: seq<Step>)
    ensures (forall k :: 0 <= k <= |steps| ==> CountOk(Run(Init(registryVersion), steps[..k]))) <==> UnbrokenRun(Init(registryVersion), steps)
    ensures UnbrokenRun(Init(registryVersion), steps) ==> Queue(Run(Init(registryVersion), steps))
  {
    hide Init, Next, CountOk, QueuedMessages, SteeredMessages, Breaks;
    var s0 := Init(registryVersion);
    assert steps[..|steps|] == steps;
    if steps == [] {
      InitIsPending(registryVersion);
    } else {
      var shorter := steps[..|steps| - 1];
      CountIsExactIff(registryVersion, shorter);
      assert forall k :: 0 <= k <= |shorter| ==> shorter[..k] == steps[..k];
      if UnbrokenRun(s0, shorter) {
        OneLiveAttempt(registryVersion, shorter);
        RunKeepsBase(registryVersion, shorter);
        CountBreaksIff(Run(s0, shorter), steps[|steps| - 1]);
      }
      forall k | 0 <= k <= |steps|
        ensures k <= |shorter| ==> steps[..k] == shorter[..k]
        ensures k == |steps| ==> steps[..k] == steps
      {
      }
    }
  }

  ghost predicate UnbrokenRun(s: State, steps: seq<Step>) {
    steps == [] || (UnbrokenRun(s, steps[..|steps| - 1]) && !Breaks(Run(s, steps[..|steps| - 1]), steps[|steps| - 1]))
  }

  lemma InitIsPending(registryVersion: int)
    ensures Queue(Init(registryVersion)) && AnswersDeclared(Init(registryVersion))
  {
  }

  lemma DeclaredNeverBreaks(s: State, step: Step)
    requires AnswersDeclared(s)
    ensures !Breaks(s, step)
  {
  }

  // ----- an undeclared steer outcome -----

  // A step commits an undeclared steer answer, whose attempt is in the slot and not yet unknown, while the
  // request that the action names is still queued.
  predicate Breaks(s: State, step: Step) {
    && step.Commit? && step.commit && step.action in s.run.workers && step.action in s.core.actions
    && s.core.actions[step.action].kind.Steer?
    && s.run.workers[step.action].Answered? && !Declared(ActionKind.Steer, s.run.workers[step.action].answer)
    && var x := s.core.actions[step.action].reference;
      && s.node.slot == Some(x.attempt) && x.attempt in s.core.attempts && !s.core.attempts[x.attempt].state.Unknown?
      && s.core.attempts[x.attempt].generation == x.generation
      && IsQueued(s, x.request)
  }

  // A step makes the count wrong if and only if it is such a commit; it then is one too high.
  lemma CountBreaksIff(s: State, step: Step)
    requires Base(s) && Slotted(s) && Queue(s)
    ensures CountOk(Next(s, step)) <==> !Breaks(s, step)
    ensures !Breaks(s, step) ==> Queue(Next(s, step))
    ensures Breaks(s, step) ==> Next(s, step).node.pendingCount == |QueuedSet(Next(s, step))| + 1
  {
    hide Base, Slotted, QueuedMessages, SteeredMessages, Next, Breaks;
    if Breaks(s, step) {
      BreakingCommit(s, step);
    } else {
      NextKeepsPending(s, step);
    }
  }

  lemma BreakingCommit(s: State, step: Step)
    requires Base(s) && Slotted(s) && CountOk(s) && Breaks(s, step)
    ensures Next(s, step).node.pendingCount == |QueuedSet(Next(s, step))| + 1
  {
    hide Base, Slotted, Next, Settle;
    NextCommits(s, step.action);
    FirstCommit(s, step.action);
    var t := Settle(s, step.action, true);
    var q := s.core.actions[step.action].reference.request;
    assert QueuedSet(s) == QueuedSet(t) + {q} && q !in QueuedSet(t);
  }

  // It commits twice. Between the two commits the count is one too high, the second puts it right, and a
  // crash between them, or a second transaction that fails, leaves it wrong.
  lemma UndeclaredSteerIsOffByOne(s: State, id: Id)
    requires Base(s) && Slotted(s) && Queue(s) && Breaks(s, Commit(id, true)) && SteerOwed(s, id)
    ensures var t := Settle(s, id, true); var u := Settle(t, id, true); var failed := Settle(t, id, false);
      && t.node.pendingCount == |QueuedSet(t)| + 1
      && u.node.pendingCount == |QueuedSet(u)|
      && failed.node.pendingCount == |QueuedSet(failed)| + 1 && failed.run.workers[id] == Finishing(ActionStatus.Unknown)
      && Restart(t).node.pendingCount == |QueuedSet(Restart(t))| + 1
  {
    hide Settle, Restart, CountOk, QueuedMessages, SteeredMessages, Slotted;
    var t := Settle(s, id, true);
    var u := Settle(t, id, true);
    FirstCommit(s, id);
    NextCommits(s, id);
    BreakingCommit(s, Commit(id, true));
    assert SteerOwed(t, id);
    SecondCommit(t, id);
    SecondFails(t, id);
    RestartOfUnknown(t);
    assert QueuedSet(u) == QueuedSet(t);
    assert QueuedSet(Restart(t)) == QueuedSet(t);
  }

  // the code ignores the error of the second transaction, and the worker goes on
  lemma SecondFails(s: State, id: Id)
    requires id in s.run.workers && s.run.workers[id] == Answered(Answer.Uncertain) && id in s.core.actions
    requires s.core.actions[id].kind.Steer?
    ensures var u := Settle(s, id, false);
      u.core == s.core && u.node == s.node && id in u.run.workers && u.run.workers[id] == Finishing(ActionStatus.Unknown)
  {
  }

  // the first commit takes the steered request, not the attempt's own, out of the queue
  lemma FirstCommit(s: State, id: Id)
    requires Base(s) && Slotted(s) && Breaks(s, Commit(id, true))
    ensures var t := Settle(s, id, true); var x := s.core.actions[id].reference;
      && t.node.pendingCount == s.node.pendingCount
      && QueuedSet(t) == QueuedSet(s) - {x.request}
      && id in t.run.workers && t.run.workers[id] == Answered(Answer.Uncertain) && t.core.actions == s.core.actions
      && t.core.messages == s.core.messages && t.node.slot == Some(x.attempt)
      && x.attempt in t.core.attempts && t.core.attempts[x.attempt].state.Unknown?
      && t.core.attempts[x.attempt].generation == x.generation
      && x.request in t.core.requests && t.core.requests[x.request].status.Unknown?
      && (SteerOwed(s, id) ==> s.core.messages[s.core.actions[id].message].request == Some(x.request))
  {
    hide MarkStarted, FinishSteer, FinishResponse, ObserveRejected, SetAttemptUnknown;
    var x := s.core.actions[id].reference;
    assert ActionOk(s, id);
    assert !OtherLive(s, x.attempt);
    FirstWrites(s, x);
  }

  // what setAttemptUnknown writes for a reference that names another request than the attempt's own
  lemma FirstWrites(s: State, x: AttemptRef)
    requires x.attempt in s.core.attempts && !s.core.attempts[x.attempt].state.Unknown? && !OtherLive(s, x.attempt)
    requires s.core.attempts[x.attempt].generation == x.generation && IsQueued(s, x.request)
    ensures var r := SetAttemptUnknown(s, x, Effects.Unknown);
      && r.Some? && var t := r.value;
        && t.node.pendingCount == s.node.pendingCount && t.node.slot == Some(x.attempt)
        && QueuedSet(t) == QueuedSet(s) - {x.request}
        && t.run == s.run && t.core.actions == s.core.actions && t.core.messages == s.core.messages
        && x.attempt in t.core.attempts && t.core.attempts[x.attempt].state.Unknown?
        && t.core.attempts[x.attempt].generation == x.generation
        && x.request in t.core.requests && t.core.requests[x.request].status.Unknown?
  {
  }

  lemma SecondCommit(s: State, id: Id)
    requires id in s.run.workers && s.run.workers[id] == Answered(Answer.Uncertain) && id in s.core.actions && SteerOwed(s, id)
    requires var x := s.core.actions[id].reference;
      && x.attempt in s.core.attempts && s.core.attempts[x.attempt].state.Unknown? && s.core.attempts[x.attempt].generation == x.generation
      && x.request in s.core.requests && s.core.requests[x.request].status.Unknown?
      && s.core.messages[s.core.actions[id].message].request == Some(x.request)
    ensures var u := Settle(s, id, true);
      u.node.pendingCount == s.node.pendingCount - 1 && QueuedSet(u) == QueuedSet(s)
  {
    hide MarkStarted, FinishResponse, ObserveRejected, MarkAttemptUnknown;
  }

  lemma RestartOfUnknown(s: State)
    requires s.node.slot.Some? && s.node.slot.value in s.core.attempts && s.core.attempts[s.node.slot.value].state.Unknown?
    ensures Restart(s).node.pendingCount == s.node.pendingCount && QueuedSet(Restart(s)) == QueuedSet(s)
  {
  }
}
