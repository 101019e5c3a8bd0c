// What the history replica relies on: the rows it exports are there with the facts it derives from
// them, and no later step changes those facts.
module HarnessHistory {
  import opened Common
  import opened OutputBudget
  import opened HarnessState
  import opened HarnessObserve
  import opened HarnessFrame
  import opened HarnessAdmission
  import opened HarnessHold
  import opened HarnessActions
  import opened HarnessStep
  import opened HarnessInvariant

  // some event names the message
  ghost predicate Announced(events: seq<EventRow>, m: Id) {
    exists i :: 0 <= i < |events| && events[i].entity == m
  }

  predicate Knows(s: State, a: Id) {
    a in s.core.attempts
  }

  ghost predicate HistoryOk(s: State) {
    && (forall r :: r in s.core.requests ==> RequestAnnounced(s, r))
    && (forall m :: m in s.core.messages && s.core.messages[m].content.Some? ==> AssistantOk(s, m))
    && (forall i :: 0 <= i < |s.log.events| && s.log.events[i].attempt.Some? ==> Knows(s, s.log.events[i].attempt.value))
  }

  // a request's message is a user message, accepted with an event
  ghost predicate RequestAnnounced(s: State, r: Id)
    requires r in s.core.requests
  {
    var m := s.core.requests[r].message;
    m in s.core.messages && s.core.messages[m].content.None? && Announced(s.log.events, m)
  }

  // an assistant message belongs to an attempt and was reported by an event
  ghost predicate AssistantOk(s: State, m: Id)
    requires m in s.core.messages
  {
    && s.core.messages[m].disposition.Unset?
    && s.core.messages[m].attempt.Some? && Knows(s, s.core.messages[m].attempt.value)
    && Announced(s.log.events, m)
  }

  // what a step adds, seen from the replica
  ghost predicate Extends(s: State, t: State) {
    && s.log.events <= t.log.events
    && (forall a :: Knows(s, a) ==> Knows(t, a))
    && (forall r :: r in s.core.requests ==> r in t.core.requests && t.core.requests[r].message == s.core.requests[r].message)
    && (forall m :: m in s.core.messages ==> m in t.core.messages && t.core.messages[m].content == s.core.messages[m].content)
    && (forall i :: |s.log.events| <= i < |t.log.events| ==> NewEventOk(s, t, i))
    && (forall m :: m in s.core.messages && s.core.messages[m].content.Some? ==> m in t.core.messages && t.core.messages[m] == s.core.messages[m])
    && (forall m :: m in t.core.messages && m !in s.core.messages && t.core.messages[m].content.Some? ==> AssistantOk(t, m))
    && (forall r :: r in t.core.requests && r !in s.core.requests ==> RequestAnnounced(t, r))
  }

  ghost predicate NewEventOk(s: State, t: State, i: nat)
    requires i < |t.log.events|
  {
    && (t.log.events[i].attempt.Some? ==> Knows(t, t.log.events[i].attempt.value))
    && (t.log.events[i].kind.DispositionChanged? ==> exists r :: r in s.core.requests && s.core.requests[r].message == t.log.events[i].entity)
  }

  lemma ExtendsKeepsHistory(s: State, t: State)
    requires HistoryOk(s) && Extends(s, t)
    ensures HistoryOk(t)
  {
    forall r | r in t.core.requests ensures RequestAnnounced(t, r) {
      if r in s.core.requests {
        assert RequestAnnounced(s, r);
        StillAnnounced(s.log.events, t.log.events, s.core.requests[r].message);
      }
    }
    forall m | m in t.core.messages && t.core.messages[m].content.Some? ensures AssistantOk(t, m) {
      if m in s.core.messages {
        assert AssistantOk(s, m);
        StillAnnounced(s.log.events, t.log.events, m);
      }
    }
    forall i | 0 <= i < |t.log.events| && t.log.events[i].attempt.Some? ensures Knows(t, t.log.events[i].attempt.value) {
      if i < |s.log.events| {
        assert t.log.events[i] == s.log.events[i];
      } else {
        assert NewEventOk(s, t, i);
      }
    }
  }

  lemma StillAnnounced(before: seq<EventRow>, after: seq<EventRow>, m: Id)
    requires Announced(before, m) && before <= after
    ensures Announced(after, m)
  {
    var i :| 0 <= i < |before| && before[i].entity == m;
    assert after[i] == before[i];
  }

  lemma ExtendsThenExtends(s: State, t: State, u: State)
    requires Extends(s, t) && Extends(t, u)
    requires forall r :: r in t.core.requests ==> r in s.core.requests && s.core.requests[r].message == t.core.requests[r].message
    ensures Extends(s, u)
  {
    forall i | |s.log.events| <= i < |u.log.events| ensures NewEventOk(s, u, i) {
      if i < |t.log.events| {
        assert NewEventOk(s, t, i) && u.log.events[i] == t.log.events[i];
      } else {
        assert NewEventOk(t, u, i);
      }
    }
    forall m | m in u.core.messages && m !in s.core.messages && u.core.messages[m].content.Some? ensures AssistantOk(u, m) {
      if m in t.core.messages {
        assert AssistantOk(t, m);
        StillAnnounced(t.log.events, u.log.events, m);
      }
    }
  }

  // ----- steps that add no message, request or event -----

  lemma SameIsExtension(s: State, t: State)
    requires t.core.messages == s.core.messages && t.core.requests == s.core.requests && t.log.events == s.log.events
    requires forall a :: a in s.core.attempts ==> a in t.core.attempts
    ensures Extends(s, t)
  {
    assert forall a :: Knows(s, a) ==> Knows(t, a);
  }

  lemma ThenSame(s: State, t: State, u: State)
    requires Extends(s, t) && u.core == t.core && u.log.events == t.log.events
    ensures Extends(s, u)
  {
    assert forall a :: Knows(u, a) == Knows(t, a);
    assert forall i :: |s.log.events| <= i < |u.log.events| ==> NewEventOk(s, t, i) == NewEventOk(s, u, i);
  }

  // ----- commands -----

  lemma QueueCommandExtends(s: State, id: Id, command: Command, drawn: Drawn, t: State)
    requires command.CreateDialog? || command.ResumeQueue? || command.EnqueueMessage?
    requires ApplyCommand(s, id, command, drawn) == Some(t)
    ensures Extends(s, t)
  {
    if command.EnqueueMessage? {
      assert t.log.events[|s.log.events|].entity == drawn.first;
    }
  }

  lemma CancelExtends(s: State, r: Id, v: int, t: State)
    requires HistoryOk(s) && ApplyRequestCancel(s, r, v) == Some(t)
    ensures Extends(s, t)
  {
    assert RequestAnnounced(s, r);
    assert forall m :: m in s.core.messages && s.core.messages[m].content.Some? ==> AssistantOk(s, m);
  }

  lemma SteerExtends(s: State, c: Id, d: Id, a: Id, m: Id, g: int, v: int, t: State)
    requires HistoryOk(s) && MessagesOk(s) && ApplyMessageSteer(s, c, d, a, m, g, v) == Some(t)
    ensures Extends(s, t)
  {
    assert s.core.requests[s.core.messages[m].request.value].message == m;
    assert forall x :: x in s.core.messages && s.core.messages[x].content.Some? ==> AssistantOk(s, x);
  }

  lemma StopExtends(s: State, c: Id, a: Id, g: int, t: State)
    requires ApplyAttemptStop(s, c, a, g) == Some(t)
    ensures Extends(s, t)
  {
  }

  lemma RetryExtends(s: State, a: Id, g: int, acknowledge: bool, request: Id, t: State)
    requires HistoryOk(s) && ApplyAttemptRetry(s, a, g, acknowledge, request) == Some(t)
    ensures Extends(s, t)
  {
    hide RetryPending;
    assert RequestAnnounced(s, s.core.attempts[a].request);
    StillAnnounced(s.log.events, t.log.events, s.core.requests[s.core.attempts[a].request].message);
  }

  lemma AnswerCommandExtends(s: State, id: Id, command: Command, drawn: Drawn, t: State)
    requires command.RespondApproval? || command.RespondInput?
    requires ApplyCommand(s, id, command, drawn) == Some(t)
    ensures Extends(s, t)
  {
  }

  lemma SubmitExtends(s: State, id: Id, command: Command, drawn: Drawn)
    requires HistoryOk(s) && MessagesOk(s)
    ensures Extends(s, SubmitCommand(s, id, command, drawn).0)
  {
    hide HistoryOk, MessagesOk, Extends, Authorized, CoveredByHold;
    hide ApplyMessageEnqueue, ApplyRequestCancel, ApplyAttemptStop, ApplyAttemptRetry, ApplyMessageSteer, ApplyApproval, ApplyInput;
    var (t, reply) := SubmitCommand(s, id, command, drawn);
    if reply.Admitted? {
      var r := ApplyCommand(s, id, command, drawn).value;
      match command {
        case CancelRequest(q, v) => CancelExtends(s, q, v, r);
        case StopAttempt(a, g) => StopExtends(s, id, a, g, r);
        case SteerMessage(d, a, m, g, v) => SteerExtends(s, id, d, a, m, g, v, r);
        case RetryAttempt(a, g, ack) => RetryExtends(s, a, g, ack, drawn.first, r);
        case RespondApproval(_, _, _, _, _, _) => AnswerCommandExtends(s, id, command, drawn, r);
        case RespondInput(_, _, _, _, _) => AnswerCommandExtends(s, id, command, drawn, r);
        case DeleteDialog(_, _) =>
        case _ => QueueCommandExtends(s, id, command, drawn, r);
      }
      ThenSame(s, r, t);
    } else {
      SameIsExtension(s, t);
    }
  }

  // ----- dispatch and answers -----

  lemma DispatchExtends(s: State, candidate: Candidate, attempt: Id, generation: int, t: State)
    requires HistoryOk(s) && Dispatch(s, candidate, attempt, generation) == Some(t)
    ensures Extends(s, t)
  {
    hide NextGeneration;
    assert RequestAnnounced(s, candidate.request);
    assert forall m :: m in s.core.messages && s.core.messages[m].content.Some? ==> AssistantOk(s, m);
  }

  lemma CandidateExtends(s: State, attempt: Id, generation: int)
    requires HistoryOk(s)
    ensures Extends(s, DispatchCandidate(s, attempt, generation))
  {
    hide HistoryOk, Extends, Dispatch;
    var t := DispatchCandidate(s, attempt, generation);
    if s.run.peeked.Some? && Dispatch(s, s.run.peeked.value, attempt, generation).Some? {
      var r := Dispatch(s, s.run.peeked.value, attempt, generation).value;
      DispatchExtends(s, s.run.peeked.value, attempt, generation, r);
      ThenSame(s, r, t);
    } else {
      SameIsExtension(s, t);
    }
  }

  // a transaction that inserts no message
  lemma TouchExtends(s: State, t: State, a: Id, q: Id)
    requires Touch(s, t, a, q) == true
    requires forall m :: m in t.core.messages && m !in s.core.messages ==> AssistantOk(t, m)
    ensures Extends(s, t)
  {
    forall i | |s.log.events| <= i < |t.log.events| ensures NewEventOk(s, t, i) {
      assert OwnEvents(s.log.events, t.log.events, a);
    }
  }

  lemma UnknownExtends(s: State, reference: AttemptRef, effects: Effects, t: State)
    requires SetAttemptUnknown(s, reference, effects) == Some(t)
    ensures Extends(s, t)
  {
    UnknownTouches(s, reference, effects, t);
    UnknownKeepsMessages(s, reference, effects, t);
    TouchExtends(s, t, reference.attempt, reference.request);
  }

  lemma UnknownKeepsMessages(s: State, reference: AttemptRef, effects: Effects, t: State)
    requires SetAttemptUnknown(s, reference, effects) == Some(t)
    ensures t.core.messages == s.core.messages
    ensures forall r :: r in t.core.requests ==> r in s.core.requests && t.core.requests[r].message == s.core.requests[r].message
  {
  }

  lemma MarkExtends(s: State, reference: AttemptRef)
    ensures Extends(s, MarkAttemptUnknown(s, reference))
  {
    hide Extends, SetAttemptUnknown;
    SameIsExtension(s, s);
    var r := SetAttemptUnknown(s, reference, Effects.Unknown);
    if r.Some? {
      UnknownExtends(s, reference, Effects.Unknown, r.value);
    }
  }

  lemma StartExtends(s: State, reference: AttemptRef)
    ensures var r := MarkStarted(s, reference); r.Some? ==> Extends(s, r.value)
  {
    var r := MarkStarted(s, reference);
    if r.Some? {
      StartedTables(s, reference, r.value);
      assert forall a :: Knows(s, a) ==> Knows(r.value, a);
      assert Knows(r.value, reference.attempt);
    }
  }

  lemma StartedTables(s: State, reference: AttemptRef, t: State)
    requires MarkStarted(s, reference) == Some(t)
    ensures t.core.messages == s.core.messages && reference.attempt in t.core.attempts
    ensures forall a :: a in s.core.attempts ==> a in t.core.attempts
    ensures forall r :: r in t.core.requests <==> r in s.core.requests
    ensures forall r :: r in s.core.requests ==> t.core.requests[r].message == s.core.requests[r].message
    ensures |t.log.events| == |s.log.events| + 2 && s.log.events <= t.log.events
    ensures var e := t.log.events[|s.log.events|]; e.attempt == Some(reference.attempt) && !e.kind.DispositionChanged?
    ensures var e := t.log.events[|s.log.events| + 1]; e.attempt.None? && !e.kind.DispositionChanged?
  {
  }

  lemma RejectionExtends(s: State, reference: AttemptRef)
    requires Current(s, reference) && (s.node.slot == Some(reference.attempt) ==> !s.core.attempts[reference.attempt].started)
    ensures Extends(s, ObserveRejected(s, reference.attempt, reference.generation))
  {
    hide Touch, Calm;
    RejectionObserved(s, reference);
    RejectionKeepsMessages(s, reference);
    TouchExtends(s, ObserveRejected(s, reference.attempt, reference.generation), reference.attempt, reference.request);
  }

  lemma RejectionKeepsMessages(s: State, reference: AttemptRef)
    ensures ObserveRejected(s, reference.attempt, reference.generation).core.messages == s.core.messages
  {
  }

  lemma SteerRowsExtend(s: State, message: Id, to: Disposition)
    requires HistoryOk(s) && MessagesOk(s) && message in s.core.messages && s.core.messages[message].disposition.SteerPending?
    requires s.core.messages[message].request.Some?
    ensures Extends(s, SteerRows(s, message, to))
    ensures forall r :: r in SteerRows(s, message, to).core.requests ==>
              r in s.core.requests && SteerRows(s, message, to).core.requests[r].message == s.core.requests[r].message
  {
    var request: Id := s.core.messages[message].request.value;
    var t := SteerRows(s, message, to);
    assert request in s.core.requests && s.core.requests[request].message == message;
    assert forall x :: x in s.core.messages && s.core.messages[x].content.Some? ==> AssistantOk(s, x);
    forall i | |s.log.events| <= i < |t.log.events| ensures NewEventOk(s, t, i) {
      assert t.log.events[i].entity == message && t.log.events[i].attempt.None?;
      assert s.core.requests[request].message == t.log.events[i].entity;
    }
  }

  lemma FinishSteerExtends(s: State, reference: AttemptRef, message: Id, answer: Answer)
    requires HistoryOk(s) && MessagesOk(s)
    ensures var r := FinishSteer(s, reference, message, answer); r.Some? ==> Extends(s, r.value)
  {
    hide HistoryOk, MessagesOk, Extends, SteerRows, SetAttemptUnknown;
    var r := FinishSteer(s, reference, message, answer);
    if r.Some? {
      var to := SteerDisposition(answer);
      var s1 := SteerRows(s, message, to);
      SteerRowsExtend(s, message, to);
      if to.Unknown? {
        var s2 := SetAttemptUnknown(s1, reference, Effects.Unknown).value;
        UnknownExtends(s1, reference, Effects.Unknown, s2);
        ExtendsThenExtends(s, s1, s2);
        ThenNodeEvents(s, s2, r.value);
      } else {
        ThenNodeEvents(s, s1, r.value);
      }
    }
  }

  lemma ThenNodeEvents(s: State, t: State, u: State)
    requires Extends(s, t) && u.core == t.core && t.log.events <= u.log.events
    requires forall i :: |t.log.events| <= i < |u.log.events| ==> u.log.events[i].attempt.None? && !u.log.events[i].kind.DispositionChanged?
    ensures Extends(s, u)
  {
    forall i | |s.log.events| <= i < |u.log.events| ensures NewEventOk(s, u, i) {
      if i < |t.log.events| {
        assert NewEventOk(s, t, i) && u.log.events[i] == t.log.events[i];
      }
    }
    forall m | m in u.core.messages && m !in s.core.messages && u.core.messages[m].content.Some? ensures AssistantOk(u, m) {
      assert AssistantOk(t, m);
      StillAnnounced(t.log.events, u.log.events, m);
    }
    forall r | r in u.core.requests && r !in s.core.requests ensures RequestAnnounced(u, r) {
      assert RequestAnnounced(t, r);
      StillAnnounced(t.log.events, u.log.events, t.core.requests[r].message);
    }
  }

  lemma FinishResponseExtends(s: State, action: Action, answer: Answer)
    requires action.reference.attempt in s.core.attempts
    ensures var r := FinishResponse(s, action, answer); r.Some? ==> Extends(s, r.value)
  {
    hide Extends, SetAttemptUnknown, AnswerRows;
    var r := FinishResponse(s, action, answer);
    if r.Some? {
      var s1 := AnswerRows(s, action, AnswerRow(answer));
      AnswerRowsSame(s, action, AnswerRow(answer));
      SameIsExtension(s, s1);
      if AnswerRow(answer).Unknown? {
        UnknownExtends(s1, action.reference, Effects.Unknown, r.value);
        ExtendsThenExtends(s, s1, r.value);
      } else if AnswerRow(answer).Resolved? {
        ResolvedExtends(s, s1, action, if action.kind.Approval? then ApprovalResolved else InputResolved, r.value);
      }
    }
  }

  lemma AnswerRowsSame(s: State, action: Action, status: AnswerStatus)
    ensures var t := AnswerRows(s, action, status); t.core == s.core && t.log == s.log
  {
  }

  lemma ResolvedExtends(s: State, s1: State, action: Action, kind: EventKind, t: State)
    requires s1.core == s.core && s1.log == s.log && action.reference.attempt in s.core.attempts
    requires kind.ApprovalResolved? || kind.InputResolved?
    requires t == Emit(s1, kind, action.subject, action.subjectVersion, Some(action.reference.attempt), Some(action.reference.dialog), false)
    ensures Extends(s, t)
  {
    assert Knows(t, action.reference.attempt);
    assert forall a :: Knows(s, a) ==> Knows(t, a);
  }

  lemma SettleExtends(s: State, id: Id, commit: bool)
    requires Base(s) && HistoryOk(s)
    ensures Extends(s, Settle(s, id, commit))
  {
    hide HistoryOk, AttemptsOk, RequestsOk, MessagesOk, RowsOk, SlotOk, Barrier;
    hide Extends, MarkStarted, FinishSteer, FinishResponse, MarkAttemptUnknown, ObserveRejected;
    SameIsExtension(s, s);
    if id in s.run.workers && id in s.core.actions && s.run.workers[id].Answered? {
      var action := s.core.actions[id];
      assert ActionOk(s, id);
      StartExtends(s, action.reference);
      if action.kind.DispatchStart? {
        assert StartAhead(s, id);
        RejectionExtends(s, action.reference);
      }
      MarkExtends(s, action.reference);
      FinishSteerExtends(s, action.reference, action.message, s.run.workers[id].answer);
      FinishResponseExtends(s, action, s.run.workers[id].answer);
      ThenSame(s, SettleAction(s, id, s.run.workers[id].answer, commit).0, Settle(s, id, commit));
    }
  }

  lemma RestartExtends(s: State)
    ensures Extends(s, Restart(s))
  {
    hide Extends, SetAttemptUnknown;
    var s1 := s.(core := s.core.(actions := AbandonAll(s.core.actions)), run := s.run.(workers := map[], gate := None, peeked := None));
    SameIsExtension(s, s);
    SameIsExtension(s, s1);
    if s.node.slot.Some? && s.node.slot.value in s.core.attempts {
      var r := SetAttemptUnknown(s1, Reference(s1, s.node.slot.value), Effects.Unknown);
      if r.Some? {
        UnknownExtends(s1, Reference(s1, s.node.slot.value), Effects.Unknown, r.value);
        ExtendsThenExtends(s, s1, r.value);
      }
    }
  }

  // ----- observing: a new message is reported by the event projected with it -----

  ghost predicate Reported(s: State, t: State) {
    && s.log.events <= t.log.events
    && forall m :: m in t.core.messages && m !in s.core.messages ==> Announced(t.log.events, m)
  }

  lemma SameMessagesReported(s: State, t: State)
    requires t.core.messages == s.core.messages && s.log.events <= t.log.events
    ensures Reported(s, t)
  {
  }

  lemma StopKeepsMessages(s: State, reference: AttemptRef, stop: Id, t: State)
    requires ScheduleOutputLimitStop(s, reference, stop) == Some(t)
    ensures t.core.messages == s.core.messages && s.log.events <= t.log.events
  {
  }

  lemma RecordAnnounces(s: State, reference: AttemptRef, kind: EventKind, entity: Id, version: int, key: Key, digest: Digest, t: State)
    requires Record(s, reference, kind, entity, version, key, digest) == Some(t)
    ensures t.core == s.core && s.log.events <= t.log.events && Announced(t.log.events, entity)
  {
    assert t.log.events[|s.log.events|].entity == entity;
  }

  lemma RecordEventAnnounces(s: State, reference: AttemptRef, event: AdapterEvent, key: Key, limited: bool, stop: Id, t: State)
    requires RecordEvent(s, reference, event, key, limited, stop) == Some(t)
    ensures t.core.messages == s.core.messages && s.log.events <= t.log.events
    ensures Announced(t.log.events, EntityOf(event, reference.attempt))
  {
    hide Record, ScheduleOutputLimitStop;
    var version := LiveVersion(s, reference.attempt, event);
    var s1 := Record(s, reference, EventKindOf(event), EntityOf(event, reference.attempt), version, key, OfEvent(event)).value;
    RecordAnnounces(s, reference, EventKindOf(event), EntityOf(event, reference.attempt), version, key, OfEvent(event), s1);
    if limited {
      StopKeepsMessages(s1, reference, stop, t);
      StillAnnounced(s1.log.events, t.log.events, EntityOf(event, reference.attempt));
    }
  }

  lemma OutputReported(s: State, reference: AttemptRef, event: AdapterEvent, ids: Ids, t: State)
    requires reference.attempt in s.core.attempts && IsOutput(event) && ProjectOutput(s, reference, event, ids) == Some(t)
    ensures Reported(s, t)
  {
    hide RecordEvent;
    match ChargeProjection(s, reference.attempt, LiveKey(event, 0), event)
    case Drop =>
    case Admit(s1, limited) =>
      var s2 := InsertOutput(s1, reference, event, limited).value;
      RecordEventAnnounces(s2, reference, event, LiveKey(event, 0), limited, ids.stop, t);
  }

  lemma MarkedReported(s: State, reference: AttemptRef, key: Key, digest: Digest, ids: Ids, t: State)
    requires Marked(s, reference, key, digest, ids) == Some(t)
    ensures Reported(s, t)
  {
    hide Record, ScheduleOutputLimitStop;
    var s1 := InsertAssistant(s, reference, ids.marker, OutputLimit).value;
    var s2 := Record(s1, reference, EventKind.AssistantMessage, ids.marker, 1, key, digest).value;
    RecordAnnounces(s1, reference, EventKind.AssistantMessage, ids.marker, 1, key, digest, s2);
    StopKeepsMessages(s2, reference, ids.stop, t);
    StillAnnounced(s2.log.events, t.log.events, ids.marker);
  }

  lemma AskReported(s: State, reference: AttemptRef, event: AdapterEvent, ids: Ids, t: State)
    requires reference.attempt in s.core.attempts
    requires (event.ApprovalRequested? && ProjectApproval(s, reference, event, ids) == Some(t))
          || (event.InputRequested? && ProjectInput(s, reference, event, ids) == Some(t))
    ensures Reported(s, t)
  {
    hide RecordEvent, Marked, ChargeLive;
    var key := LiveKey(event, 0);
    match ChargeProjection(s, reference.attempt, key, event)
    case Drop =>
    case Admit(s1, limited) =>
      if event.ApprovalRequested? && limited {
        MarkedReported(s1, reference, key, OfEvent(event), ids, t);
      } else {
        var rows :=
          if event.ApprovalRequested? then
            s1.rows.(approvals := s1.rows.approvals[event.approval :=
                       ApprovalRow(reference.attempt, event.call, event.actionHash, 1, AnswerStatus.Pending)])
          else s1.rows.(inputs := s1.rows.inputs[event.input := InputRow(reference.attempt, 1, AnswerStatus.Pending)]);
        var s2 := s1.(rows := rows);
        AskKeepsMessages(s2, reference, event, key, limited, ids, t);
      }
  }

  // the event of a question, after the wait it causes unless the output limit was hit
  lemma AskKeepsMessages(s: State, reference: AttemptRef, event: AdapterEvent, key: Key, limited: bool, ids: Ids, t: State)
    requires reference.attempt in s.core.attempts
    requires var w := if limited then Some(s) else TransitionWaiting(s, reference);
      w.Some? && RecordEvent(w.value, reference, event, key, limited, ids.stop) == Some(t)
    ensures t.core.messages == s.core.messages && s.log.events <= t.log.events
  {
    hide RecordEvent;
    var s1 := if limited then s else TransitionWaiting(s, reference).value;
    RecordEventAnnounces(s1, reference, event, key, limited, ids.stop, t);
  }

  lemma EndReported(s: State, reference: AttemptRef, event: AdapterEvent, t: State)
    requires reference.attempt in s.core.attempts && event.Terminal? && event.terminalEffects.Some? && EndAttempt(s, reference, event) == Some(t)
    ensures t.core.messages == s.core.messages && s.log.events <= t.log.events
  {
  }

  lemma ArchiveReported(s: State, reference: AttemptRef, event: AdapterEvent, suppressed: bool, ids: Ids, t: State)
    requires reference.attempt in s.core.attempts && ArchiveEvent(s, reference, event, suppressed, ids) == Some(t)
    ensures t.core.messages == s.core.messages && s.log.events <= t.log.events
  {
    hide Archivable;
  }

  lemma UnknownAppends(s: State, reference: AttemptRef, effects: Effects, t: State)
    requires SetAttemptUnknown(s, reference, effects) == Some(t)
    ensures t.core.messages == s.core.messages && s.log.events <= t.log.events
  {
  }

  lemma TerminalReported(s: State, reference: AttemptRef, event: AdapterEvent, ids: Ids, t: State)
    requires reference.attempt in s.core.attempts && event.Terminal? && ProjectTerminal(s, reference, event, ids) == Some(t)
    ensures Reported(s, t)
  {
    hide ControlOwed, SetAttemptUnknown, ArchiveEvent, EndAttempt, Announced;
    if ControlOwed(s, reference.attempt) || event.terminalEffects.value.Unknown? {
      var s1 := SetAttemptUnknown(s, reference, Effects.Unknown).value;
      UnknownAppends(s, reference, Effects.Unknown, s1);
      ArchiveReported(s1, reference, event, true, ids, t);
    } else if event.outcome.Unknown? {
      UnknownAppends(s, reference, event.terminalEffects.value, t);
    } else {
      EndReported(s, reference, event, t);
    }
  }

  lemma ProjectReported(s: State, reference: AttemptRef, event: AdapterEvent, ids: Ids, t: State)
    requires reference.attempt in s.core.attempts && ProjectEvent(s, reference, event, ids) == Some(t)
    ensures Reported(s, t)
  {
    hide Reported, ProjectOutput, ProjectInput, ProjectApproval, ProjectTerminal, ProjectWaiting, RecordEvent, SetAttemptUnknown;
    match event
    case Started =>
      if t != s {
        RecordEventAnnounces(s, reference, event, Key.Started, false, ids.stop, t);
      }
      SameMessagesReported(s, t);
    case Waiting(_) =>
      WaitingKeepsMessages(s, reference, event, t);
      SameMessagesReported(s, t);
    case ApprovalRequested(_, _, _, _) => AskReported(s, reference, event, ids, t);
    case InputRequested(_, _) => AskReported(s, reference, event, ids, t);
    case Terminal(_, _, _, _, _) => TerminalReported(s, reference, event, ids, t);
    case UnknownReport(effects) =>
      UnknownAppends(s, reference, effects, t);
      SameMessagesReported(s, t);
    case _ => OutputReported(s, reference, event, ids, t);
  }

  lemma WaitingKeepsMessages(s: State, reference: AttemptRef, event: AdapterEvent, t: State)
    requires reference.attempt in s.core.attempts && event.Waiting? && ProjectWaiting(s, reference, event) == Some(t)
    ensures t.core.messages == s.core.messages && s.log.events <= t.log.events
  {
  }

  lemma ReportedThenReported(s: State, t: State, u: State)
    requires Reported(s, t) && Reported(t, u)
    ensures Reported(s, u)
  {
    forall m | m in u.core.messages && m !in s.core.messages ensures Announced(u.log.events, m) {
      if m in t.core.messages {
        StillAnnounced(t.log.events, u.log.events, m);
      }
    }
  }

  lemma ObservingReported(s: State, step: Step)
    requires Observing(step)
    ensures Reported(s, Next(s, step))
  {
    hide Reported, ProjectEvent, ArchiveEvent, StoreArtifact, EffectsUnresolved, StoredOutput, SetAttemptUnknown;
    SameMessagesReported(s, s);
    match step
    case StreamLost(reference) =>
      if Next(s, step) != s {
        UnknownAppends(s, reference, Effects.Unknown, Next(s, step));
        SameMessagesReported(s, Next(s, step));
      }
    case Observe(reference, event, ids) => DeliveryReported(s, reference, event, ids);
    case Ingest(reference, artifact, call, size, ids) => IngestReported(s, reference, artifact, call, size, ids);
    case ReconcileStep(reference, event, message, ids) => ReconcileReported(s, reference, event, message, ids);
  }

  lemma DeliveryReported(s: State, reference: AttemptRef, event: AdapterEvent, ids: Ids)
    ensures Reported(s, ObserveAdapterEvent(s, reference, event, ids))
  {
    hide Reported, ProjectEvent, ArchiveEvent;
    var t := ObserveAdapterEvent(s, reference, event, ids);
    SameMessagesReported(s, s);
    if t != s {
      var row := s.core.attempts[reference.attempt];
      if (row.state.Stopping? || row.state.Unknown?) && Interactive(event) {
        ArchiveReported(s, reference, event, true, ids, t);
        SameMessagesReported(s, t);
      } else if s.node.slot != Some(reference.attempt) || !IsLive(row.state) {
        ArchiveReported(s, reference, event, false, ids, t);
        SameMessagesReported(s, t);
      } else {
        ProjectReported(s, reference, event, ids, t);
      }
    }
  }

  lemma IngestReported(s: State, reference: AttemptRef, artifact: Id, call: Option<Id>, size: nat, ids: Ids)
    ensures Reported(s, StoreArtifact(s, reference, artifact, call, size, ids))
  {
    hide Marked;
    var t := StoreArtifact(s, reference, artifact, call, size, ids);
    if t != s {
      var row := s.core.attempts[reference.attempt];
      var (charge, used) := ChargeLive(row.outputBytes, Sum(ArchivedBytes(s.log.late, reference.attempt)), size);
      var s1 := s.(core := s.core.(attempts := s.core.attempts[reference.attempt := row.(outputBytes := used)]));
      if charge.newlyExceeded {
        MarkedReported(s1, reference, Key.ArtifactLimit, OfMarker(ids.marker), ids, t);
      }
    }
  }

  lemma ReconcileReported(s: State, reference: AttemptRef, event: AdapterEvent, message: Id, ids: Ids)
    ensures Reported(s, Reconcile(s, reference, event, message, ids))
  {
    hide Reported, ProjectEvent, EffectsUnresolved, StoredOutput;
    var t := Reconcile(s, reference, event, message, ids);
    SameMessagesReported(s, s);
    if t != s {
      if event.outcome.Completed? && event.output.Some? && !StoredOutput(s, reference.attempt, event.output.value) {
        var output := AdapterEvent.AssistantMessage(message, event.output.value);
        var s1 := ProjectEvent(s, reference, output, ids).value;
        ProjectReported(s, reference, output, ids, s1);
        ProjectReported(s1, reference, event, ids, t);
        ReportedThenReported(s, s1, t);
      } else {
        ProjectReported(s, reference, event, ids, t);
      }
    }
  }

  lemma ObservingExtends(s: State, step: Step)
    requires Observing(step)
    ensures Extends(s, Next(s, step))
  {
    hide Next, Extends, Touch, Calm;
    SameIsExtension(s, s);
    ObservingStep(s, step);
    ObservingReported(s, step);
    if Next(s, step) != s {
      NewMessagesAreAssistants(s, Next(s, step), step.reference.attempt, step.reference.request);
      TouchExtends(s, Next(s, step), step.reference.attempt, step.reference.request);
    }
  }

  lemma NewMessagesAreAssistants(s: State, t: State, a: Id, q: Id)
    requires Touch(s, t, a, q) == true && Reported(s, t)
    ensures forall m :: m in t.core.messages && m !in s.core.messages ==> AssistantOk(t, m)
  {
    assert Knows(t, a);
  }

  // ----- every step, every run -----

  lemma NextExtends(s: State, step: Step)
    requires Base(s) && HistoryOk(s)
    ensures Extends(s, Next(s, step))
  {
    hide Base, HistoryOk, Extends, Observed, SubmitCommand, DispatchCandidate, Claim, Settle, FinishAction, Restart;
    match step
    case Submit(id, command, drawn) => BaseMessages(s); SubmitExtends(s, id, command, drawn);
    case DispatchNext(attempt, generation) => CandidateExtends(s, attempt, generation);
    case Commit(action, commit) => SettleExtends(s, action, commit);
    case CrashAndRestart => RestartExtends(s);
    case ClaimAction(lane, action) => ClaimExtends(s, lane, action);
    case Finish(action, commit) => FinishExtends(s, action, commit);
    case _ => OtherStepsExtend(s, step);
  }

  lemma BaseMessages(s: State)
    requires Base(s)
    ensures MessagesOk(s)
  {
  }

  lemma ClaimExtends(s: State, lane: Lane, action: Id)
    ensures Extends(s, Claim(s, lane, action))
  {
    hide Extends;
    SameIsExtension(s, Claim(s, lane, action));
  }

  lemma FinishExtends(s: State, id: Id, commit: bool)
    ensures Extends(s, FinishAction(s, id, commit))
  {
    hide Extends;
    SameIsExtension(s, FinishAction(s, id, commit));
  }

  lemma OtherStepsExtend(s: State, step: Step)
    requires Observing(step) || Still(step)
    ensures Extends(s, Next(s, step))
  {
    hide Extends, Next;
    if Observing(step) {
      ObservingExtends(s, step);
    } else {
      StillExtends(s, step);
    }
  }

  // the dialog.deleted and node events of these steps name no attempt
  lemma StillExtends(s: State, step: Step)
    requires Still(step)
    ensures Extends(s, Next(s, step))
  {
    hide Extends, Next;
    SameIsExtension(s, s);
    StillTables(s, step);
    StillEvents(s, step);
    ThenNodeEvents(s, s, Next(s, step));
  }

  lemma StillEvents(s: State, step: Step)
    requires Still(step)
    ensures var t := Next(s, step);
      && s.log.events <= t.log.events
      && forall i :: |s.log.events| <= i < |t.log.events| ==> t.log.events[i].attempt.None? && !t.log.events[i].kind.DispositionChanged?
  {
    hide NextInQueue, DialogSettled, HasEnded, PreStart, ScopeTaken, OutcomeCommand;
  }

  lemma NextKeepsHistory(s: State, step: Step)
    requires Base(s) && HistoryOk(s)
    ensures HistoryOk(Next(s, step))
  {
    hide Base, HistoryOk, Extends, Next;
    NextExtends(s, step);
    ExtendsKeepsHistory(s, Next(s, step));
  }
}
