// What the projection of adapter events, artifacts and reconciliation may change: one relation
// that every transaction of harness/node/observe.go, reconcile.go and artifact.go is proved to meet.
module HarnessFrame {
  import opened Common
  import opened OutputBudget
  import opened HarnessState
  import opened HarnessObserve

  // Only rows of attempt a, its request q, new messages and the node row change.
  ghost predicate Touch(s: State, t: State, a: Id, q: Id) {
    && a in s.core.attempts
    && t.admin == s.admin && t.run == s.run
    && TouchNodeRow(s, t)
    && TouchAttempts(s, t, a) && TouchRequests(s, t, q) && TouchMessages(s, t, a) && TouchActions(s, t, a)
    && TouchRows(s, t, a) && TouchLog(s, t, a)
  }

  ghost predicate TouchNodeRow(s: State, t: State) {
    t.node == s.node.(stateVersion := t.node.stateVersion, readiness := t.node.readiness, occupancy := t.node.occupancy,
                      slot := t.node.slot, blocked := t.node.blocked, nextMessageSequence := t.node.nextMessageSequence)
  }

  ghost predicate TouchAttempts(s: State, t: State, a: Id)
    requires a in s.core.attempts
  {
    && (forall x :: x in t.core.attempts <==> x in s.core.attempts)
    && (forall x :: x in s.core.attempts && x != a ==> t.core.attempts[x] == s.core.attempts[x])
    && var before := s.core.attempts[a]; var after := t.core.attempts[a];
       && after == before.(version := after.version, state := after.state, effects := after.effects, outputBytes := after.outputBytes)
       && (after.state == before.state || !(after.state.Dispatching? || after.state.Running?))
       && (after.state.WaitingInput? ==> before.state.Running? || before.state.WaitingInput?)
       && (IsOver(before.state) ==> IsOver(after.state))
  }

  ghost predicate TouchRequests(s: State, t: State, q: Id) {
    && (forall x :: x in t.core.requests <==> x in s.core.requests)
    && (forall x :: x in s.core.requests ==>
          var before := s.core.requests[x]; var after := t.core.requests[x];
          && after == before.(version := after.version, status := after.status)
          && (after == before
              || (x == q && (after.status.Unknown? || after.status.Completed? || after.status.Failed? || after.status.Interrupted?))))
  }

  ghost predicate TouchMessages(s: State, t: State, a: Id)
    requires a in s.core.attempts
  {
    && (forall m :: m in s.core.messages ==> m in t.core.messages && t.core.messages[m] == s.core.messages[m])
    && (forall m :: m in t.core.messages && m !in s.core.messages ==>
          && t.core.messages[m].dialog == s.core.attempts[a].dialog && t.core.messages[m].disposition.Unset?
          && t.core.messages[m].request.None? && t.core.messages[m].attempt == Some(a) && t.core.messages[m].content.Some?)
  }

  ghost predicate TouchActions(s: State, t: State, a: Id)
    requires a in s.core.attempts
  {
    && (forall c :: c in s.core.actions ==> c in t.core.actions && t.core.actions[c] == s.core.actions[c])
    && (forall c :: c in t.core.actions && c !in s.core.actions ==>
          && t.core.actions[c].kind.Stop? && t.core.actions[c].status.Pending? && t.core.actions[c].reference == Reference(s, a)
          && |s.core.actions| <= t.core.actions[c].row < |t.core.actions|)
    && |s.core.actions| <= |t.core.actions|
  }

  ghost predicate TouchRows(s: State, t: State, a: Id)
    requires a in s.core.attempts
  {
    && (forall x :: x in s.rows.tools ==> x in t.rows.tools && (t.rows.tools[x] == s.rows.tools[x] || (s.rows.tools[x].attempt == a && t.rows.tools[x].attempt == a)))
    && (forall x :: x in t.rows.tools && x !in s.rows.tools ==> t.rows.tools[x].attempt == a)
    && (forall x :: x in s.rows.approvals ==> x in t.rows.approvals && t.rows.approvals[x] == s.rows.approvals[x])
    && (forall x :: x in t.rows.approvals && x !in s.rows.approvals ==> t.rows.approvals[x].attempt == a && s.core.attempts[a].started)
    && (forall x :: x in s.rows.inputs ==> x in t.rows.inputs && t.rows.inputs[x] == s.rows.inputs[x])
    && (forall x :: x in t.rows.inputs && x !in s.rows.inputs ==> t.rows.inputs[x].attempt == a && s.core.attempts[a].started)
    && (forall x :: x in s.rows.artifacts ==> x in t.rows.artifacts && t.rows.artifacts[x] == s.rows.artifacts[x])
    && (forall x :: x in t.rows.artifacts && x !in s.rows.artifacts ==> t.rows.artifacts[x].attempt == a)
  }

  // the attempt has left the states it starts in
  predicate PastStart(s: State, a: Id) {
    a in s.core.attempts && !s.core.attempts[a].state.Dispatching? && !s.core.attempts[a].state.Running?
  }

  // the log grows by events of the attempt or of no attempt, and by no disposition change
  ghost predicate OwnEvents(before: seq<EventRow>, after: seq<EventRow>, a: Id) {
    && before <= after
    && (forall i :: |before| <= i < |after| ==>
          (after[i].attempt == None || after[i].attempt == Some(a)) && !after[i].kind.DispositionChanged?)
  }

  ghost predicate TouchLog(s: State, t: State, a: Id) {
    && (forall k :: k in s.log.projected ==> k in t.log.projected && t.log.projected[k] == s.log.projected[k])
    && (forall k :: k in t.log.projected && k !in s.log.projected ==> k.0 == a)
    && (forall k :: k in t.log.projected && k !in s.log.projected && k.1.Waiting? ==> PastStart(t, a))
    && OwnEvents(s.log.events, t.log.events, a)
    && s.log.late <= t.log.late
    && (forall i :: |s.log.late| <= i < |t.log.late| ==> t.log.late[i].attempt == a)
  }

  // What the guards on the slot add: an attempt that has ended stays as it is, and an attempt ends
  // only with the slot in its hands and no control answer owed.
  ghost predicate Calm(s: State, t: State, a: Id) {
    && a in s.core.attempts && a in t.core.attempts
    && (s.node.slot != Some(a) ==> Quiet(s, t, a))
    && (s.node.slot == Some(a) && IsLive(s.core.attempts[a].state) ==>
          if IsLive(t.core.attempts[a].state) then t.node.slot == Some(a)
          else t.node.slot == None && (ControlOwed(s, a) ==> !s.core.attempts[a].started))
  }

  ghost predicate Quiet(s: State, t: State, a: Id)
    requires a in s.core.attempts && a in t.core.attempts
  {
    && t.core.attempts[a] == s.core.attempts[a].(outputBytes := t.core.attempts[a].outputBytes)
    && t.core.requests == s.core.requests && t.core.actions == s.core.actions
    && t.rows.tools == s.rows.tools && t.rows.approvals == s.rows.approvals && t.rows.inputs == s.rows.inputs
    && t.node.slot == s.node.slot
    && (forall k :: k in t.log.projected && k !in s.log.projected ==> k.1.Archive? || k.1.ArtifactLimit?)
  }

  // ----- composition -----

  lemma TouchNothing(s: State, a: Id, q: Id)
    requires a in s.core.attempts
    ensures Touch(s, s, a, q)
  {
  }

  lemma TouchThenTouch(s: State, t: State, u: State, a: Id, q: Id)
    requires Touch(s, t, a, q) == true == Touch(t, u, a, q)
    ensures Touch(s, u, a, q)
  {
    CoreThenCore(s, t, u, a, q);
    RowsThenRows(s, t, u, a);
  }

  lemma CoreThenCore(s: State, t: State, u: State, a: Id, q: Id)
    requires a in s.core.attempts && TouchAttempts(s, t, a) && TouchAttempts(t, u, a)
    requires TouchRequests(s, t, q) && TouchRequests(t, u, q)
    requires TouchMessages(s, t, a) && TouchMessages(t, u, a) && TouchActions(s, t, a) && TouchActions(t, u, a)
    ensures TouchAttempts(s, u, a) && TouchRequests(s, u, q) && TouchMessages(s, u, a) && TouchActions(s, u, a)
  {
    assert Reference(t, a) == Reference(s, a);
  }

  lemma RowsThenRows(s: State, t: State, u: State, a: Id)
    requires a in s.core.attempts && TouchAttempts(s, t, a) && TouchAttempts(t, u, a)
    requires TouchRows(s, t, a) && TouchRows(t, u, a) && TouchLog(s, t, a) && TouchLog(t, u, a)
    ensures TouchRows(s, u, a) && TouchLog(s, u, a)
  {
  }

  lemma CalmThenCalm(s: State, t: State, u: State, a: Id, q: Id)
    requires Touch(s, t, a, q) && Touch(t, u, a, q) && Calm(s, t, a) && Calm(t, u, a)
    ensures Calm(s, u, a)
  {
    assert ControlOwed(s, a) ==> ControlOwed(t, a) by {
      if ControlOwed(s, a) {
        var c :| c in s.core.actions && s.core.actions[c].reference.attempt == a
          && (s.core.actions[c].kind.Steer? || s.core.actions[c].kind.Approval? || s.core.actions[c].kind.Input?)
          && Owed(s.core.actions[c].status);
        assert c in t.core.actions && t.core.actions[c] == s.core.actions[c];
      }
    }
  }

  // ----- one row at a time -----

  lemma TouchAttempt(s: State, a: Id, q: Id, row: Attempt)
    requires a in s.core.attempts
    requires var before := s.core.attempts[a];
      && row == before.(version := row.version, state := row.state, effects := row.effects, outputBytes := row.outputBytes)
      && (row.state == before.state || !(row.state.Dispatching? || row.state.Running?))
      && (row.state.WaitingInput? ==> before.state.Running? || before.state.WaitingInput?)
      && (IsOver(before.state) ==> IsOver(row.state))
    ensures Touch(s, s.(core := s.core.(attempts := s.core.attempts[a := row])), a, q)
  {
  }

  lemma TouchRequest(s: State, a: Id, q: Id, status: RequestStatus)
    requires a in s.core.attempts
    requires status.Unknown? || status.Completed? || status.Failed? || status.Interrupted?
    ensures Touch(s, SetRequest(s, q, status), a, q)
  {
  }

  lemma TouchNode(s: State, a: Id, q: Id, node: NodeRow, events: seq<EventRow>)
    requires a in s.core.attempts && OwnEvents(s.log.events, events, a)
    requires node == s.node.(stateVersion := node.stateVersion, readiness := node.readiness, occupancy := node.occupancy,
                             slot := node.slot, blocked := node.blocked, nextMessageSequence := node.nextMessageSequence)
    ensures Touch(s, s.(node := node, log := s.log.(events := events)), a, q)
  {
  }

  lemma TouchMessage(s: State, a: Id, q: Id, m: Id, row: Message)
    requires a in s.core.attempts && m !in s.core.messages
    requires row.dialog == s.core.attempts[a].dialog && row.disposition.Unset? && row.request.None?
    requires row.attempt == Some(a) && row.content.Some?
    ensures Touch(s, s.(core := s.core.(messages := s.core.messages[m := row])), a, q)
  {
  }

  lemma TouchStop(s: State, a: Id, q: Id, c: Id)
    requires a in s.core.attempts && c !in s.core.actions
    ensures Touch(s, InsertAction(s, c, ActionKind.Stop, Reference(s, a), 0, 0, 0), a, q)
  {
  }

  lemma TouchTool(s: State, a: Id, q: Id, x: Id, row: ToolCall)
    requires a in s.core.attempts && row.attempt == a && (x in s.rows.tools ==> s.rows.tools[x].attempt == a)
    ensures Touch(s, s.(rows := s.rows.(tools := s.rows.tools[x := row])), a, q)
  {
  }

  lemma TouchAsk(s: State, t: State, a: Id, q: Id)
    requires a in s.core.attempts && s.core.attempts[a].started
    requires t == s.(rows := s.rows.(approvals := t.rows.approvals, inputs := t.rows.inputs))
    requires forall x :: x in s.rows.approvals ==> x in t.rows.approvals && t.rows.approvals[x] == s.rows.approvals[x]
    requires forall x :: x in t.rows.approvals && x !in s.rows.approvals ==> t.rows.approvals[x].attempt == a
    requires forall x :: x in s.rows.inputs ==> x in t.rows.inputs && t.rows.inputs[x] == s.rows.inputs[x]
    requires forall x :: x in t.rows.inputs && x !in s.rows.inputs ==> t.rows.inputs[x].attempt == a
    ensures Touch(s, t, a, q)
  {
  }

  lemma TouchLogRows(s: State, t: State, a: Id, q: Id)
    requires a in s.core.attempts && t == s.(log := t.log) && TouchLog(s, t, a)
    ensures Touch(s, t, a, q)
  {
  }

  lemma TouchArtifact(s: State, a: Id, q: Id, x: Id, row: Artifact)
    requires a in s.core.attempts && row.attempt == a && x !in s.rows.artifacts
    ensures Touch(s, s.(rows := s.rows.(artifacts := s.rows.artifacts[x := row])), a, q)
  {
  }

  // ----- the transactions -----

  ghost predicate Observed(s: State, t: State, a: Id, q: Id) {
    Touch(s, t, a, q) && Calm(s, t, a)
  }

  // ("== true" keeps the verifier from taking the relation apart at each call)
  lemma ObservedThenObserved(s: State, t: State, u: State, a: Id, q: Id)
    requires Observed(s, t, a, q) == true == Observed(t, u, a, q)
    ensures Observed(s, u, a, q)
  {
    TouchThenTouch(s, t, u, a, q);
    CalmThenCalm(s, t, u, a, q);
  }

  lemma UnknownTouches(s: State, reference: AttemptRef, effects: Effects, t: State)
    requires SetAttemptUnknown(s, reference, effects) == Some(t)
    ensures Touch(s, t, reference.attempt, reference.request)
    ensures s.node.slot == Some(reference.attempt) ==> Calm(s, t, reference.attempt)
  {
    hide Touch;
    var a, q := reference.attempt, reference.request;
    if s.core.attempts[a].state.Unknown? {
      TouchNothing(s, a, q);
    } else {
      var row := s.core.attempts[a];
      var row1 := row.(version := row.version + 1, state := AttemptState.Unknown, effects := effects);
      var s1 := s.(core := s.core.(attempts := s.core.attempts[a := row1]));
      var s2 := SetRequest(s1, q, RequestStatus.Unknown);
      TouchAttempt(s, a, q, row1);
      TouchRequest(s1, a, q, RequestStatus.Unknown);
      TouchThenTouch(s, s1, s2, a, q);
      TouchNode(s2, a, q, t.node, t.log.events);
      TouchThenTouch(s, s2, t, a, q);
    }
  }

  lemma MarkObserved(s: State, reference: AttemptRef)
    requires reference.attempt in s.core.attempts
    ensures Observed(s, MarkAttemptUnknown(s, reference), reference.attempt, reference.request)
  {
    hide Touch;
    var r := SetAttemptUnknown(s, reference, Effects.Unknown);
    if s.node.slot == Some(reference.attempt) && r.Some? {
      UnknownTouches(s, reference, Effects.Unknown, r.value);
    } else {
      TouchNothing(s, reference.attempt, reference.request);
    }
  }

  lemma RejectionObserved(s: State, reference: AttemptRef)
    requires reference.attempt in s.core.attempts && Reference(s, reference.attempt) == reference
    requires s.node.slot == Some(reference.attempt) ==> !s.core.attempts[reference.attempt].started
    ensures Observed(s, ObserveRejected(s, reference.attempt, reference.generation), reference.attempt, reference.request)
  {
    hide Touch;
    var a, q := reference.attempt, reference.request;
    var t := ObserveRejected(s, a, reference.generation);
    var row := s.core.attempts[a];
    if t == s {
      TouchNothing(s, a, q);
    } else if s.node.slot != Some(a) {
      TouchLogRows(s, t, a, q);
    } else {
      var row1 := row.(version := row.version + 1, state := AttemptState.Failed, effects := Effects.Nothing);
      var s1 := s.(core := s.core.(attempts := s.core.attempts[a := row1]));
      var s2 := SetRequest(s1, q, RequestStatus.Failed);
      TouchAttempt(s, a, q, row1);
      TouchRequest(s1, a, q, RequestStatus.Failed);
      TouchThenTouch(s, s1, s2, a, q);
      TouchNode(s2, a, q, t.node, t.log.events);
      TouchThenTouch(s, s2, t, a, q);
    }
  }

  lemma StopObserved(s: State, reference: AttemptRef, stop: Id, t: State)
    requires reference.attempt in s.core.attempts && Reference(s, reference.attempt) == reference
    requires ScheduleOutputLimitStop(s, reference, stop) == Some(t)
    ensures Observed(s, t, reference.attempt, reference.request)
  {
    hide Touch;
    var a, q := reference.attempt, reference.request;
    if t == s {
      TouchNothing(s, a, q);
    } else {
      var row := s.core.attempts[a];
      var row1 := row.(version := row.version + 1, state := AttemptState.Stopping);
      var s1 := SetAttempt(s, a, AttemptState.Stopping);
      var s2 := Emit(Tick(s1), AttemptStopRequested, a, row.version + 1, Some(a), Some(reference.dialog), false);
      TouchAttempt(s, a, q, row1);
      TouchNode(s1, a, q, s2.node, s2.log.events);
      TouchThenTouch(s, s1, s2, a, q);
      TouchStop(s2, a, q, stop);
      TouchThenTouch(s, s2, t, a, q);
    }
  }

  predicate Current(s: State, reference: AttemptRef) {
    && reference.attempt in s.core.attempts
    && Reference(s, reference.attempt) == reference
  }

  // the attempt holds the slot and is live: the guard under which events are projected
  predicate Seated(s: State, reference: AttemptRef) {
    && Current(s, reference)
    && s.node.slot == Some(reference.attempt)
    && IsLive(s.core.attempts[reference.attempt].state)
  }

  lemma RecordObserved(s: State, reference: AttemptRef, kind: EventKind, entity: Id, version: int, key: Key, digest: Digest, t: State)
    requires Current(s, reference) && (Seated(s, reference) || key.Archive? || key.ArtifactLimit?)
    requires (key.Waiting? ==> PastStart(s, reference.attempt)) && !kind.DispositionChanged?
    requires Record(s, reference, kind, entity, version, key, digest) == Some(t)
    ensures Observed(s, t, reference.attempt, reference.request) && (Seated(s, reference) ==> Seated(t, reference))
  {
    hide Touch;
    var a, q := reference.attempt, reference.request;
    var s1 := Emit(Tick(s), kind, entity, version, Some(a), Some(reference.dialog), false);
    TouchNode(s, a, q, s1.node, s1.log.events);
    TouchLogRows(s1, t, a, q);
    TouchThenTouch(s, s1, t, a, q);
  }

  lemma RecordEventObserved(s: State, reference: AttemptRef, event: AdapterEvent, key: Key, limited: bool, stop: Id, t: State)
    requires Seated(s, reference) && (key.Waiting? ==> PastStart(s, reference.attempt))
    requires RecordEvent(s, reference, event, key, limited, stop) == Some(t)
    ensures Observed(s, t, reference.attempt, reference.request)
  {
    hide Observed;
    var kind, entity, version := EventKindOf(event), EntityOf(event, reference.attempt), LiveVersion(s, reference.attempt, event);
    var s1 := Record(s, reference, kind, entity, version, key, OfEvent(event)).value;
    RecordObserved(s, reference, kind, entity, version, key, OfEvent(event), s1);
    if limited {
      StopObserved(s1, reference, stop, t);
      ObservedThenObserved(s, s1, t, reference.attempt, reference.request);
    }
  }

  lemma AssistantObserved(s: State, reference: AttemptRef, message: Id, content: Content, t: State)
    requires Current(s, reference)
    requires InsertAssistant(s, reference, message, content) == Some(t)
    ensures Observed(s, t, reference.attempt, reference.request) && (Seated(s, reference) ==> Seated(t, reference))
    ensures Current(t, reference)
  {
    hide Touch;
    var a, q := reference.attempt, reference.request;
    var s1 := s.(core := t.core);
    TouchMessage(s, a, q, message, t.core.messages[message]);
    TouchNode(s1, a, q, t.node, t.log.events);
    TouchThenTouch(s, s1, t, a, q);
  }

  lemma WaitingObserved(s: State, reference: AttemptRef, t: State)
    requires Seated(s, reference)
    requires TransitionWaiting(s, reference) == Some(t)
    ensures Observed(s, t, reference.attempt, reference.request) && Seated(t, reference)
  {
    hide Touch;
    var a, q := reference.attempt, reference.request;
    var s1 := SetAttempt(s, a, AttemptState.WaitingInput);
    TouchAttempt(s, a, q, s1.core.attempts[a]);
    TouchNode(s1, a, q, t.node, t.log.events);
    TouchThenTouch(s, s1, t, a, q);
  }

  // a charge changes nothing but the attempt's byte count
  lemma ChargeObserved(s: State, reference: AttemptRef, used: nat)
    requires Current(s, reference)
    ensures var a := reference.attempt;
      var t := s.(core := s.core.(attempts := s.core.attempts[a := s.core.attempts[a].(outputBytes := used)]));
      Observed(s, t, a, reference.request) && Current(t, reference) && (Seated(s, reference) ==> Seated(t, reference))
  {
    hide Touch;
    TouchAttempt(s, reference.attempt, reference.request, s.core.attempts[reference.attempt].(outputBytes := used));
  }

  // ----- adapter events -----

  lemma ProjectWaitingObserved(s: State, reference: AttemptRef, event: AdapterEvent, t: State)
    requires Seated(s, reference) && event.Waiting?
    requires ProjectWaiting(s, reference, event) == Some(t)
    ensures Observed(s, t, reference.attempt, reference.request)
  {
    hide Observed;
    var a, q := reference.attempt, reference.request;
    if s.core.attempts[a].state.WaitingInput? {
      NothingObserved(s, a, q);
    } else {
      var key := Key.Waiting(s.core.attempts[a].version + 1);
      var s1 := SetAttempt(s, a, AttemptState.WaitingInput);
      SeatObserved(s, reference, AttemptState.WaitingInput);
      if (a, key) !in s.log.projected {
        RecordEventObserved(s1, reference, event, key, false, 0, t);
        ObservedThenObserved(s, s1, t, a, q);
      }
    }
  }

  lemma NothingObserved(s: State, a: Id, q: Id)
    requires a in s.core.attempts
    ensures Observed(s, s, a, q)
  {
    hide Touch;
    TouchNothing(s, a, q);
  }

  lemma SeatObserved(s: State, reference: AttemptRef, state: AttemptState)
    requires Seated(s, reference) && state.WaitingInput? && s.core.attempts[reference.attempt].state.Running?
    ensures Observed(s, SetAttempt(s, reference.attempt, state), reference.attempt, reference.request)
    ensures Seated(SetAttempt(s, reference.attempt, state), reference)
  {
    hide Touch;
    var a := reference.attempt;
    TouchAttempt(s, a, reference.request, SetAttempt(s, a, state).core.attempts[a]);
  }

  lemma InsertOutputObserved(s: State, reference: AttemptRef, event: AdapterEvent, limited: bool, t: State)
    requires Seated(s, reference) && IsOutput(event)
    requires event.ToolCompleted? ==> event.call in s.rows.tools && s.rows.tools[event.call].attempt == reference.attempt
    requires InsertOutput(s, reference, event, limited) == Some(t)
    ensures Observed(s, t, reference.attempt, reference.request) && Seated(t, reference)
  {
    hide Touch;
    var a, q := reference.attempt, reference.request;
    match event
    case AssistantMessage(message, content) => AssistantObserved(s, reference, message, Limited(content, limited), t);
    case ToolStarted(call, _, _) => TouchTool(s, a, q, call, t.rows.tools[call]);
    case ToolCompleted(call, _, _, _) => TouchTool(s, a, q, call, t.rows.tools[call]);
    case _ => TouchNothing(s, a, q);
  }

  lemma ProjectOutputObserved(s: State, reference: AttemptRef, event: AdapterEvent, ids: Ids, t: State)
    requires Seated(s, reference) && IsOutput(event)
    requires ProjectOutput(s, reference, event, ids) == Some(t)
    ensures Observed(s, t, reference.attempt, reference.request)
  {
    hide Observed;
    var a, q := reference.attempt, reference.request;
    match ChargeProjection(s, a, LiveKey(event, 0), event)
    case Drop => NothingObserved(s, a, q);
    case Admit(s1, limited) =>
      ChargeObserved(s, reference, s1.core.attempts[a].outputBytes);
      var s2 := InsertOutput(s1, reference, event, limited).value;
      InsertOutputObserved(s1, reference, event, limited, s2);
      ObservedThenObserved(s, s1, s2, a, q);
      RecordEventObserved(s2, reference, event, LiveKey(event, 0), limited, ids.stop, t);
      ObservedThenObserved(s, s2, t, a, q);
  }

  // a new approval or input row, and the wait it causes
  lemma AskObserved(s: State, reference: AttemptRef, s1: State, event: AdapterEvent, key: Key, stop: Id, t: State)
    requires Seated(s, reference) && s.core.attempts[reference.attempt].started && !key.Waiting?
    requires s1 == s.(rows := s.rows.(approvals := s1.rows.approvals, inputs := s1.rows.inputs))
    requires forall x :: x in s.rows.approvals ==> x in s1.rows.approvals && s1.rows.approvals[x] == s.rows.approvals[x]
    requires forall x :: x in s1.rows.approvals && x !in s.rows.approvals ==> s1.rows.approvals[x].attempt == reference.attempt
    requires forall x :: x in s.rows.inputs ==> x in s1.rows.inputs && s1.rows.inputs[x] == s.rows.inputs[x]
    requires forall x :: x in s1.rows.inputs && x !in s.rows.inputs ==> s1.rows.inputs[x].attempt == reference.attempt
    requires var w := TransitionWaiting(s1, reference); w.Some? && RecordEvent(w.value, reference, event, key, false, stop) == Some(t)
    ensures Observed(s, t, reference.attempt, reference.request)
  {
    hide Touch;
    var a, q := reference.attempt, reference.request;
    TouchAsk(s, s1, a, q);
    assert Observed(s, s1, a, q);
    AskedObserved(s, reference, s1, event, key, stop, t);
  }

  lemma AskedObserved(s: State, reference: AttemptRef, s1: State, event: AdapterEvent, key: Key, stop: Id, t: State)
    requires Seated(s, reference) && Seated(s1, reference) && !key.Waiting?
    requires Observed(s, s1, reference.attempt, reference.request) == true
    requires var w := TransitionWaiting(s1, reference); w.Some? && RecordEvent(w.value, reference, event, key, false, stop) == Some(t)
    ensures Observed(s, t, reference.attempt, reference.request)
  {
    hide Observed;
    var a, q := reference.attempt, reference.request;
    var s2 := TransitionWaiting(s1, reference).value;
    WaitingObserved(s1, reference, s2);
    ObservedThenObserved(s, s1, s2, a, q);
    RecordEventObserved(s2, reference, event, key, false, stop, t);
    ObservedThenObserved(s, s2, t, a, q);
  }

  lemma ProjectInputObserved(s: State, reference: AttemptRef, event: AdapterEvent, ids: Ids, t: State)
    requires Seated(s, reference) && s.core.attempts[reference.attempt].started && event.InputRequested?
    requires ProjectInput(s, reference, event, ids) == Some(t)
    ensures Observed(s, t, reference.attempt, reference.request)
  {
    hide Observed;
    var a, q, key := reference.attempt, reference.request, Key.InputRequested(event.input);
    match ChargeProjection(s, a, key, event)
    case Drop => NothingObserved(s, a, q);
    case Admit(s1, limited) =>
      ChargeObserved(s, reference, s1.core.attempts[a].outputBytes);
      var s2 := s1.(rows := s1.rows.(inputs := s1.rows.inputs[event.input := InputRow(a, 1, AnswerStatus.Pending)]));
      if limited {
        InputRowObserved(s1, reference, event.input);
        RecordEventObserved(s2, reference, event, key, true, ids.stop, t);
        ObservedThenObserved(s1, s2, t, a, q);
      } else {
        AskObserved(s1, reference, s2, event, key, ids.stop, t);
      }
      ObservedThenObserved(s, s1, t, a, q);
  }

  lemma InputRowObserved(s: State, reference: AttemptRef, input: Id)
    requires Seated(s, reference) && s.core.attempts[reference.attempt].started && input !in s.rows.inputs
    ensures var t := s.(rows := s.rows.(inputs := s.rows.inputs[input := InputRow(reference.attempt, 1, AnswerStatus.Pending)]));
      Observed(s, t, reference.attempt, reference.request) && Seated(t, reference)
  {
    hide Touch;
    var t := s.(rows := s.rows.(inputs := s.rows.inputs[input := InputRow(reference.attempt, 1, AnswerStatus.Pending)]));
    TouchAsk(s, t, reference.attempt, reference.request);
  }

  lemma ProjectApprovalObserved(s: State, reference: AttemptRef, event: AdapterEvent, ids: Ids, t: State)
    requires Seated(s, reference) && s.core.attempts[reference.attempt].started && event.ApprovalRequested?
    requires ProjectApproval(s, reference, event, ids) == Some(t)
    ensures Observed(s, t, reference.attempt, reference.request)
  {
    hide Observed;
    var a, q, key := reference.attempt, reference.request, Key.ApprovalRequested(event.approval);
    match ChargeProjection(s, a, key, event)
    case Drop => NothingObserved(s, a, q);
    case Admit(s1, limited) =>
      ChargeObserved(s, reference, s1.core.attempts[a].outputBytes);
      if limited {
        var s2 := InsertAssistant(s1, reference, ids.marker, OutputLimit).value;
        AssistantObserved(s1, reference, ids.marker, OutputLimit, s2);
        MarkerObserved(s1, reference, s2, key, OfEvent(event), ids, t);
      } else {
        var s2 := s1.(rows := s1.rows.(approvals := s1.rows.approvals[event.approval :=
                        ApprovalRow(a, event.call, event.actionHash, 1, AnswerStatus.Pending)]));
        AskObserved(s1, reference, s2, event, key, ids.stop, t);
      }
      ObservedThenObserved(s, s1, t, a, q);
  }

  // the record of an output-limit marker and the stop that follows it
  lemma MarkerObserved(s: State, reference: AttemptRef, s1: State, key: Key, digest: Digest, ids: Ids, t: State)
    requires Observed(s, s1, reference.attempt, reference.request) == true
    requires Current(s1, reference) && (Seated(s1, reference) || key.ArtifactLimit?) && !key.Waiting?
    requires var r := Record(s1, reference, EventKind.AssistantMessage, ids.marker, 1, key, digest);
      r.Some? && ScheduleOutputLimitStop(r.value, reference, ids.stop) == Some(t)
    ensures Observed(s, t, reference.attempt, reference.request)
  {
    hide Observed;
    var a, q := reference.attempt, reference.request;
    var s2 := Record(s1, reference, EventKind.AssistantMessage, ids.marker, 1, key, digest).value;
    RecordObserved(s1, reference, EventKind.AssistantMessage, ids.marker, 1, key, digest, s2);
    ObservedThenObserved(s, s1, s2, a, q);
    StopObserved(s2, reference, ids.stop, t);
    ObservedThenObserved(s, s2, t, a, q);
  }

  lemma ArchiveObserved(s: State, reference: AttemptRef, event: AdapterEvent, suppressed: bool, ids: Ids, t: State)
    requires Current(s, reference)
    requires ArchiveEvent(s, reference, event, suppressed, ids) == Some(t)
    ensures Observed(s, t, reference.attempt, reference.request)
  {
    hide Observed, EmitLate, EndedAs, Archivable, OutputBytes, ScheduleOutputLimitStop;
    var a, q, row := reference.attempt, reference.request, s.core.attempts[reference.attempt];
    if t == s {
      NothingObserved(s, a, q);
    } else {
      var (charge, stored) := ChargeArchived(row.outputBytes, Sum(ArchivedBytes(s.log.late, a)), OutputBytes(event));
      var key := Key.Archive(LiveKey(event, row.version));
      var s1 := if suppressed then s else EmitLate(s, reference, event, row.version, charge.newlyExceeded, ids.marker);
      var s2 := if suppressed then s1 else s1.(log := s1.log.(projected := s1.log.projected[(a, key) := OfEvent(event)]));
      var s3 := s2.(log := s2.log.(late := s2.log.late + [LateRow(a, Some(key), Some(OfEvent(event)), stored)]));
      LateIsOwn(s, reference, event, row.version, charge.newlyExceeded, ids.marker);
      assert OwnEvents(s.log.events, s3.log.events, a) && s3 == s.(log := s3.log);
      ArchiveRowObserved(s, s3, a, q);
      if charge.newlyExceeded {
        StopObserved(s3, reference, ids.stop, t);
        ObservedThenObserved(s, s3, t, a, q);
      }
    }
  }

  lemma LateIsOwn(s: State, reference: AttemptRef, event: AdapterEvent, version: int, limited: bool, marker: Id)
    ensures var t := EmitLate(s, reference, event, version, limited, marker);
      t == s.(log := s.log.(events := t.log.events)) && OwnEvents(s.log.events, t.log.events, reference.attempt)
  {
  }

  lemma ArchiveRowObserved(s: State, t: State, a: Id, q: Id)
    requires a in s.core.attempts && t == s.(log := t.log) && TouchLog(s, t, a)
    requires forall k :: k in t.log.projected && k !in s.log.projected ==> k.1.Archive?
    ensures Observed(s, t, a, q)
  {
    hide Touch;
    TouchLogRows(s, t, a, q);
  }

  // the end of an attempt: no control answer is owed
  lemma EndObserved(s: State, reference: AttemptRef, event: AdapterEvent, t: State)
    requires Seated(s, reference) && !ControlOwed(s, reference.attempt)
    requires event.Terminal? && event.terminalEffects.Some? && EndAttempt(s, reference, event) == Some(t)
    ensures Observed(s, t, reference.attempt, reference.request)
  {
    hide Touch, Calm;
    if t == s {
      TouchNothing(s, reference.attempt, reference.request);
      CalmNothing(s, reference);
    } else {
      EndTouches(s, reference, event, t);
      EndIsCalm(s, reference, event, t);
    }
  }

  lemma CalmNothing(s: State, reference: AttemptRef)
    requires Seated(s, reference)
    ensures Calm(s, s, reference.attempt)
  {
  }

  lemma EndIsCalm(s: State, reference: AttemptRef, event: AdapterEvent, t: State)
    requires Seated(s, reference) && !ControlOwed(s, reference.attempt) && t != s
    requires event.Terminal? && event.terminalEffects.Some? && EndAttempt(s, reference, event) == Some(t)
    ensures Calm(s, t, reference.attempt)
  {
  }

  lemma EndTouches(s: State, reference: AttemptRef, event: AdapterEvent, t: State)
    requires Seated(s, reference) && t != s
    requires event.Terminal? && event.terminalEffects.Some? && EndAttempt(s, reference, event) == Some(t)
    ensures Touch(s, t, reference.attempt, reference.request)
  {
    hide Touch, Calm, Newest, TerminalDigest, FailureReasons, RemoveReason;
    var a, q, row := reference.attempt, reference.request, s.core.attempts[reference.attempt];
    var state := OutcomeState(event.outcome);
    var row1 := row.(version := row.version + 1, state := state, effects := event.terminalEffects.value);
    var s1 := s.(core := s.core.(attempts := s.core.attempts[a := row1]));
    var s2 := SetRequest(s1, q, TerminalStatus(state));
    TouchAttempt(s, a, q, row1);
    TouchRequest(s1, a, q, TerminalStatus(state));
    TouchThenTouch(s, s1, s2, a, q);
    var s3 := s2.(node := t.node, log := s2.log.(events := t.log.events));
    TouchNode(s2, a, q, t.node, t.log.events);
    TouchThenTouch(s, s2, s3, a, q);
    TouchLogRows(s3, t, a, q);
    TouchThenTouch(s, s3, t, a, q);
  }

  lemma ProjectTerminalObserved(s: State, reference: AttemptRef, event: AdapterEvent, ids: Ids, t: State)
    requires Seated(s, reference) && event.Terminal?
    requires ProjectTerminal(s, reference, event, ids) == Some(t)
    ensures Observed(s, t, reference.attempt, reference.request)
  {
    hide Observed;
    var a, q := reference.attempt, reference.request;
    if ControlOwed(s, a) || event.terminalEffects.value.Unknown? {
      var s1 := SetAttemptUnknown(s, reference, Effects.Unknown).value;
      ReportObserved(s, reference, Effects.Unknown, s1);
      ArchiveObserved(s1, reference, event, true, ids, t);
      ObservedThenObserved(s, s1, t, a, q);
    } else if event.outcome.Unknown? {
      ReportObserved(s, reference, event.terminalEffects.value, t);
    } else {
      EndObserved(s, reference, event, t);
    }
  }

  lemma ReportObserved(s: State, reference: AttemptRef, effects: Effects, t: State)
    requires Seated(s, reference) && SetAttemptUnknown(s, reference, effects) == Some(t)
    ensures Observed(s, t, reference.attempt, reference.request) && Current(t, reference)
  {
    UnknownTouches(s, reference, effects, t);
  }

  lemma ProjectObserved(s: State, reference: AttemptRef, event: AdapterEvent, ids: Ids, t: State)
    requires Seated(s, reference)
    requires (event.ApprovalRequested? || event.InputRequested?) ==> s.core.attempts[reference.attempt].started
    requires ProjectEvent(s, reference, event, ids) == Some(t)
    ensures Observed(s, t, reference.attempt, reference.request)
  {
    hide Observed, ProjectWaiting, ProjectApproval, ProjectInput, ProjectTerminal, ProjectOutput;
    match event
    case Started =>
      if (reference.attempt, Key.Started) in s.log.projected {
        NothingObserved(s, reference.attempt, reference.request);
      } else {
        RecordEventObserved(s, reference, event, Key.Started, false, ids.stop, t);
      }
    case Waiting(_) => ProjectWaitingObserved(s, reference, event, t);
    case ApprovalRequested(_, _, _, _) => ProjectApprovalObserved(s, reference, event, ids, t);
    case InputRequested(_, _) => ProjectInputObserved(s, reference, event, ids, t);
    case Terminal(_, _, _, _, _) => ProjectTerminalObserved(s, reference, event, ids, t);
    case UnknownReport(effects) => ReportObserved(s, reference, effects, t);
    case _ => ProjectOutputObserved(s, reference, event, ids, t);
  }

  // ----- the four transactions as a whole -----

  lemma AdapterEventObserved(s: State, reference: AttemptRef, event: AdapterEvent, ids: Ids)
    requires reference.attempt in s.core.attempts
    ensures Observed(s, ObserveAdapterEvent(s, reference, event, ids), reference.attempt, reference.request)
  {
    hide Observed, ProjectEvent, ArchiveEvent;
    var t := ObserveAdapterEvent(s, reference, event, ids);
    var row := s.core.attempts[reference.attempt];
    if t == s {
      NothingObserved(s, reference.attempt, reference.request);
    } else if (row.state.Stopping? || row.state.Unknown?) && Interactive(event) {
      ArchiveObserved(s, reference, event, true, ids, t);
    } else if s.node.slot != Some(reference.attempt) || !IsLive(row.state) {
      ArchiveObserved(s, reference, event, false, ids, t);
    } else {
      ProjectObserved(s, reference, event, ids, t);
    }
  }

  lemma ArtifactObserved(s: State, reference: AttemptRef, artifact: Id, call: Option<Id>, size: nat, ids: Ids)
    requires reference.attempt in s.core.attempts
    ensures Observed(s, StoreArtifact(s, reference, artifact, call, size, ids), reference.attempt, reference.request)
  {
    hide Observed;
    var t := StoreArtifact(s, reference, artifact, call, size, ids);
    var a, q, row := reference.attempt, reference.request, s.core.attempts[reference.attempt];
    if t == s {
      NothingObserved(s, a, q);
    } else {
      var (charge, used) := ChargeLive(row.outputBytes, Sum(ArchivedBytes(s.log.late, a)), size);
      var s1 := s.(core := s.core.(attempts := s.core.attempts[a := row.(outputBytes := used)]));
      ChargeObserved(s, reference, used);
      if charge.newlyExceeded {
        var s2 := InsertAssistant(s1, reference, ids.marker, OutputLimit).value;
        AssistantObserved(s1, reference, ids.marker, OutputLimit, s2);
        MarkerObserved(s1, reference, s2, Key.ArtifactLimit, OfMarker(ids.marker), ids, t);
      } else {
        ArtifactRowObserved(s1, reference, artifact, Artifact(row.dialog, a, call, size));
      }
      ObservedThenObserved(s, s1, t, a, q);
    }
  }

  lemma ArtifactRowObserved(s: State, reference: AttemptRef, artifact: Id, row: Artifact)
    requires Current(s, reference) && artifact !in s.rows.artifacts && row.attempt == reference.attempt
    ensures Observed(s, Emit(s.(rows := s.rows.(artifacts := s.rows.artifacts[artifact := row])), ArtifactAvailable, artifact, 1,
                             Some(reference.attempt), Some(row.dialog), false), reference.attempt, reference.request)
  {
    hide Touch;
    var a, q := reference.attempt, reference.request;
    var s1 := s.(rows := s.rows.(artifacts := s.rows.artifacts[artifact := row]));
    var t := Emit(s1, ArtifactAvailable, artifact, 1, Some(a), Some(row.dialog), false);
    TouchArtifact(s, a, q, artifact, row);
    TouchNode(s1, a, q, t.node, t.log.events);
    TouchThenTouch(s, s1, t, a, q);
  }

  lemma ReconcileObserved(s: State, reference: AttemptRef, event: AdapterEvent, message: Id, ids: Ids)
    requires reference.attempt in s.core.attempts
    ensures Observed(s, Reconcile(s, reference, event, message, ids), reference.attempt, reference.request)
  {
    hide Observed, ProjectEvent, EffectsUnresolved, StoredOutput;
    var t := Reconcile(s, reference, event, message, ids);
    var a, q := reference.attempt, reference.request;
    if t == s {
      NothingObserved(s, a, q);
    } else {
      var append := event.outcome.Completed? && event.output.Some? && !StoredOutput(s, a, event.output.value);
      if append {
        var output := AdapterEvent.AssistantMessage(message, event.output.value);
        var s1 := ProjectEvent(s, reference, output, ids).value;
        ProjectObserved(s, reference, output, ids, s1);
        OutputKeepsSeat(s, reference, output, ids, s1);
        ProjectObserved(s1, reference, event, ids, t);
        ObservedThenObserved(s, s1, t, a, q);
      } else {
        ProjectObserved(s, reference, event, ids, t);
      }
    }
  }

  lemma OutputKeepsSeat(s: State, reference: AttemptRef, event: AdapterEvent, ids: Ids, t: State)
    requires Seated(s, reference) && event.AssistantMessage?
    requires ProjectEvent(s, reference, event, ids) == Some(t)
    ensures Seated(t, reference)
  {
  }
}
