// What a report of the adapter makes of the store: its rows, its event and key, its charge, and the end of an attempt.
module HarnessReports {
  import opened Common
  import opened OutputBudget
  import opened HarnessState
  import opened HarnessObserve
  import opened HarnessCommands
  import opened HarnessWorkers
  import opened HarnessStep

  // 64 MiB for one attempt
  const LIMIT: nat := 67108864

  // a report about an attempt that has started, as the store has it, in a dialog that is still there
  predicate Recognised(s: State, x: AttemptRef) {
    && x.attempt in s.core.attempts
    && var a := s.core.attempts[x.attempt];
      a.started && a.dialog !in s.admin.tombstones && x == AttemptRef(a.dialog, a.request, x.attempt, a.generation)
  }

  predicate Asks(event: AdapterEvent) {
    event.Waiting? || event.ApprovalRequested? || event.InputRequested?
  }

  // the attempt has the slot and is live, and is not asked anything while it is stopping or unknown
  predicate Heard(s: State, x: AttemptRef, event: AdapterEvent) {
    && Recognised(s, x) && s.node.slot == Some(x.attempt)
    && s.core.attempts[x.attempt].state in {AttemptState.Dispatching, AttemptState.Running, AttemptState.WaitingInput, AttemptState.Stopping, AttemptState.Unknown}
    && !(Asks(event) && s.core.attempts[x.attempt].state in {AttemptState.Stopping, AttemptState.Unknown})
  }

  lemma HeardIsProjected(s: State, x: AttemptRef, event: AdapterEvent, ids: Ids)
    requires Heard(s, x, event)
    ensures Next(s, Observe(x, event, ids)) == Projection(s, x, event, ids)
  {
    hide ProjectEvent, ArchiveEvent;
  }

  // the state a live report leads to
  function Projection(s: State, x: AttemptRef, event: AdapterEvent, ids: Ids): State
    requires x.attempt in s.core.attempts
  {
    match ProjectEvent(s, x, event, ids)
    case Some(t) => t
    case None => s
  }

  // ----- the charge -----

  function Spent(s: State, a: Id): nat
    requires a in s.core.attempts
  {
    s.core.attempts[a].outputBytes + Sum(ArchivedBytes(s.log.late, a))
  }

  predicate AtWork(s: State, x: AttemptRef)
    requires x.attempt in s.core.attempts
  {
    s.core.attempts[x.attempt].state in {AttemptState.Running, AttemptState.WaitingInput}
  }

  // these bytes are the ones that pass the limit, and the attempt is stopped for it
  predicate StopsFor(s: State, x: AttemptRef, bytes: nat)
    requires x.attempt in s.core.attempts
  {
    Spent(s, x.attempt) + bytes > LIMIT && AtWork(s, x)
  }

  // a new report that is let in: under a key of its own, within the limit before it
  predicate LetIn(s: State, x: AttemptRef, key: Key, bytes: nat, stop: Id)
    requires x.attempt in s.core.attempts
  {
    && (x.attempt, key) !in s.log.projected && bytes <= LIMIT && Spent(s, x.attempt) <= LIMIT
    && (StopsFor(s, x, bytes) ==> stop !in s.core.actions)
  }

  // The report is recorded with its event and charged; where it passes the limit the row says so once and for all,
  // and an attempt at work gets a stop action.
  ghost predicate Reported(s: State, t: State, x: AttemptRef, event: AdapterEvent, key: Key, row: EventRow, bytes: nat, stop: Id)
    requires x.attempt in s.core.attempts
  {
    var a := s.core.attempts[x.attempt]; var stops := StopsFor(s, x, bytes);
    && t.admin == s.admin && t.run == s.run && t.core.requests == s.core.requests
    && t.core.attempts == s.core.attempts[x.attempt :=
         if stops then a.(outputBytes := LIMIT + 1, version := a.version + 1, state := AttemptState.Stopping)
         else a.(outputBytes := if Spent(s, x.attempt) + bytes > LIMIT then LIMIT + 1 else a.outputBytes + bytes)]
    && t.core.actions == (if stops then s.core.actions[stop := Action(|s.core.actions|, ActionKind.Stop, x, 0, 0, 0, ActionStatus.Pending)]
                          else s.core.actions)
    && t.log == s.log.(
         events := s.log.events + [row]
                   + (if stops then [EventRow(AttemptStopRequested, x.attempt, a.version + 1, Some(x.attempt), Some(x.dialog), false)] else []),
         projected := s.log.projected[(x.attempt, key) := OfEvent(event)])
    && t.node == s.node.(stateVersion := s.node.stateVersion + (if stops then 2 else 1), nextMessageSequence := t.node.nextMessageSequence)
  }

  function LiveRow(x: AttemptRef, kind: EventKind, entity: Id, version: int): EventRow {
    EventRow(kind, entity, version, Some(x.attempt), Some(x.dialog), false)
  }

  predicate CallOf(s: State, x: AttemptRef, call: Id) {
    call in s.rows.tools && s.rows.tools[call].attempt == x.attempt
  }

  // ----- output -----

  lemma ChargeMeans(s: State, x: AttemptRef, key: Key, event: AdapterEvent)
    requires x.attempt in s.core.attempts
    ensures var a := s.core.attempts[x.attempt]; var r := ChargeProjection(s, x.attempt, key, event); var bytes := OutputBytes(event);
      && (r.Admit? <==> (x.attempt, key) !in s.log.projected && bytes <= LIMIT && Spent(s, x.attempt) <= LIMIT)
      && (r.Refuse? <==> if (x.attempt, key) in s.log.projected then s.log.projected[(x.attempt, key)] != OfEvent(event) else bytes > LIMIT)
      && (r.Admit? ==>
            && r.limited == (Spent(s, x.attempt) + bytes > LIMIT)
            && r.state == s.(core := s.core.(attempts := s.core.attempts[x.attempt :=
                 a.(outputBytes := if r.limited then LIMIT + 1 else a.outputBytes + bytes)])))
  {
    hide ArchivedBytes, Sum, OutputBytes;
  }

  // a recorded event, and the stop that goes with it where the limit was passed
  lemma RecordMeans(s: State, x: AttemptRef, event: AdapterEvent, key: Key, limited: bool, stop: Id)
    requires x.attempt in s.core.attempts && x.generation == s.core.attempts[x.attempt].generation && s.node.slot == Some(x.attempt)
    ensures var r := RecordEvent(s, x, event, key, limited, stop); var a := s.core.attempts[x.attempt]; var stops := limited && AtWork(s, x);
      && (r.Some? <==> (x.attempt, key) !in s.log.projected && (stops ==> stop !in s.core.actions))
      && (r.Some? ==>
            && r.value.admin == s.admin && r.value.run == s.run && r.value.rows == s.rows
            && r.value.core == s.core.(
                 attempts := if stops then s.core.attempts[x.attempt := a.(version := a.version + 1, state := AttemptState.Stopping)] else s.core.attempts,
                 actions := if stops then s.core.actions[stop := Action(|s.core.actions|, ActionKind.Stop, x, 0, 0, 0, ActionStatus.Pending)]
                            else s.core.actions)
            && r.value.log == s.log.(
                 events := s.log.events + [LiveRow(x, EventKindOf(event), EntityOf(event, x.attempt), LiveVersion(s, x.attempt, event))]
                           + (if stops then [EventRow(AttemptStopRequested, x.attempt, a.version + 1, Some(x.attempt), Some(x.dialog), false)] else []),
                 projected := s.log.projected[(x.attempt, key) := OfEvent(event)])
            && r.value.node == s.node.(stateVersion := s.node.stateVersion + (if stops then 2 else 1)))
  {
    hide EventKindOf, EntityOf, LiveVersion;
  }

  // the report as it is written once the domain row is: with its event, its key and its charge
  ghost predicate Written(s: State, t: State, x: AttemptRef, event: AdapterEvent, inserted: State, stop: Id)
    requires x.attempt in s.core.attempts
  {
    && t.core.messages == inserted.core.messages && t.rows == inserted.rows && t.node.nextMessageSequence == inserted.node.nextMessageSequence
    && Reported(s, t, x, event, LiveKey(event, 0), LiveRow(x, EventKindOf(event), EntityOf(event, x.attempt), LiveVersion(inserted, x.attempt, event)),
                OutputBytes(event), stop)
  }

  // output that is let in, of a call of the attempt where it names one, whose row can be written
  predicate MayWrite(s: State, x: AttemptRef, event: AdapterEvent, stop: Id)
    requires x.attempt in s.core.attempts && IsOutput(event)
  {
    && (event.ToolOutput? || event.ToolCompleted? ==> CallOf(s, x, event.call)) && LetIn(s, x, LiveKey(event, 0), OutputBytes(event), stop)
    && InsertOutput(s, x, event, Spent(s, x.attempt) + OutputBytes(event) > LIMIT).Some?
  }

  // any report of output: the row it writes is the one InsertOutput writes, and the rest is the same for all
  lemma OutputProjects(s: State, x: AttemptRef, event: AdapterEvent, ids: Ids)
    requires x.attempt in s.core.attempts && x.generation == s.core.attempts[x.attempt].generation && s.node.slot == Some(x.attempt)
    requires IsOutput(event)
    ensures var t := Projection(s, x, event, ids);
      if MayWrite(s, x, event, ids.stop)
      then Written(s, t, x, event, InsertOutput(s, x, event, Spent(s, x.attempt) + OutputBytes(event) > LIMIT).value, ids.stop)
      else t == s
  {
    hide ChargeProjection, ArchivedBytes, Sum, RecordEvent, InsertOutput, EventKindOf, EntityOf, LiveVersion, OutputBytes, LiveKey, Projection, Written;
    var key := LiveKey(event, 0);
    OutputIs(s, x, event, ids);
    ChargeMeans(s, x, key, event);
    var charged := ChargeProjection(s, x.attempt, key, event);
    if charged.Admit? {
      InsertMeans(s, charged.state, x, event, charged.limited);
      var r := InsertOutput(charged.state, x, event, charged.limited);
      if r.Some? {
        WrittenIff(s, charged, x, event, ids.stop);
        if MayWrite(s, x, event, ids.stop) {
          WrittenIn(s, charged, x, event, ids.stop);
        }
      }
    }
  }

  lemma WrittenIff(s: State, charged: Charging, x: AttemptRef, event: AdapterEvent, stop: Id)
    requires x.attempt in s.core.attempts && x.generation == s.core.attempts[x.attempt].generation && s.node.slot == Some(x.attempt)
    requires IsOutput(event) && charged == ChargeProjection(s, x.attempt, LiveKey(event, 0), event) && charged.Admit?
    requires InsertOutput(charged.state, x, event, charged.limited).Some?
    ensures RecordEvent(InsertOutput(charged.state, x, event, charged.limited).value, x, event, LiveKey(event, 0), charged.limited, stop).Some?
       <==> LetIn(s, x, LiveKey(event, 0), OutputBytes(event), stop)
  {
    hide ChargeProjection, ArchivedBytes, Sum, RecordEvent, InsertOutput, EventKindOf, EntityOf, LiveVersion, OutputBytes, LiveKey;
    ChargeMeans(s, x, LiveKey(event, 0), event);
    InsertMeans(s, charged.state, x, event, charged.limited);
    RecordMeans(InsertOutput(charged.state, x, event, charged.limited).value, x, event, LiveKey(event, 0), charged.limited, stop);
  }

  lemma WrittenIn(s: State, charged: Charging, x: AttemptRef, event: AdapterEvent, stop: Id)
    requires x.attempt in s.core.attempts && x.generation == s.core.attempts[x.attempt].generation && s.node.slot == Some(x.attempt)
    requires IsOutput(event) && charged == ChargeProjection(s, x.attempt, LiveKey(event, 0), event) && charged.Admit?
    requires LetIn(s, x, LiveKey(event, 0), OutputBytes(event), stop)
    requires InsertOutput(charged.state, x, event, charged.limited).Some? && InsertOutput(s, x, event, charged.limited).Some?
    requires RecordEvent(InsertOutput(charged.state, x, event, charged.limited).value, x, event, LiveKey(event, 0), charged.limited, stop).Some?
    ensures Written(s, RecordEvent(InsertOutput(charged.state, x, event, charged.limited).value, x, event, LiveKey(event, 0), charged.limited, stop).value,
                    x, event, InsertOutput(s, x, event, charged.limited).value, stop)
  {
    hide ChargeProjection, ArchivedBytes, Sum, RecordEvent, InsertOutput, EventKindOf, EntityOf, LiveVersion, OutputBytes, LiveKey, LetIn;
    ChargeMeans(s, x, LiveKey(event, 0), event);
    InsertMeans(s, charged.state, x, event, charged.limited);
    RecordMeans(InsertOutput(charged.state, x, event, charged.limited).value, x, event, LiveKey(event, 0), charged.limited, stop);
  }

  // how a report of output is put together
  lemma OutputIs(s: State, x: AttemptRef, event: AdapterEvent, ids: Ids)
    requires x.attempt in s.core.attempts && IsOutput(event)
    ensures var key := LiveKey(event, 0); var charged := ChargeProjection(s, x.attempt, key, event);
      Projection(s, x, event, ids) ==
        if (event.ToolOutput? || event.ToolCompleted? ==> CallOf(s, x, event.call)) && charged.Admit? then
          var r := InsertOutput(charged.state, x, event, charged.limited);
          if r.None? then s
          else
            var u := RecordEvent(r.value, x, event, key, charged.limited, ids.stop);
            if u.None? then s else u.value
        else s
  {
    hide ChargeProjection, RecordEvent, InsertOutput, LiveKey;
  }

  // the domain row does not depend on the charge, and writing it moves nothing else
  lemma InsertMeans(s: State, u: State, x: AttemptRef, event: AdapterEvent, limited: bool)
    requires IsOutput(event) && x.attempt in s.core.attempts && u == s.(core := s.core.(attempts := u.core.attempts))
    ensures var r, before := InsertOutput(u, x, event, limited), InsertOutput(s, x, event, limited);
      && (r.Some? <==> before.Some?)
      && (r.Some? ==>
            && r.value == before.value.(core := before.value.core.(attempts := u.core.attempts))
            && r.value.core == u.core.(messages := r.value.core.messages) && r.value.log == s.log && r.value.admin == s.admin && r.value.run == s.run
            && r.value.node == s.node.(nextMessageSequence := r.value.node.nextMessageSequence))
      && (r.Some? && x.attempt in u.core.attempts && event.ToolCompleted? ==> LiveVersion(r.value, x.attempt, event) == LiveVersion(before.value, x.attempt, event))
      && (r.Some? && !event.ToolCompleted? ==> LiveVersion(r.value, x.attempt, event) == LiveVersion(before.value, x.attempt, event))
  {
  }

  function Inline(content: Content): nat {
    if content.Body? then content.inlineBytes else 0
  }

  // assistant.delta leaves an event, numbered after its index
  ghost predicate DeltaReported(s: State, t: State, x: AttemptRef, message: Id, index: int, content: Content, stop: Id)
    requires x.attempt in s.core.attempts
  {
    var key := Key.AssistantDelta(message, index);
    if LetIn(s, x, key, Inline(content), stop) then
      && t.core.messages == s.core.messages && t.rows == s.rows && t.node.nextMessageSequence == s.node.nextMessageSequence
      && Reported(s, t, x, AdapterEvent.AssistantDelta(message, index, content), key, LiveRow(x, EventKind.AssistantDelta, message, index + 1),
                  Inline(content), stop)
    else t == s
  }

  lemma DeltaProjects(s: State, x: AttemptRef, message: Id, index: int, content: Content, ids: Ids)
    requires x.attempt in s.core.attempts && x.generation == s.core.attempts[x.attempt].generation && s.node.slot == Some(x.attempt)
    ensures DeltaReported(s, Projection(s, x, AdapterEvent.AssistantDelta(message, index, content), ids), x, message, index, content, ids.stop)
  {
    OutputProjects(s, x, AdapterEvent.AssistantDelta(message, index, content), ids);
    hide Projection, ArchivedBytes, Sum, Reported;
  }

  // assistant.message adds the message, with its text or the mark of the limit, under the next number
  ghost predicate MessageReported(s: State, t: State, x: AttemptRef, message: Id, content: Content, stop: Id)
    requires x.attempt in s.core.attempts
  {
    var key := Key.AssistantMessage(message);
    if LetIn(s, x, key, Inline(content), stop) && message !in s.core.messages then
      && t.core.messages == s.core.messages[message := Message(x.dialog, s.node.nextMessageSequence, 1, Disposition.Unset, None, Some(x.attempt),
           Some(if Spent(s, x.attempt) + Inline(content) > LIMIT then OutputLimit else content))]
      && t.rows == s.rows && t.node.nextMessageSequence == s.node.nextMessageSequence + 1
      && Reported(s, t, x, AdapterEvent.AssistantMessage(message, content), key, LiveRow(x, EventKind.AssistantMessage, message, 1), Inline(content), stop)
    else t == s
  }

  lemma MessageProjects(s: State, x: AttemptRef, message: Id, content: Content, ids: Ids)
    requires x.attempt in s.core.attempts && x.generation == s.core.attempts[x.attempt].generation && s.node.slot == Some(x.attempt)
    ensures MessageReported(s, Projection(s, x, AdapterEvent.AssistantMessage(message, content), ids), x, message, content, ids.stop)
  {
    OutputProjects(s, x, AdapterEvent.AssistantMessage(message, content), ids);
    hide Projection, ArchivedBytes, Sum, Reported;
  }

  // tool.started adds a running call
  ghost predicate CallReported(s: State, t: State, x: AttemptRef, call: Id, actionHash: Id, content: Content, stop: Id)
    requires x.attempt in s.core.attempts
  {
    var key := Key.ToolStarted(call);
    if LetIn(s, x, key, Inline(content), stop) && call !in s.rows.tools then
      && t.rows == s.rows.(tools := s.rows.tools[call := ToolCall(x.attempt, actionHash, 1, ToolStatus.Running)])
      && t.core.messages == s.core.messages && t.node.nextMessageSequence == s.node.nextMessageSequence
      && Reported(s, t, x, AdapterEvent.ToolStarted(call, actionHash, content), key, LiveRow(x, EventKind.ToolStarted, call, 1), Inline(content), stop)
    else t == s
  }

  lemma CallProjects(s: State, x: AttemptRef, call: Id, actionHash: Id, content: Content, ids: Ids)
    requires x.attempt in s.core.attempts && x.generation == s.core.attempts[x.attempt].generation && s.node.slot == Some(x.attempt)
    ensures CallReported(s, Projection(s, x, AdapterEvent.ToolStarted(call, actionHash, content), ids), x, call, actionHash, content, ids.stop)
  {
    OutputProjects(s, x, AdapterEvent.ToolStarted(call, actionHash, content), ids);
    hide Projection, ArchivedBytes, Sum, Reported;
  }

  // tool.output of a call of this attempt leaves an event, numbered after its index
  ghost predicate ChunkReported(s: State, t: State, x: AttemptRef, call: Id, index: int, content: Content, stop: Id)
    requires x.attempt in s.core.attempts
  {
    var key := Key.ToolOutput(call, index);
    if CallOf(s, x, call) && LetIn(s, x, key, Inline(content), stop) then
      && t.core.messages == s.core.messages && t.rows == s.rows && t.node.nextMessageSequence == s.node.nextMessageSequence
      && Reported(s, t, x, AdapterEvent.ToolOutput(call, index, content), key, LiveRow(x, EventKind.ToolOutput, call, index + 1), Inline(content), stop)
    else t == s
  }

  lemma ChunkProjects(s: State, x: AttemptRef, call: Id, index: int, content: Content, ids: Ids)
    requires x.attempt in s.core.attempts && x.generation == s.core.attempts[x.attempt].generation && s.node.slot == Some(x.attempt)
    ensures ChunkReported(s, Projection(s, x, AdapterEvent.ToolOutput(call, index, content), ids), x, call, index, content, ids.stop)
  {
    OutputProjects(s, x, AdapterEvent.ToolOutput(call, index, content), ids);
    hide Projection, ArchivedBytes, Sum, Reported;
  }

  // tool.completed gives a call of this attempt the reported status and its next version, which the event carries
  ghost predicate ResultReported(s: State, t: State, x: AttemptRef, call: Id, status: ToolStatus, effects: Effects, content: Content, stop: Id)
    requires x.attempt in s.core.attempts
  {
    var key := Key.ToolCompleted(call);
    if CallOf(s, x, call) && LetIn(s, x, key, Inline(content), stop) then
      var version := s.rows.tools[call].version + 1;
      && t.rows == s.rows.(tools := s.rows.tools[call := ToolCall(x.attempt, s.rows.tools[call].actionHash, version, status)])
      && t.core.messages == s.core.messages && t.node.nextMessageSequence == s.node.nextMessageSequence
      && Reported(s, t, x, AdapterEvent.ToolCompleted(call, status, effects, content), key, LiveRow(x, EventKind.ToolCompleted, call, version),
                  Inline(content), stop)
    else t == s
  }

  lemma ResultProjects(s: State, x: AttemptRef, call: Id, status: ToolStatus, effects: Effects, content: Content, ids: Ids)
    requires x.attempt in s.core.attempts && x.generation == s.core.attempts[x.attempt].generation && s.node.slot == Some(x.attempt)
    ensures ResultReported(s, Projection(s, x, AdapterEvent.ToolCompleted(call, status, effects, content), ids), x, call, status, effects, content, ids.stop)
  {
    OutputProjects(s, x, AdapterEvent.ToolCompleted(call, status, effects, content), ids);
    hide Projection, ArchivedBytes, Sum, Reported;
  }

  // ----- waiting and questions -----

  // recorded without a charge
  ghost predicate Noted(s: State, t: State, x: AttemptRef, event: AdapterEvent, key: Key, row: EventRow) {
    && t.rows == s.rows && t.admin == s.admin && t.run == s.run && t.core == s.core.(attempts := t.core.attempts)
    && t.log == s.log.(events := s.log.events + [row], projected := s.log.projected[(x.attempt, key) := OfEvent(event)])
    && t.node == s.node.(stateVersion := s.node.stateVersion + 1)
  }

  // a start that markStarted has recorded is known; any other start is recorded
  ghost predicate StartReported(s: State, t: State, x: AttemptRef)
    requires x.attempt in s.core.attempts
  {
    if (x.attempt, Key.Started) in s.log.projected then t == s
    else t.core == s.core && Noted(s, t, x, AdapterEvent.Started, Key.Started, LiveRow(x, AttemptStarted, x.attempt, s.core.attempts[x.attempt].version))
  }

  lemma StartProjects(s: State, x: AttemptRef, ids: Ids)
    requires x.attempt in s.core.attempts
    ensures StartReported(s, Projection(s, x, AdapterEvent.Started, ids), x)
  {
  }

  // a running attempt waits, and the wait is recorded under the version this gives the attempt
  ghost predicate WaitReported(s: State, t: State, x: AttemptRef, kind: WaitKind)
    requires x.attempt in s.core.attempts
  {
    var a := s.core.attempts[x.attempt]; var key := Key.Waiting(a.version + 1); var event := AdapterEvent.Waiting(kind);
    var waits := s.core.attempts[x.attempt := a.(version := a.version + 1, state := AttemptState.WaitingInput)];
    if kind.Other? || !a.state.Running? then t == s
    else if (x.attempt, key) !in s.log.projected then
      t.core.attempts == waits && Noted(s, t, x, event, key, LiveRow(x, AttemptWaiting, x.attempt, a.version + 1))
    else t == if s.log.projected[(x.attempt, key)] == OfEvent(event) then s.(core := s.core.(attempts := waits)) else s
  }

  lemma WaitProjects(s: State, x: AttemptRef, kind: WaitKind, ids: Ids)
    requires x.attempt in s.core.attempts
    ensures WaitReported(s, Projection(s, x, AdapterEvent.Waiting(kind), ids), x, kind)
  {
  }

  // the question is recorded and charged, and the attempt waits for its answer
  ghost predicate Asked(s: State, t: State, x: AttemptRef, event: AdapterEvent, key: Key, row: EventRow, bytes: nat)
    requires x.attempt in s.core.attempts
  {
    var a := s.core.attempts[x.attempt];
    && t.admin == s.admin && t.run == s.run
    && t.core == s.core.(attempts := s.core.attempts[x.attempt :=
         a.(outputBytes := a.outputBytes + bytes, version := a.version + 1, state := AttemptState.WaitingInput)])
    && t.log == s.log.(events := s.log.events + [LiveRow(x, AttemptWaiting, x.attempt, a.version + 1), row],
                       projected := s.log.projected[(x.attempt, key) := OfEvent(event)])
    && t.node == s.node.(stateVersion := s.node.stateVersion + 2)
  }

  // the attempt waits, then the question is recorded
  function WaitAndRecord(s: State, x: AttemptRef, event: AdapterEvent, key: Key, stop: Id): Option<State>
    requires x.attempt in s.core.attempts
  {
    match TransitionWaiting(s, x)
    case None => None
    case Some(t) => RecordEvent(t, x, event, key, false, stop)
  }

  lemma QuestionMeans(s: State, x: AttemptRef, event: AdapterEvent, key: Key, stop: Id)
    requires x.attempt in s.core.attempts && x.generation == s.core.attempts[x.attempt].generation && s.node.slot == Some(x.attempt)
    requires event.ApprovalRequested? || event.InputRequested?
    ensures var r := WaitAndRecord(s, x, event, key, stop);
      && (r.Some? <==> (x.attempt, key) !in s.log.projected && AtWork(s, x))
      && (r.Some? ==> r.value.rows == s.rows && Asked(s, r.value, x, event, key, LiveRow(x, EventKindOf(event), EntityOf(event, x.attempt), 1), 0))
  {
  }

  // approval.requested is for a call of this attempt and the action it was started with; what no longer fits
  // leaves the mark of the limit instead of a question
  ghost predicate ApprovalReported(s: State, t: State, x: AttemptRef, approval: Id, call: Id, actionHash: Id, bytes: nat, ids: Ids)
    requires x.attempt in s.core.attempts
  {
    var key := Key.ApprovalRequested(approval); var event := AdapterEvent.ApprovalRequested(approval, call, actionHash, bytes);
    var bound := CallOf(s, x, call) && s.rows.tools[call].actionHash == actionHash && LetIn(s, x, key, bytes, ids.stop);
    if bound && Spent(s, x.attempt) + bytes > LIMIT && ids.marker !in s.core.messages then
      && t.rows == s.rows && t.node.nextMessageSequence == s.node.nextMessageSequence + 1
      && t.core.messages == s.core.messages[ids.marker := Message(x.dialog, s.node.nextMessageSequence, 1, Disposition.Unset, None, Some(x.attempt),
                                                                  Some(OutputLimit))]
      && Reported(s, t, x, event, key, LiveRow(x, EventKind.AssistantMessage, ids.marker, 1), bytes, ids.stop)
    else if bound && Spent(s, x.attempt) + bytes <= LIMIT && approval !in s.rows.approvals && AtWork(s, x) then
      && t.rows == s.rows.(approvals := s.rows.approvals[approval := ApprovalRow(x.attempt, call, actionHash, 1, AnswerStatus.Pending)])
      && Asked(s, t, x, event, key, LiveRow(x, EventKind.ApprovalRequested, approval, 1), bytes)
    else t == s
  }

  lemma ApprovalProjects(s: State, x: AttemptRef, approval: Id, call: Id, actionHash: Id, bytes: nat, ids: Ids)
    requires x.attempt in s.core.attempts && x.generation == s.core.attempts[x.attempt].generation && s.node.slot == Some(x.attempt)
    ensures ApprovalReported(s, Projection(s, x, AdapterEvent.ApprovalRequested(approval, call, actionHash, bytes), ids), x, approval, call, actionHash, bytes, ids)
  {
    hide ProjectEvent, Projection, ArchivedBytes, Sum, ChargeProjection, Marked, WaitAndRecord, Reported, Asked;
    var event, key := AdapterEvent.ApprovalRequested(approval, call, actionHash, bytes), Key.ApprovalRequested(approval);
    ChargeMeans(s, x, key, event);
    if ChargeProjection(s, x.attempt, key, event).Admit? {
      if Spent(s, x.attempt) + bytes > LIMIT {
        ApprovalOver(s, x, approval, call, actionHash, bytes, ids);
      } else {
        ApprovalFits(s, x, approval, call, actionHash, bytes, ids);
      }
    } else {
      ApprovalIs(s, x, event, ids);
    }
  }

  lemma ApprovalOver(s: State, x: AttemptRef, approval: Id, call: Id, actionHash: Id, bytes: nat, ids: Ids)
    requires x.attempt in s.core.attempts && x.generation == s.core.attempts[x.attempt].generation && s.node.slot == Some(x.attempt)
    requires Spent(s, x.attempt) + bytes > LIMIT
    ensures ApprovalReported(s, Projection(s, x, AdapterEvent.ApprovalRequested(approval, call, actionHash, bytes), ids), x, approval, call, actionHash, bytes, ids)
  {
    hide ProjectEvent, Projection, ArchivedBytes, Sum, ChargeProjection, Marked, WaitAndRecord;
    var event, key := AdapterEvent.ApprovalRequested(approval, call, actionHash, bytes), Key.ApprovalRequested(approval);
    ApprovalIs(s, x, event, ids);
    ChargeMeans(s, x, key, event);
    hide Asked;
    var charged := ChargeProjection(s, x.attempt, key, event);
    if charged.Admit? {
      MarkedMeans(charged.state, x, key, OfEvent(event), ids);
    }
  }

  lemma ApprovalFits(s: State, x: AttemptRef, approval: Id, call: Id, actionHash: Id, bytes: nat, ids: Ids)
    requires x.attempt in s.core.attempts && x.generation == s.core.attempts[x.attempt].generation && s.node.slot == Some(x.attempt)
    requires Spent(s, x.attempt) + bytes <= LIMIT
    ensures ApprovalReported(s, Projection(s, x, AdapterEvent.ApprovalRequested(approval, call, actionHash, bytes), ids), x, approval, call, actionHash, bytes, ids)
  {
    hide ProjectEvent, Projection, ArchivedBytes, Sum, ChargeProjection, Marked, WaitAndRecord;
    var event, key := AdapterEvent.ApprovalRequested(approval, call, actionHash, bytes), Key.ApprovalRequested(approval);
    ApprovalIs(s, x, event, ids);
    ChargeMeans(s, x, key, event);
    hide Reported;
    var charged := ChargeProjection(s, x.attempt, key, event);
    if charged.Admit? {
      var row := ApprovalRow(x.attempt, call, actionHash, 1, AnswerStatus.Pending);
      QuestionMeans(charged.state.(rows := s.rows.(approvals := s.rows.approvals[approval := row])), x, event, key, ids.stop);
    }
  }

  lemma ApprovalIs(s: State, x: AttemptRef, event: AdapterEvent, ids: Ids)
    requires x.attempt in s.core.attempts && event.ApprovalRequested?
    ensures var key := Key.ApprovalRequested(event.approval); var charged := ChargeProjection(s, x.attempt, key, event);
      Projection(s, x, event, ids) ==
        if CallOf(s, x, event.call) && s.rows.tools[event.call].actionHash == event.actionHash && charged.Admit? then
          var r := if charged.limited then Marked(charged.state, x, key, OfEvent(event), ids)
                   else if event.approval in charged.state.rows.approvals then None
                   else
                     var row := ApprovalRow(x.attempt, event.call, event.actionHash, 1, AnswerStatus.Pending);
                     var rows := charged.state.rows;
                     WaitAndRecord(charged.state.(rows := rows.(approvals := rows.approvals[event.approval := row])), x, event, key, ids.stop);
          if r.Some? then r.value else s
        else s
  {
    hide ChargeProjection, Marked, RecordEvent, TransitionWaiting;
    ChargeMeans(s, x, Key.ApprovalRequested(event.approval), event);
  }

  // the marker message, its event under the key of what did not fit, and the stop
  lemma MarkedMeans(s: State, x: AttemptRef, key: Key, digest: Digest, ids: Ids)
    requires x.attempt in s.core.attempts && x.generation == s.core.attempts[x.attempt].generation && s.node.slot == Some(x.attempt)
    ensures var r := Marked(s, x, key, digest, ids); var a := s.core.attempts[x.attempt]; var stops := AtWork(s, x);
      && (r.Some? <==> (x.attempt, key) !in s.log.projected && ids.marker !in s.core.messages && (stops ==> ids.stop !in s.core.actions))
      && (r.Some? ==>
            && r.value.admin == s.admin && r.value.run == s.run && r.value.rows == s.rows && r.value.core.requests == s.core.requests
            && r.value.core.messages == s.core.messages[ids.marker := Message(x.dialog, s.node.nextMessageSequence, 1, Disposition.Unset, None,
                                                                              Some(x.attempt), Some(OutputLimit))]
            && r.value.core.attempts == (if stops then s.core.attempts[x.attempt := a.(version := a.version + 1, state := AttemptState.Stopping)]
                                         else s.core.attempts)
            && r.value.core.actions == (if stops then s.core.actions[ids.stop := Action(|s.core.actions|, ActionKind.Stop, x, 0, 0, 0, ActionStatus.Pending)]
                                        else s.core.actions)
            && r.value.log == s.log.(
                 events := s.log.events + [LiveRow(x, EventKind.AssistantMessage, ids.marker, 1)]
                           + (if stops then [EventRow(AttemptStopRequested, x.attempt, a.version + 1, Some(x.attempt), Some(x.dialog), false)] else []),
                 projected := s.log.projected[(x.attempt, key) := digest])
            && r.value.node == s.node.(stateVersion := s.node.stateVersion + (if stops then 2 else 1), nextMessageSequence := s.node.nextMessageSequence + 1))
  {
  }

  // input.requested: the question is kept even where its text no longer fits, but then nobody waits for it
  ghost predicate InputReported(s: State, t: State, x: AttemptRef, input: Id, content: Content, stop: Id)
    requires x.attempt in s.core.attempts
  {
    var key := Key.InputRequested(input); var event := AdapterEvent.InputRequested(input, content); var bytes := Inline(content);
    var row := LiveRow(x, EventKind.InputRequested, input, 1); var over := Spent(s, x.attempt) + bytes > LIMIT;
    if LetIn(s, x, key, bytes, stop) && input !in s.rows.inputs && (over || AtWork(s, x)) then
      && t.rows == s.rows.(inputs := s.rows.inputs[input := InputRow(x.attempt, 1, AnswerStatus.Pending)])
      && t.core.messages == s.core.messages && t.node.nextMessageSequence == s.node.nextMessageSequence
      && if over then Reported(s, t, x, event, key, row, bytes, stop) else Asked(s, t, x, event, key, row, bytes)
    else t == s
  }

  lemma InputProjects(s: State, x: AttemptRef, input: Id, content: Content, ids: Ids)
    requires x.attempt in s.core.attempts && x.generation == s.core.attempts[x.attempt].generation && s.node.slot == Some(x.attempt)
    ensures InputReported(s, Projection(s, x, AdapterEvent.InputRequested(input, content), ids), x, input, content, ids.stop)
  {
    hide ProjectEvent, Projection, ArchivedBytes, Sum, ChargeProjection, RecordEvent, WaitAndRecord, Reported, Asked;
    var event, key := AdapterEvent.InputRequested(input, content), Key.InputRequested(input);
    ChargeMeans(s, x, key, event);
    if ChargeProjection(s, x.attempt, key, event).Admit? {
      if Spent(s, x.attempt) + Inline(content) > LIMIT {
        InputOver(s, x, input, content, ids);
      } else {
        InputFits(s, x, input, content, ids);
      }
    } else {
      InputIs(s, x, event, ids);
    }
  }

  lemma InputOver(s: State, x: AttemptRef, input: Id, content: Content, ids: Ids)
    requires x.attempt in s.core.attempts && x.generation == s.core.attempts[x.attempt].generation && s.node.slot == Some(x.attempt)
    requires Spent(s, x.attempt) + Inline(content) > LIMIT
    ensures InputReported(s, Projection(s, x, AdapterEvent.InputRequested(input, content), ids), x, input, content, ids.stop)
  {
    hide ProjectEvent, Projection, ArchivedBytes, Sum, ChargeProjection, RecordEvent, WaitAndRecord;
    var event, key := AdapterEvent.InputRequested(input, content), Key.InputRequested(input);
    InputIs(s, x, event, ids);
    ChargeMeans(s, x, key, event);
    var charged := ChargeProjection(s, x.attempt, key, event);
    hide Asked;
    if charged.Admit? {
      RecordMeans(charged.state.(rows := s.rows.(inputs := s.rows.inputs[input := InputRow(x.attempt, 1, AnswerStatus.Pending)])), x, event, key, true, ids.stop);
    }
  }

  lemma InputFits(s: State, x: AttemptRef, input: Id, content: Content, ids: Ids)
    requires x.attempt in s.core.attempts && x.generation == s.core.attempts[x.attempt].generation && s.node.slot == Some(x.attempt)
    requires Spent(s, x.attempt) + Inline(content) <= LIMIT
    ensures InputReported(s, Projection(s, x, AdapterEvent.InputRequested(input, content), ids), x, input, content, ids.stop)
  {
    hide ProjectEvent, Projection, ArchivedBytes, Sum, ChargeProjection, RecordEvent, WaitAndRecord;
    var event, key := AdapterEvent.InputRequested(input, content), Key.InputRequested(input);
    InputIs(s, x, event, ids);
    ChargeMeans(s, x, key, event);
    var charged := ChargeProjection(s, x.attempt, key, event);
    hide Reported;
    if charged.Admit? {
      QuestionMeans(charged.state.(rows := s.rows.(inputs := s.rows.inputs[input := InputRow(x.attempt, 1, AnswerStatus.Pending)])), x, event, key, ids.stop);
    }
  }

  lemma InputIs(s: State, x: AttemptRef, event: AdapterEvent, ids: Ids)
    requires x.attempt in s.core.attempts && event.InputRequested?
    ensures var key := Key.InputRequested(event.input); var charged := ChargeProjection(s, x.attempt, key, event);
      Projection(s, x, event, ids) ==
        if charged.Admit? && event.input !in charged.state.rows.inputs then
          var rows := charged.state.rows.(inputs := charged.state.rows.inputs[event.input := InputRow(x.attempt, 1, AnswerStatus.Pending)]);
          var asked := charged.state.(rows := rows);
          var r := if charged.limited then RecordEvent(asked, x, event, key, true, ids.stop) else WaitAndRecord(asked, x, event, key, ids.stop);
          if r.Some? then r.value else s
        else s
  {
    hide ChargeProjection, RecordEvent, TransitionWaiting;
    ChargeMeans(s, x, Key.InputRequested(event.input), event);
  }

  // ----- reports that come late -----

  // the report refers to what the attempt has, and an end is one that could be recorded
  predicate FitForArchive(s: State, a: Id, event: AdapterEvent) {
    match event
    case ToolOutput(call, _, _) => call in s.rows.tools && s.rows.tools[call].attempt == a
    case ToolCompleted(call, _, _, _) => call in s.rows.tools && s.rows.tools[call].attempt == a
    case ApprovalRequested(_, call, actionHash, _) => call in s.rows.tools && s.rows.tools[call].attempt == a && s.rows.tools[call].actionHash == actionHash
    case Terminal(outcome, effects, failure, _, _) =>
      effects.Some? && !outcome.Unknown? && !outcome.Other? && (outcome.Failed? ==> failure.Some?)
    case _ => true
  }

  // this very report is recorded, or the attempt was ended by it
  predicate ToldBefore(s: State, a: Id, event: AdapterEvent) {
    || (exists k :: k in s.log.projected && k.0 == a && s.log.projected[k] == OfEvent(event))
    || (event.Terminal? && event.terminalEffects.Some? && EndedAs(s, a, event))
  }

  // an event stands under the key the report would have, live or late; an end, a wait and an unknown have no live rival
  predicate KeyTaken(s: State, a: Id, event: AdapterEvent, version: int) {
    || (a, Key.Archive(LiveKey(event, version))) in s.log.projected
    || (!event.Terminal? && !event.Waiting? && !event.UnknownReport? && (a, LiveKey(event, version)) in s.log.projected)
  }

  predicate NotedLate(s: State, a: Id, event: AdapterEvent, version: int) {
    exists i :: 0 <= i < |s.log.late| && s.log.late[i].attempt == a && s.log.late[i].key == Some(Key.Archive(LiveKey(event, version)))
  }

  predicate NotedLateSo(s: State, a: Id, event: AdapterEvent, version: int) {
    exists i :: 0 <= i < |s.log.late| && s.log.late[i].attempt == a && s.log.late[i].key == Some(Key.Archive(LiveKey(event, version)))
      && s.log.late[i].digest == Some(OfEvent(event))
  }

  predicate IsNews(s: State, x: AttemptRef, event: AdapterEvent)
    requires x.attempt in s.core.attempts
  {
    var version := s.core.attempts[x.attempt].version;
    !ToldBefore(s, x.attempt, event) && !KeyTaken(s, x.attempt, event, version) && !NotedLate(s, x.attempt, event, version)
  }

  // another report stands where this one would
  predicate IsContradicted(s: State, x: AttemptRef, event: AdapterEvent)
    requires x.attempt in s.core.attempts
  {
    var version := s.core.attempts[x.attempt].version;
    && !ToldBefore(s, x.attempt, event)
    && (KeyTaken(s, x.attempt, event, version) || (NotedLate(s, x.attempt, event, version) && !NotedLateSo(s, x.attempt, event, version)))
  }

  function LateEvent(x: AttemptRef, event: AdapterEvent, version: int): EventRow {
    match event
    case Started => LateAs(x, AttemptStarted, x.attempt, version)
    case Waiting(_) => LateAs(x, AttemptWaiting, x.attempt, version)
    case AssistantDelta(m, index, _) => LateAs(x, EventKind.AssistantDelta, m, index + 1)
    case AssistantMessage(m, _) => LateAs(x, EventKind.AssistantMessage, m, 1)
    case ToolStarted(call, _, _) => LateAs(x, EventKind.ToolStarted, call, 1)
    case ToolOutput(call, index, _) => LateAs(x, EventKind.ToolOutput, call, index + 1)
    case ToolCompleted(call, _, _, _) => LateAs(x, EventKind.ToolCompleted, call, 1)
    case ApprovalRequested(approval, _, _, _) => LateAs(x, EventKind.ApprovalRequested, approval, 1)
    case InputRequested(input, _) => LateAs(x, EventKind.InputRequested, input, 1)
    case Terminal(Completed, _, _, _, _) => LateAs(x, AttemptCompleted, x.attempt, version)
    case Terminal(Failed, _, _, _, _) => LateAs(x, AttemptFailed, x.attempt, version)
    case Terminal(_, _, _, _, _) => LateAs(x, AttemptInterrupted, x.attempt, version)
    case UnknownReport(_) => LateAs(x, AttemptUnknown, x.attempt, version)
  }

  function LateAs(x: AttemptRef, kind: EventKind, entity: Id, version: int): EventRow {
    EventRow(kind, entity, version, Some(x.attempt), Some(x.dialog), true)
  }

  // reports whose own content gives way to the mark of the limit
  predicate HasContent(event: AdapterEvent) {
    event.AssistantDelta? || event.AssistantMessage? || event.ToolStarted? || event.ToolOutput? || event.ToolCompleted? || event.InputRequested?
  }

  // A late row carries the report and what is charged for it, at most one byte beyond the limit; unless the report is
  // suppressed a late event announces it, or at the limit the mark.
  ghost predicate Archived(s: State, t: State, x: AttemptRef, event: AdapterEvent, suppressed: bool, marker: Id)
    requires x.attempt in s.core.attempts && Spent(s, x.attempt) <= LIMIT
  {
    var version := s.core.attempts[x.attempt].version; var key := Key.Archive(LiveKey(event, version)); var bytes := OutputBytes(event);
    var over := Spent(s, x.attempt) + bytes > LIMIT;
    && (event.Terminal? ==> bytes == (if event.output.Some? then Inline(event.output.value) else 0)
                                     + (if event.failure.Some? then event.failure.value.messageBytes else 0))
    && (event.Started? || event.Waiting? || event.UnknownReport? ==> bytes == 0)
    && t.core == s.core && t.rows == s.rows && t.node == s.node && t.admin == s.admin && t.run == s.run
    && |t.log.late| == |s.log.late| + 1 && t.log.late[..|s.log.late|] == s.log.late
    && t.log.late[|s.log.late|] == LateRow(x.attempt, Some(key), Some(OfEvent(event)), if over then LIMIT + 1 - Spent(s, x.attempt) else bytes)
    && if suppressed then t.log.events == s.log.events && t.log.projected == s.log.projected
       else
         && t.log.projected == s.log.projected[(x.attempt, key) := OfEvent(event)]
         && t.log.events == s.log.events + [if over && !HasContent(event) then LateAs(x, EventKind.AssistantMessage, marker, 1)
                                            else LateEvent(x, event, version)]
  }

  // Of an attempt that is not at work in the slot: past the limit nothing is added.
  lemma ArchiveMeans(s: State, x: AttemptRef, event: AdapterEvent, suppressed: bool, ids: Ids)
    requires x.attempt in s.core.attempts && !(s.node.slot == Some(x.attempt) && AtWork(s, x))
    ensures var r := ArchiveEvent(s, x, event, suppressed, ids);
      && (r.None? <==> !FitForArchive(s, x.attempt, event) || IsContradicted(s, x, event) || (IsNews(s, x, event) && OutputBytes(event) > LIMIT))
      && (r.Some? ==> if IsNews(s, x, event) && Spent(s, x.attempt) <= LIMIT then Archived(s, r.value, x, event, suppressed, ids.marker) else r.value == s)
  {
    hide ArchivedBytes, Sum, OutputBytes, LiveKey, FindArchived, IsNews, IsContradicted, Archivable, FitForArchive, Archived, LateEvent, EmitLate;
    FindMeans(s, x, event);
    LateMeans(s, x, event, true, ids.marker);
    LateMeans(s, x, event, false, ids.marker);
    if IsNews(s, x, event) && ArchiveEvent(s, x, event, suppressed, ids).Some? && Spent(s, x.attempt) <= LIMIT {
      ArchiveLeaves(s, x, event, suppressed, ids);
    }
  }

  lemma FindMeans(s: State, x: AttemptRef, event: AdapterEvent)
    requires x.attempt in s.core.attempts
    ensures var found := FindArchived(s, x.attempt, event, s.core.attempts[x.attempt].version);
      (found.Absent? <==> IsNews(s, x, event)) && (found.Conflict? <==> IsContradicted(s, x, event))
    ensures Archivable(s, x.attempt, event) <==> FitForArchive(s, x.attempt, event)
  {
    hide LiveKey, EndedAs;
  }

  lemma BytesOfEnds(event: AdapterEvent)
    ensures event.Terminal? ==> OutputBytes(event) == (if event.output.Some? then Inline(event.output.value) else 0)
                                                      + (if event.failure.Some? then event.failure.value.messageBytes else 0)
    ensures event.Started? || event.Waiting? || event.UnknownReport? ==> OutputBytes(event) == 0
  {
  }

  lemma LateMeans(s: State, x: AttemptRef, event: AdapterEvent, limited: bool, marker: Id)
    requires x.attempt in s.core.attempts
    ensures var version := s.core.attempts[x.attempt].version;
      EmitLate(s, x, event, version, limited, marker) == s.(log := s.log.(events := s.log.events
        + [if limited && !HasContent(event) then LateAs(x, EventKind.AssistantMessage, marker, 1) else LateEvent(x, event, version)]))
  {
  }

  lemma ArchiveLeaves(s: State, x: AttemptRef, event: AdapterEvent, suppressed: bool, ids: Ids)
    requires x.attempt in s.core.attempts && !(s.node.slot == Some(x.attempt) && AtWork(s, x))
    requires IsNews(s, x, event) && Spent(s, x.attempt) <= LIMIT && ArchiveEvent(s, x, event, suppressed, ids).Some?
    ensures Archived(s, ArchiveEvent(s, x, event, suppressed, ids).value, x, event, suppressed, ids.marker)
  {
    hide ArchivedBytes, Sum, OutputBytes, LiveKey, FindArchived, IsNews, IsContradicted, Archivable, FitForArchive, EmitLate, LateEvent, HasContent;
    FindMeans(s, x, event);
    LateMeans(s, x, event, Spent(s, x.attempt) + OutputBytes(event) > LIMIT, ids.marker);
    BytesOfEnds(event);
  }

  // the same source: the same message, call or question, the same index, or the same moment of the attempt
  predicate SameSource(e: AdapterEvent, f: AdapterEvent, version: int, later: int) {
    || (e.Started? && f.Started?) || (e.Terminal? && f.Terminal?) || (e.UnknownReport? && f.UnknownReport?)
    || (e.Waiting? && f.Waiting? && version == later)
    || (e.AssistantDelta? && f.AssistantDelta? && e.message == f.message && e.index == f.index)
    || (e.AssistantMessage? && f.AssistantMessage? && e.message == f.message)
    || (e.ToolStarted? && f.ToolStarted? && e.call == f.call)
    || (e.ToolOutput? && f.ToolOutput? && e.call == f.call && e.index == f.index)
    || (e.ToolCompleted? && f.ToolCompleted? && e.call == f.call)
    || (e.ApprovalRequested? && f.ApprovalRequested? && e.approval == f.approval)
    || (e.InputRequested? && f.InputRequested? && e.input == f.input)
  }

  // Reports have the same key exactly when they come from the same source.
  lemma KeysTellSourcesApart(e: AdapterEvent, f: AdapterEvent, version: int, later: int)
    ensures LiveKey(e, version) == LiveKey(f, later) <==> SameSource(e, f, version, later)
  {
  }

  // ----- ends -----

  // a steer or an answer that was sent to the attempt has not been confirmed
  predicate AnswerAwaited(s: State, a: Id) {
    exists c :: c in s.core.actions && s.core.actions[c].reference.attempt == a
      && s.core.actions[c].kind in {ActionKind.Steer, ActionKind.Approval, ActionKind.Input}
      && s.core.actions[c].status in {ActionStatus.Pending, ActionStatus.Inflight, ActionStatus.Unknown}
  }

  predicate Speaks(s: State, a: Id, m: Id) {
    m in s.core.messages && s.core.messages[m].attempt == Some(a) && s.core.messages[m].content.Some?
  }

  predicate SpeaksLast(s: State, a: Id, m: Id) {
    Speaks(s, a, m) && forall n :: n in s.core.messages && Speaks(s, a, n) ==> s.core.messages[n].sequence <= s.core.messages[m].sequence
  }

  // the output named by an end is the newest assistant message, or the limit kept it out
  predicate OutputAgrees(s: State, a: Id, content: Content)
    requires a in s.core.attempts
  {
    || (exists m :: m in s.core.messages && SpeaksLast(s, a, m) && s.core.messages[m].content == Some(content))
    || (Spent(s, a) > LIMIT
        && ((exists m :: m in s.core.messages && SpeaksLast(s, a, m) && s.core.messages[m].content == Some(OutputLimit))
            || forall m :: m in s.core.messages ==> !Speaks(s, a, m)))
  }

  // an end that says enough, agrees with what is stored, and is the first
  predicate MayEnd(s: State, x: AttemptRef, event: AdapterEvent)
    requires x.attempt in s.core.attempts && event.Terminal?
  {
    && event.outcome in {Outcome.Completed, Outcome.Failed, Outcome.Interrupted} && event.terminalEffects.Some?
    && (event.outcome.Failed? ==> event.failure.Some?)
    && (event.outcome.Completed? && event.output.Some? ==> OutputAgrees(s, x.attempt, event.output.value))
    && (x.attempt, Key.Terminal) !in s.log.projected
  }

  // why the node is blocked after such an end: by what it was blocked before, but for the unknown execution, and
  // by a failure of a class other than Task
  predicate BlockedAfter(s: State, event: AdapterEvent, reason: Reason)
    requires event.Terminal?
  {
    || (reason in s.node.blocked && reason != ExecutionUnknown)
    || (event.outcome.Failed? && event.failure.Some?
        && ((reason == EngineUnavailable && event.failure.value.failureClass.NodeFault?)
            || (reason == PolicyUnavailable && event.failure.value.failureClass.Policy?)
            || (reason == AdapterProtocol && event.failure.value.failureClass.Protocol?)))
  }

  // The attempt and its request end as reported, the slot is free, and the node is ready unless a reason is left.
  ghost predicate Ended(s: State, t: State, x: AttemptRef, event: AdapterEvent)
    requires x.attempt in s.core.attempts && event.Terminal? && event.terminalEffects.Some?
  {
    EndedRows(s, t, x, event) && EndedNode(s, t, event) && EndedLog(s, t, x, event)
  }

  ghost predicate EndedRows(s: State, t: State, x: AttemptRef, event: AdapterEvent)
    requires x.attempt in s.core.attempts && event.Terminal? && event.terminalEffects.Some?
  {
    var a := s.core.attempts[x.attempt]; var done, bad := event.outcome.Completed?, event.outcome.Failed?;
    && t.rows == s.rows && t.admin == s.admin && t.run == s.run && t.core.messages == s.core.messages && t.core.actions == s.core.actions
    && t.core.attempts == s.core.attempts[x.attempt := a.(version := a.version + 1, effects := event.terminalEffects.value,
         state := if done then AttemptState.Completed else if bad then AttemptState.Failed else AttemptState.Interrupted)]
    && t.core.requests == (if x.request in s.core.requests then
         var q := s.core.requests[x.request];
         s.core.requests[x.request := q.(version := q.version + 1,
           status := if done then RequestStatus.Completed else if bad then RequestStatus.Failed else RequestStatus.Interrupted)]
       else s.core.requests)
  }

  ghost predicate EndedNode(s: State, t: State, event: AdapterEvent)
    requires event.Terminal?
  {
    && (forall r :: r in t.node.blocked <==> BlockedAfter(s, event, r))
    && t.node == s.node.(slot := None, occupancy := Occupancy.Idle, stateVersion := s.node.stateVersion + 1, blocked := t.node.blocked,
                         readiness := if t.node.blocked == [] then Readiness.Ready else Readiness.Blocked)
  }

  ghost predicate EndedLog(s: State, t: State, x: AttemptRef, event: AdapterEvent)
    requires x.attempt in s.core.attempts && event.Terminal? && event.terminalEffects.Some?
  {
    && t.log.late == s.log.late
    && t.log.events == s.log.events + [LiveRow(x, if event.outcome.Completed? then AttemptCompleted
                                                  else if event.outcome.Failed? then AttemptFailed else AttemptInterrupted,
                                               x.attempt, s.core.attempts[x.attempt].version + 1), NodeEvent(t)]
    && (x.attempt, Key.Terminal) in t.log.projected
    && t.log.projected == s.log.projected[(x.attempt, Key.Terminal) := t.log.projected[(x.attempt, Key.Terminal)]]
    && EndDigest(s, x, event, t.log.projected[(x.attempt, Key.Terminal)])
  }

  // what an end is remembered by
  ghost predicate EndDigest(s: State, x: AttemptRef, event: AdapterEvent, digest: Digest)
    requires event.Terminal? && event.terminalEffects.Some?
  {
    if event.outcome.Completed? then
      digest.OfCompleted? && digest.usage == event.usage && forall m :: m in digest.output <==> SpeaksLast(s, x.attempt, m)
    else if event.outcome.Failed? then digest == OfFailed(event.failure, event.terminalEffects.value)
    else digest == OfInterrupted(event.terminalEffects.value)
  }

  lemma EndMeans(s: State, x: AttemptRef, event: AdapterEvent)
    requires x.attempt in s.core.attempts && event.Terminal? && MayEnd(s, x, event)
    ensures var r := EndAttempt(s, x, event); r.Some? && Ended(s, r.value, x, event)
  {
    hide OutputAgrees, EndAttempt, EndedRows, EndedNode, EndedLog;
    EndRows(s, x, event);
    EndLog(s, x, event);
  }

  lemma EndRows(s: State, x: AttemptRef, event: AdapterEvent)
    requires x.attempt in s.core.attempts && event.Terminal? && MayEnd(s, x, event)
    ensures var r := EndAttempt(s, x, event); r.Some? && EndedRows(s, r.value, x, event) && EndedNode(s, r.value, event)
  {
    hide OutputAgrees, TerminalDigest, FailureReasons, RemoveReason, BlockedAfter;
    ReasonsMean(s, event);
  }

  lemma EndLog(s: State, x: AttemptRef, event: AdapterEvent)
    requires x.attempt in s.core.attempts && event.Terminal? && MayEnd(s, x, event)
    ensures var r := EndAttempt(s, x, event); r.Some? && EndedLog(s, r.value, x, event)
  {
    hide OutputAgrees, TerminalDigest, EndDigest, FailureReasons, RemoveReason;
    DigestMeans(s, x, event);
  }

  lemma DigestMeans(s: State, x: AttemptRef, event: AdapterEvent)
    requires event.Terminal? && event.terminalEffects.Some?
    ensures EndDigest(s, x, event, TerminalDigest(s, x.attempt, event))
  {
    assert forall m :: m in Newest(s, x.attempt) <==> SpeaksLast(s, x.attempt, m);
  }

  lemma ReasonsMean(s: State, event: AdapterEvent)
    requires event.Terminal?
    ensures forall r :: r in FailureReasons(RemoveReason(s.node.blocked, ExecutionUnknown), event) <==> BlockedAfter(s, event, r)
  {
    RemovedReasons(s.node.blocked, ExecutionUnknown);
  }

  // doubt makes the attempt unknown, once, unless another one is live
  ghost predicate DoubtReported(s: State, t: State, x: AttemptRef, effects: Effects)
    requires x.attempt in s.core.attempts
  {
    if MayBeUnknown(s, x) && !s.core.attempts[x.attempt].state.Unknown? then BecameUnknown(s, t, x, effects) else t == s
  }

  lemma DoubtProjects(s: State, x: AttemptRef, effects: Effects, ids: Ids)
    requires x.attempt in s.core.attempts
    ensures DoubtReported(s, Projection(s, x, UnknownReport(effects), ids), x, effects)
  {
    hide SetAttemptUnknown, BecameUnknown;
    UnknownMeans(s, x, effects);
  }

  // an end that can be set aside: its late row can be written, or is there
  predicate MaySetAside(s: State, x: AttemptRef, event: AdapterEvent)
    requires x.attempt in s.core.attempts && event.Terminal?
  {
    && MayBeUnknown(s, x) && FitForArchive(s, x.attempt, event)
    && !IsContradicted(s, x, event) && !(IsNews(s, x, event) && OutputBytes(event) > LIMIT)
  }

  // the attempt becomes unknown, and a late row keeps the end
  ghost predicate SetAside(s: State, t: State, x: AttemptRef, event: AdapterEvent)
    requires x.attempt in s.core.attempts && event.Terminal?
  {
    && DoubtReported(s, t.(log := t.log.(late := s.log.late)), x, Effects.Unknown)
    && if IsNews(s, x, event) && Spent(s, x.attempt) <= LIMIT then
         && |t.log.late| == |s.log.late| + 1 && t.log.late[..|s.log.late|] == s.log.late
         && t.log.late[|s.log.late|] == LateRow(x.attempt, Some(Key.Archive(Key.Terminal)), Some(OfEvent(event)),
              if Spent(s, x.attempt) + OutputBytes(event) > LIMIT then LIMIT + 1 - Spent(s, x.attempt) else OutputBytes(event))
       else t.log.late == s.log.late
  }

  // An end is believed when nothing is owed to the attempt and its effects are known. While an answer is awaited or
  // the effects are unknown it is set aside, and the attempt is unknown.
  ghost predicate EndReported(s: State, t: State, x: AttemptRef, event: AdapterEvent)
    requires x.attempt in s.core.attempts && event.Terminal?
  {
    if event.terminalEffects.None? then t == s
    else if AnswerAwaited(s, x.attempt) || event.terminalEffects.value.Unknown? then
      if MaySetAside(s, x, event) then SetAside(s, t, x, event) else t == s
    else if event.outcome.Unknown? then DoubtReported(s, t, x, event.terminalEffects.value)
    else if MayEnd(s, x, event) then Ended(s, t, x, event) else t == s
  }

  lemma EndProjects(s: State, x: AttemptRef, event: AdapterEvent, ids: Ids)
    requires x.attempt in s.core.attempts && event.Terminal?
    ensures EndReported(s, Projection(s, x, event, ids), x, event)
  {
    hide SetAttemptUnknown, BecameUnknown, ControlOwed, AnswerAwaited, OutputMatches, OutputAgrees, EndAttempt, Ended, ArchiveEvent, MaySetAside, SetAside;
    assert ControlOwed(s, x.attempt) <==> AnswerAwaited(s, x.attempt) by { AwaitedMeans(s, x.attempt); }
    if event.terminalEffects.Some? {
      UnknownMeans(s, x, event.terminalEffects.value);
      SetAsideMeans(s, x, event, ids);
      if event.output.Some? {
        AgreesMeans(s, x.attempt, event.output.value);
      }
      EndedOnce(s, x, event);
    }
  }

  lemma AwaitedMeans(s: State, a: Id)
    ensures ControlOwed(s, a) <==> AnswerAwaited(s, a)
  {
  }

  lemma AgreesMeans(s: State, a: Id, content: Content)
    requires a in s.core.attempts
    ensures OutputMatches(s, a, content) <==> OutputAgrees(s, a, content)
  {
    hide ArchivedBytes, Sum;
    assert forall m :: m in Newest(s, a) <==> SpeaksLast(s, a, m);
  }

  lemma EndedOnce(s: State, x: AttemptRef, event: AdapterEvent)
    requires x.attempt in s.core.attempts && event.Terminal? && event.terminalEffects.Some?
    ensures MayEnd(s, x, event) ==> EndAttempt(s, x, event).Some? && Ended(s, EndAttempt(s, x, event).value, x, event)
    ensures (x.attempt, Key.Terminal) in s.log.projected ==> EndAttempt(s, x, event) in {None, Some(s)}
  {
    hide TerminalDigest, Ended, OutputAgrees, FailureReasons, RemoveReason;
    if MayEnd(s, x, event) {
      EndMeans(s, x, event);
    }
  }

  // the unknown attempt and the late row of its end
  lemma SetAsideMeans(s: State, x: AttemptRef, event: AdapterEvent, ids: Ids)
    requires x.attempt in s.core.attempts && event.Terminal?
    ensures var r := SetAttemptUnknown(s, x, Effects.Unknown);
      && (MaySetAside(s, x, event) <==> r.Some? && ArchiveEvent(r.value, x, event, true, ids).Some?)
      && (MaySetAside(s, x, event) ==> SetAside(s, ArchiveEvent(r.value, x, event, true, ids).value, x, event))
  {
    hide SetAttemptUnknown, ArchiveEvent, BecameUnknown, ArchivedBytes, Sum, OutputBytes, IsNews, IsContradicted, FitForArchive, LateEvent;
    UnknownMeans(s, x, Effects.Unknown);
    UnknownFields(s, x);
    var r := SetAttemptUnknown(s, x, Effects.Unknown);
    if r.Some? {
      SameNews(s, r.value, x, event);
      ArchiveMeans(r.value, x, event, true, ids);
    }
  }

  // becoming unknown leaves what an end is compared with
  lemma SameNews(s: State, u: State, x: AttemptRef, event: AdapterEvent)
    requires x.attempt in s.core.attempts && event.Terminal? && SetAttemptUnknown(s, x, Effects.Unknown) == Some(u)
    ensures IsNews(u, x, event) == IsNews(s, x, event) && IsContradicted(u, x, event) == IsContradicted(s, x, event)
    ensures FitForArchive(u, x.attempt, event) == FitForArchive(s, x.attempt, event) && Spent(u, x.attempt) == Spent(s, x.attempt)
    ensures u.log == s.log.(events := u.log.events) && u.core.attempts[x.attempt].state.Unknown?
  {
    hide ArchivedBytes, Sum;
    assert Newest(u, x.attempt) == Newest(s, x.attempt);
  }

  // ----- the steps -----

  // what a live report leaves, kind by kind
  ghost predicate LiveReport(s: State, t: State, x: AttemptRef, event: AdapterEvent, ids: Ids)
    requires x.attempt in s.core.attempts
  {
    match event
    case Started => StartReported(s, t, x)
    case Waiting(kind) => WaitReported(s, t, x, kind)
    case AssistantDelta(message, index, content) => DeltaReported(s, t, x, message, index, content, ids.stop)
    case AssistantMessage(message, content) => MessageReported(s, t, x, message, content, ids.stop)
    case ToolStarted(call, actionHash, content) => CallReported(s, t, x, call, actionHash, content, ids.stop)
    case ToolOutput(call, index, content) => ChunkReported(s, t, x, call, index, content, ids.stop)
    case ToolCompleted(call, status, effects, content) => ResultReported(s, t, x, call, status, effects, content, ids.stop)
    case ApprovalRequested(approval, call, actionHash, bytes) => ApprovalReported(s, t, x, approval, call, actionHash, bytes, ids)
    case InputRequested(input, content) => InputReported(s, t, x, input, content, ids.stop)
    case Terminal(_, _, _, _, _) => EndReported(s, t, x, event)
    case UnknownReport(effects) => DoubtReported(s, t, x, effects)
  }

  lemma LiveProjects(s: State, x: AttemptRef, event: AdapterEvent, ids: Ids)
    requires x.attempt in s.core.attempts && x.generation == s.core.attempts[x.attempt].generation && s.node.slot == Some(x.attempt)
    ensures LiveReport(s, Projection(s, x, event, ids), x, event, ids)
  {
    hide Projection, StartReported, WaitReported, DeltaReported, MessageReported, CallReported, ChunkReported, ResultReported, ApprovalReported,
      InputReported, EndReported, DoubtReported;
    match event
    case Started => StartProjects(s, x, ids);
    case Waiting(kind) => WaitProjects(s, x, kind, ids);
    case AssistantDelta(message, index, content) => DeltaProjects(s, x, message, index, content, ids);
    case AssistantMessage(message, content) => MessageProjects(s, x, message, content, ids);
    case ToolStarted(call, actionHash, content) => CallProjects(s, x, call, actionHash, content, ids);
    case ToolOutput(call, index, content) => ChunkProjects(s, x, call, index, content, ids);
    case ToolCompleted(call, status, effects, content) => ResultProjects(s, x, call, status, effects, content, ids);
    case ApprovalRequested(approval, call, actionHash, bytes) => ApprovalProjects(s, x, approval, call, actionHash, bytes, ids);
    case InputRequested(input, content) => InputProjects(s, x, input, content, ids);
    case Terminal(_, _, _, _, _) => EndProjects(s, x, event, ids);
    case UnknownReport(effects) => DoubtProjects(s, x, effects, ids);
  }

  // A report of the attempt in the slot does what its kind says; one that asks an attempt which is stopping or
  // unknown is kept without an event, one of an attempt out of the slot is kept and announced as late, and one
  // that nobody is known for changes nothing.
  lemma ReportMeans(s: State, x: AttemptRef, event: AdapterEvent, ids: Ids)
    ensures var t := Next(s, Observe(x, event, ids));
      && (!Recognised(s, x) ==> t == s)
      && (Heard(s, x, event) ==> LiveReport(s, t, x, event, ids))
      && (Recognised(s, x) && !Heard(s, x, event) ==>
            if FitForArchive(s, x.attempt, event) && IsNews(s, x, event) && OutputBytes(event) <= LIMIT && Spent(s, x.attempt) <= LIMIT
            then Archived(s, t, x, event, Asks(event) && s.core.attempts[x.attempt].state in {AttemptState.Stopping, AttemptState.Unknown}, ids.marker)
            else t == s)
  {
    hide ProjectEvent, ArchiveEvent, Projection, LiveReport, Archived, IsNews, IsContradicted, FitForArchive, OutputBytes, ArchivedBytes, Sum;
    if Heard(s, x, event) {
      HeardIsProjected(s, x, event, ids);
      LiveProjects(s, x, event, ids);
    } else if Recognised(s, x) {
      NewsIsNotContradicted(s, x, event);
      ArchiveMeans(s, x, event, true, ids);
      ArchiveMeans(s, x, event, false, ids);
    }
  }

  lemma NewsIsNotContradicted(s: State, x: AttemptRef, event: AdapterEvent)
    requires x.attempt in s.core.attempts
    ensures IsNews(s, x, event) ==> !IsContradicted(s, x, event)
  {
  }

  // A stream that fails leaves its attempt unknown while it has the slot.
  lemma StreamMeans(s: State, x: AttemptRef)
    ensures var t := Next(s, StreamLost(x));
      if x.attempt in s.core.attempts
         && x == AttemptRef(s.core.attempts[x.attempt].dialog, s.core.attempts[x.attempt].request, x.attempt, s.core.attempts[x.attempt].generation)
      then MarkedUnknown(s, t, x) else t == s
  {
    hide MarkAttemptUnknown, MarkedUnknown;
    MarkMeans(s, x);
  }

  // an artifact of an attempt that is there, under a free name, of one of its calls if of any
  predicate MayIngest(s: State, x: AttemptRef, artifact: Id, call: Option<Id>, size: nat) {
    && x.attempt in s.core.attempts
    && var a := s.core.attempts[x.attempt];
      && a.dialog !in s.admin.tombstones && x == AttemptRef(a.dialog, a.request, x.attempt, a.generation)
      && artifact !in s.rows.artifacts && (call.Some? ==> CallOf(s, x, call.value))
      && size <= LIMIT && Spent(s, x.attempt) <= LIMIT
  }

  // the size is charged, the row written and announced
  ghost predicate Ingested(s: State, t: State, x: AttemptRef, artifact: Id, call: Option<Id>, size: nat)
    requires x.attempt in s.core.attempts
  {
    var a := s.core.attempts[x.attempt];
    && t.node == s.node && t.admin == s.admin && t.run == s.run
    && t.core == s.core.(attempts := s.core.attempts[x.attempt := a.(outputBytes := a.outputBytes + size)])
    && t.rows == s.rows.(artifacts := s.rows.artifacts[artifact := Artifact(a.dialog, x.attempt, call, size)])
    && t.log == s.log.(events := s.log.events + [LiveRow(x, ArtifactAvailable, artifact, 1)])
  }

  // the mark of the limit in its place, and the stop of an attempt at work
  ghost predicate MarkedInstead(s: State, t: State, x: AttemptRef, ids: Ids)
    requires x.attempt in s.core.attempts
  {
    var a := s.core.attempts[x.attempt]; var stops := s.node.slot == Some(x.attempt) && AtWork(s, x);
    && t.rows == s.rows && t.admin == s.admin && t.run == s.run && t.core.requests == s.core.requests
    && t.core.messages == s.core.messages[ids.marker := Message(x.dialog, s.node.nextMessageSequence, 1, Disposition.Unset, None,
                                                                Some(x.attempt), Some(OutputLimit))]
    && t.core.attempts == s.core.attempts[x.attempt :=
         if stops then a.(outputBytes := LIMIT + 1, version := a.version + 1, state := AttemptState.Stopping) else a.(outputBytes := LIMIT + 1)]
    && t.core.actions == (if stops then s.core.actions[ids.stop := Action(|s.core.actions|, ActionKind.Stop, x, 0, 0, 0, ActionStatus.Pending)]
                          else s.core.actions)
    && t.log == s.log.(
         events := s.log.events + [LiveRow(x, EventKind.AssistantMessage, ids.marker, 1)]
                   + (if stops then [LiveRow(x, AttemptStopRequested, x.attempt, a.version + 1)] else []),
         projected := s.log.projected[(x.attempt, Key.ArtifactLimit) := OfMarker(ids.marker)])
    && t.node == s.node.(stateVersion := s.node.stateVersion + (if stops then 2 else 1), nextMessageSequence := s.node.nextMessageSequence + 1)
  }

  lemma IngestMeans(s: State, x: AttemptRef, artifact: Id, call: Option<Id>, size: nat, ids: Ids)
    ensures var t := Next(s, Ingest(x, artifact, call, size, ids));
      if !MayIngest(s, x, artifact, call, size) then t == s
      else if Spent(s, x.attempt) + size <= LIMIT then Ingested(s, t, x, artifact, call, size)
      else if (x.attempt, Key.ArtifactLimit) !in s.log.projected && ids.marker !in s.core.messages
              && (s.node.slot == Some(x.attempt) && AtWork(s, x) ==> ids.stop !in s.core.actions)
      then MarkedInstead(s, t, x, ids)
      else t == s
  {
    hide Next, ArchivedBytes, Sum, Marked;
    IngestIs(s, x, artifact, call, size, ids);
    if MayIngest(s, x, artifact, call, size) && Spent(s, x.attempt) + size > LIMIT {
      if s.node.slot == Some(x.attempt) {
        MarkedMeans(AtLimit(s, x), x, Key.ArtifactLimit, OfMarker(ids.marker), ids);
      } else {
        MarkedBeside(AtLimit(s, x), x, Key.ArtifactLimit, OfMarker(ids.marker), ids);
      }
    }
  }

  function AtLimit(s: State, x: AttemptRef): State
    requires x.attempt in s.core.attempts
  {
    s.(core := s.core.(attempts := s.core.attempts[x.attempt := s.core.attempts[x.attempt].(outputBytes := LIMIT + 1)]))
  }

  lemma IngestIs(s: State, x: AttemptRef, artifact: Id, call: Option<Id>, size: nat, ids: Ids)
    ensures var t := Next(s, Ingest(x, artifact, call, size, ids));
      if !MayIngest(s, x, artifact, call, size) then t == s
      else if Spent(s, x.attempt) + size <= LIMIT then Ingested(s, t, x, artifact, call, size)
      else var r := Marked(AtLimit(s, x), x, Key.ArtifactLimit, OfMarker(ids.marker), ids); t == if r.Some? then r.value else s
  {
    hide ArchivedBytes, Sum, Marked;
  }

  // the same for an attempt without the slot: there is nothing to stop
  lemma MarkedBeside(s: State, x: AttemptRef, key: Key, digest: Digest, ids: Ids)
    requires x.attempt in s.core.attempts && s.node.slot != Some(x.attempt)
    ensures var r := Marked(s, x, key, digest, ids);
      && (r.Some? <==> (x.attempt, key) !in s.log.projected && ids.marker !in s.core.messages)
      && (r.Some? ==>
            && r.value.admin == s.admin && r.value.run == s.run && r.value.rows == s.rows
            && r.value.core == s.core.(messages := s.core.messages[ids.marker := Message(x.dialog, s.node.nextMessageSequence, 1, Disposition.Unset, None,
                                                                                        Some(x.attempt), Some(OutputLimit))])
            && r.value.log == s.log.(events := s.log.events + [LiveRow(x, EventKind.AssistantMessage, ids.marker, 1)],
                                     projected := s.log.projected[(x.attempt, key) := digest])
            && r.value.node == s.node.(stateVersion := s.node.stateVersion + 1, nextMessageSequence := s.node.nextMessageSequence + 1))
  {
  }

  // ----- reconciliation -----

  // something the attempt began has no known end
  predicate LeftOpen(s: State, a: Id) {
    || AnswerAwaited(s, a)
    || (exists c :: c in s.rows.tools && s.rows.tools[c].attempt == a && s.rows.tools[c].status.Running?)
    || (exists p :: p in s.rows.approvals && s.rows.approvals[p].attempt == a && s.rows.approvals[p].status != AnswerStatus.Resolved)
    || (exists i :: i in s.rows.inputs && s.rows.inputs[i].attempt == a && s.rows.inputs[i].status != AnswerStatus.Resolved)
    || (exists k :: k in s.log.projected && k.0 == a && k.1.ToolCompleted?
          && s.log.projected[k].OfEvent? && s.log.projected[k].event.ToolCompleted? && s.log.projected[k].event.effects.Unknown?)
  }

  // a proved end of the unknown attempt in the slot, of which nothing is left open
  predicate MayReconcile(s: State, x: AttemptRef, event: AdapterEvent) {
    && event.Terminal? && event.outcome in {Outcome.Completed, Outcome.Failed, Outcome.Interrupted}
    && event.terminalEffects in {Some(Effects.Nothing), Some(Effects.Known)}
    && s.node.slot == Some(x.attempt) && x.attempt in s.core.attempts
    && x == AttemptRef(s.core.attempts[x.attempt].dialog, s.core.attempts[x.attempt].request, x.attempt, s.core.attempts[x.attempt].generation)
    && s.core.attempts[x.attempt].state.Unknown? && !LeftOpen(s, x.attempt)
  }

  // the end names an output that is not the newest assistant message
  predicate OutputMissing(s: State, x: AttemptRef, event: AdapterEvent)
    requires event.Terminal?
  {
    && event.outcome.Completed? && event.output.Some?
    && forall m :: m in s.core.messages && SpeaksLast(s, x.attempt, m) ==> s.core.messages[m].content != Some(event.output.value)
  }

  // such an output can be added: nothing else has its name, and it is not too large by itself
  predicate MayAppend(s: State, x: AttemptRef, message: Id, output: Content)
    requires x.attempt in s.core.attempts
  {
    var key := (x.attempt, Key.AssistantMessage(message));
    if key in s.log.projected then s.log.projected[key] == OfEvent(AdapterEvent.AssistantMessage(message, output))
    else Inline(output) <= LIMIT && (Spent(s, x.attempt) <= LIMIT ==> message !in s.core.messages)
  }

  // it ended by this very end before
  ghost predicate EndedSo(s: State, x: AttemptRef, event: AdapterEvent)
    requires x.attempt in s.core.attempts && event.Terminal? && event.terminalEffects.Some?
  {
    && (event.outcome.Completed? && event.output.Some? ==> OutputAgrees(s, x.attempt, event.output.value))
    && (event.outcome.Failed? ==> event.failure.Some?)
    && (x.attempt, Key.Terminal) in s.log.projected && EndDigest(s, x, event, s.log.projected[(x.attempt, Key.Terminal)])
  }

  // A missing output is appended first; then the attempt ends as it does by a report, or nothing at all happens.
  lemma ReconcileMeans(s: State, x: AttemptRef, event: AdapterEvent, message: Id, ids: Ids)
    ensures var t := Next(s, ReconcileStep(x, event, message, ids));
      if !MayReconcile(s, x, event) then t == s
      else if !OutputMissing(s, x, event) then if MayEnd(s, x, event) then Ended(s, t, x, event) else t == s
      else if !MayAppend(s, x, message, event.output.value) then t == s
      else
        var u := Projection(s, x, AdapterEvent.AssistantMessage(message, event.output.value), ids);
        && MessageReported(s, u, x, message, event.output.value, ids.stop)
        && x.attempt in u.core.attempts
        && if MayEnd(u, x, event) then Ended(u, t, x, event) else t == if EndedSo(u, x, event) then u else s
  {
    hide Projection, ProjectEvent, MessageReported, Ended, EffectsUnresolved, LeftOpen, StoredOutput, MayEnd, MayAppend, SpeaksLast, EndedSo;
    OpenMeans(s, x.attempt);
    if MayReconcile(s, x, event) {
      if event.output.Some? {
        StoredMeans(s, x, event);
      }
      NothingIsAwaited(s, x.attempt);
      BelievedEnds(s, x, event, ids);
      if OutputMissing(s, x, event) {
        AppendMeans(s, x, message, event.output.value, ids);
        var u := Projection(s, x, AdapterEvent.AssistantMessage(message, event.output.value), ids);
        NothingIsStopped(s, u, x, message, event.output.value, ids.stop);
        BelievedEnds(u, x, event, ids);
      }
    }
  }

  lemma NothingIsAwaited(s: State, a: Id)
    ensures !LeftOpen(s, a) ==> !AnswerAwaited(s, a)
  {
  }

  lemma OpenMeans(s: State, a: Id)
    ensures EffectsUnresolved(s, a) <==> LeftOpen(s, a)
  {
  }

  lemma StoredMeans(s: State, x: AttemptRef, event: AdapterEvent)
    requires event.Terminal? && event.output.Some?
    ensures !StoredOutput(s, x.attempt, event.output.value) <==>
      forall m :: m in s.core.messages && SpeaksLast(s, x.attempt, m) ==> s.core.messages[m].content != Some(event.output.value)
  {
    assert forall m :: m in Newest(s, x.attempt) <==> SpeaksLast(s, x.attempt, m);
  }

  lemma BelievedEnds(s: State, x: AttemptRef, event: AdapterEvent, ids: Ids)
    requires x.attempt in s.core.attempts && event.Terminal? && !AnswerAwaited(s, x.attempt)
    requires event.outcome in {Outcome.Completed, Outcome.Failed, Outcome.Interrupted}
    requires event.terminalEffects in {Some(Effects.Nothing), Some(Effects.Known)}
    ensures var r := ProjectEvent(s, x, event, ids);
      if MayEnd(s, x, event) then r.Some? && Ended(s, r.value, x, event)
      else r == if EndedSo(s, x, event) then Some(s) else None
  {
    hide AnswerAwaited, ControlOwed, OutputAgrees, OutputMatches, Ended, TerminalDigest, EndDigest, RemoveReason, FailureReasons;
    AwaitedMeans(s, x.attempt);
    if event.output.Some? {
      AgreesMeans(s, x.attempt, event.output.value);
    }
    if MayEnd(s, x, event) {
      EndMeans(s, x, event);
    } else if (x.attempt, Key.Terminal) in s.log.projected {
      DigestIs(s, x, event, s.log.projected[(x.attempt, Key.Terminal)]);
    }
  }

  lemma DigestIs(s: State, x: AttemptRef, event: AdapterEvent, digest: Digest)
    requires event.Terminal? && event.terminalEffects.Some?
    ensures digest == TerminalDigest(s, x.attempt, event) <==> EndDigest(s, x, event, digest)
  {
    DigestMeans(s, x, event);
    if event.outcome.Completed? && EndDigest(s, x, event, digest) {
      assert digest.output == TerminalDigest(s, x.attempt, event).output;
    }
  }

  // an attempt that is not at work: its output is appended or refused, and nothing is stopped
  lemma AppendMeans(s: State, x: AttemptRef, message: Id, output: Content, ids: Ids)
    requires x.attempt in s.core.attempts && x.generation == s.core.attempts[x.attempt].generation && s.node.slot == Some(x.attempt) && !AtWork(s, x)
    ensures var event := AdapterEvent.AssistantMessage(message, output); var u := Projection(s, x, event, ids);
      && (ProjectEvent(s, x, event, ids).Some? <==> MayAppend(s, x, message, output))
      && (ProjectEvent(s, x, event, ids).Some? ==> ProjectEvent(s, x, event, ids).value == u)
      && MessageReported(s, u, x, message, output, ids.stop) && x.attempt in u.core.attempts && u.core.actions == s.core.actions
  {
    hide MessageReported, RecordEvent, ChargeProjection, ArchivedBytes, Sum;
    var event, key := AdapterEvent.AssistantMessage(message, output), Key.AssistantMessage(message);
    MessageProjects(s, x, message, output, ids);
    NothingIsStopped(s, Projection(s, x, event, ids), x, message, output, ids.stop);
    ChargeMeans(s, x, key, event);
    var charged := ChargeProjection(s, x.attempt, key, event);
    if charged.Admit? {
      var r := InsertAssistant(charged.state, x, message, Limited(output, charged.limited));
      if r.Some? {
        RecordMeans(r.value, x, event, key, charged.limited, ids.stop);
      }
    }
  }

  lemma NothingIsStopped(s: State, u: State, x: AttemptRef, message: Id, output: Content, stop: Id)
    requires x.attempt in s.core.attempts && !AtWork(s, x) && MessageReported(s, u, x, message, output, stop)
    ensures x.attempt in u.core.attempts && u.core.actions == s.core.actions
    ensures AnswerAwaited(u, x.attempt) == AnswerAwaited(s, x.attempt)
  {
  }
}
