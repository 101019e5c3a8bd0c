// Attempts becoming unknown or terminal, and the projection of adapter events
// (harness/node/observe.go, harness/node/reconcile.go, the charge and marker of harness/node/artifact.go).
// A result None is a transaction that returns an error and rolls back.
module HarnessObserve {
  import opened Common
  import opened OutputBudget
  import opened HarnessState

  // the unique index one_active_attempt: a second live attempt is refused (harness/node/schema.go)
  predicate OtherLive(s: State, attempt: Id) {
    exists b :: b in s.core.attempts && b != attempt && IsLive(s.core.attempts[b].state)
  }

  // setAttemptUnknown: nothing here asks whether the attempt still holds the slot
  function SetAttemptUnknown(s: State, reference: AttemptRef, effects: Effects): (r: Option<State>)
    ensures r.Some? ==> reference.attempt in r.value.core.attempts
  {
    if reference.attempt !in s.core.attempts || s.core.attempts[reference.attempt].generation != reference.generation then None
    else if s.core.attempts[reference.attempt].state.Unknown? then Some(s)
    else if OtherLive(s, reference.attempt) then None
    else
      var a := s.core.attempts[reference.attempt];
      var s1 := s.(core := s.core.(attempts := s.core.attempts[reference.attempt :=
                     a.(version := a.version + 1, state := AttemptState.Unknown, effects := effects)]));
      var s2 := SetRequest(s1, reference.request, RequestStatus.Unknown);
      var s3 := Tick(s2);
      var s4 := s3.(node := s3.node.(readiness := Readiness.Unknown, occupancy := Occupancy.Unknown,
                                     slot := Some(reference.attempt),
                                     blocked := AddReason(s3.node.blocked, ExecutionUnknown)));
      var s5 := Emit(s4, AttemptUnknown, reference.attempt, a.version + 1, Some(reference.attempt), Some(reference.dialog), false);
      Some(EmitNode(s5))
  }

  // markAttemptUnknown
  function MarkAttemptUnknown(s: State, reference: AttemptRef): State {
    if s.node.slot != Some(reference.attempt) then s
    else
      match SetAttemptUnknown(s, reference, Effects.Unknown)
      case Some(t) => t
      case None => s
  }

  function TerminalEvent(state: AttemptState): EventKind {
    if state.Completed? then AttemptCompleted else if state.Failed? then AttemptFailed else AttemptInterrupted
  }

  function TerminalStatus(state: AttemptState): RequestStatus {
    if state.Completed? then RequestStatus.Completed
    else if state.Failed? then RequestStatus.Failed
    else RequestStatus.Interrupted
  }

  // applyTerminal: execution_unknown stays among the blocked reasons
  function ApplyTerminal(s: State, reference: AttemptRef, state: AttemptState, effects: Effects): State
    requires reference.attempt in s.core.attempts
  {
    var a := s.core.attempts[reference.attempt];
    var s1 := s.(core := s.core.(attempts := s.core.attempts[reference.attempt := a.(version := a.version + 1, state := state, effects := effects)]));
    var s2 := Tick(SetRequest(s1, reference.request, TerminalStatus(state)));
    var s3 := s2.(node := s2.node.(slot := None, occupancy := Occupancy.Idle,
                                   readiness := if s2.node.readiness.Unknown? then Readiness.Blocked else s2.node.readiness));
    EmitNode(Emit(s3, TerminalEvent(state), reference.attempt, a.version + 1, Some(reference.attempt), Some(reference.dialog), false))
  }

  // Observe, for the confirmed failure that performDispatch reports when the adapter rejects a start
  function ObserveRejected(s: State, attempt: Id, generation: int): State {
    if attempt !in s.core.attempts || s.core.attempts[attempt].dialog in s.admin.tombstones then s
    else
      var a := s.core.attempts[attempt];
      if generation != a.generation || s.node.slot != Some(attempt) then
        var s1 := Emit(s, AttemptFailed, attempt, a.version, Some(attempt), Some(a.dialog), true);
        s1.(log := s1.log.(late := s1.log.late + [LateRow(attempt, None, None, 0)]))
      else ApplyTerminal(s, Reference(s, attempt), AttemptState.Failed, Effects.Nothing)
  }

  // ----- keys, digests and charges -----

  predicate Interactive(event: AdapterEvent) {
    event.Waiting? || event.ApprovalRequested? || event.InputRequested?
  }

  function LiveKey(event: AdapterEvent, version: int): Key {
    match event
    case Started => Key.Started
    case Waiting(_) => Key.Waiting(version)
    case AssistantDelta(m, i, _) => Key.AssistantDelta(m, i)
    case AssistantMessage(m, _) => Key.AssistantMessage(m)
    case ToolStarted(c, _, _) => Key.ToolStarted(c)
    case ToolOutput(c, i, _) => Key.ToolOutput(c, i)
    case ToolCompleted(c, _, _, _) => Key.ToolCompleted(c)
    case ApprovalRequested(p, _, _, _) => Key.ApprovalRequested(p)
    case InputRequested(i, _) => Key.InputRequested(i)
    case Terminal(_, _, _, _, _) => Key.Terminal
    case UnknownReport(_) => Key.Unknown
  }

  function EventKindOf(event: AdapterEvent): EventKind {
    match event
    case Started => AttemptStarted
    case Waiting(_) => AttemptWaiting
    case AssistantDelta(_, _, _) => EventKind.AssistantDelta
    case AssistantMessage(_, _) => EventKind.AssistantMessage
    case ToolStarted(_, _, _) => EventKind.ToolStarted
    case ToolOutput(_, _, _) => EventKind.ToolOutput
    case ToolCompleted(_, _, _, _) => EventKind.ToolCompleted
    case ApprovalRequested(_, _, _, _) => EventKind.ApprovalRequested
    case InputRequested(_, _) => EventKind.InputRequested
    case Terminal(outcome, _, _, _, _) =>
      if outcome.Completed? then AttemptCompleted else if outcome.Failed? then AttemptFailed else AttemptInterrupted
    case UnknownReport(_) => AttemptUnknown
  }

  function EntityOf(event: AdapterEvent, attempt: Id): Id {
    match event
    case AssistantDelta(m, _, _) => m
    case AssistantMessage(m, _) => m
    case ToolStarted(c, _, _) => c
    case ToolOutput(c, _, _) => c
    case ToolCompleted(c, _, _, _) => c
    case ApprovalRequested(p, _, _, _) => p
    case InputRequested(i, _) => i
    case _ => attempt
  }

  function ContentBytes(content: Content): nat {
    if content.Body? then content.inlineBytes else 0
  }

  // what archivedOutputLimitProjection cuts in place; any other event gives way to a marker message
  predicate CarriesContent(event: AdapterEvent) {
    IsOutput(event) || event.InputRequested?
  }

  // the entity version of an event that is archived while its attempt has this version
  function EntityVersion(event: AdapterEvent, version: int): int {
    match event
    case Started => version
    case Waiting(_) => version
    case Terminal(_, _, _, _, _) => version
    case UnknownReport(_) => version
    case AssistantDelta(_, index, _) => index + 1
    case ToolOutput(_, index, _) => index + 1
    case _ => 1
  }

  // the same while it is projected live, when a completed tool call has a version of its own
  function LiveVersion(s: State, attempt: Id, event: AdapterEvent): int {
    if event.ToolCompleted? then (if event.call in s.rows.tools then s.rows.tools[event.call].version else 1)
    else EntityVersion(event, if attempt in s.core.attempts then s.core.attempts[attempt].version else 1)
  }

  // archivedAdapterOutputBytes; the live charge of an event is the same number
  function OutputBytes(event: AdapterEvent): nat {
    match event
    case AssistantDelta(_, _, content) => ContentBytes(content)
    case AssistantMessage(_, content) => ContentBytes(content)
    case ToolStarted(_, _, content) => ContentBytes(content)
    case ToolOutput(_, _, content) => ContentBytes(content)
    case ToolCompleted(_, _, _, content) => ContentBytes(content)
    case ApprovalRequested(_, _, _, bytes) => bytes
    case InputRequested(_, content) => ContentBytes(content)
    case Terminal(_, _, failure, output, _) =>
      (if output.Some? then ContentBytes(output.value) else 0) + (if failure.Some? then failure.value.messageBytes else 0)
    case _ => 0
  }

  datatype Charging = Refuse | Drop | Admit(state: State, limited: bool)

  // the projection is looked up first, and charged only when it is new
  function ChargeProjection(s: State, attempt: Id, key: Key, event: AdapterEvent): Charging
    requires attempt in s.core.attempts
  {
    if (attempt, key) in s.log.projected then
      if s.log.projected[(attempt, key)] == OfEvent(event) then Drop else Refuse
    else if OutputBytes(event) > MAXIMUM_ATTEMPT_OUTPUT_BYTES then Refuse
    else
      var a := s.core.attempts[attempt];
      var (charge, used) := ChargeLive(a.outputBytes, Sum(ArchivedBytes(s.log.late, attempt)), OutputBytes(event));
      if charge.exceeded && !charge.newlyExceeded then Drop
      else Admit(s.(core := s.core.(attempts := s.core.attempts[attempt := a.(outputBytes := used)])), charge.exceeded)
  }

  // scheduleOutputLimitStop
  function ScheduleOutputLimitStop(s: State, reference: AttemptRef, stop: Id): Option<State> {
    if s.node.slot != Some(reference.attempt) || reference.attempt !in s.core.attempts then Some(s)
    else
      var a := s.core.attempts[reference.attempt];
      if a.generation != reference.generation || !(a.state.Running? || a.state.WaitingInput?) then Some(s)
      else if stop in s.core.actions then None
      else
        var s1 := Tick(SetAttempt(s, reference.attempt, AttemptState.Stopping));
        var s2 := Emit(s1, AttemptStopRequested, reference.attempt, a.version + 1, Some(reference.attempt), Some(reference.dialog), false);
        Some(InsertAction(s2, stop, ActionKind.Stop, reference, 0, 0, 0))
  }

  // an event row with its projection key and digest, and the stop that an overflow asks for
  function Record(s: State, reference: AttemptRef, kind: EventKind, entity: Id, version: int, key: Key, digest: Digest): Option<State> {
    if (reference.attempt, key) in s.log.projected then None
    else
      var s1 := Emit(Tick(s), kind, entity, version, Some(reference.attempt), Some(reference.dialog), false);
      Some(s1.(log := s1.log.(projected := s1.log.projected[(reference.attempt, key) := digest])))
  }

  function RecordEvent(s: State, reference: AttemptRef, event: AdapterEvent, key: Key, limited: bool, stop: Id): Option<State> {
    match Record(s, reference, EventKindOf(event), EntityOf(event, reference.attempt), LiveVersion(s, reference.attempt, event), key, OfEvent(event))
    case None => None
    case Some(t) => if limited then ScheduleOutputLimitStop(t, reference, stop) else Some(t)
  }

  function InsertAssistant(s: State, reference: AttemptRef, message: Id, content: Content): Option<State> {
    if message in s.core.messages then None
    else
      Some(s.(
        core := s.core.(messages := s.core.messages[message :=
          Message(reference.dialog, s.node.nextMessageSequence, 1, Disposition.Unset, None, Some(reference.attempt), Some(content))]),
        node := s.node.(nextMessageSequence := s.node.nextMessageSequence + 1)))
  }

  // an output-limit marker message in place of what did not fit, and the stop it schedules
  function Marked(s: State, reference: AttemptRef, key: Key, digest: Digest, ids: Ids): Option<State> {
    match InsertAssistant(s, reference, ids.marker, OutputLimit)
    case None => None
    case Some(s1) =>
      match Record(s1, reference, EventKind.AssistantMessage, ids.marker, 1, key, digest)
      case None => None
      case Some(s2) => ScheduleOutputLimitStop(s2, reference, ids.stop)
  }

  // transitionWaiting
  function TransitionWaiting(s: State, reference: AttemptRef): Option<State>
    requires reference.attempt in s.core.attempts
  {
    var a := s.core.attempts[reference.attempt];
    if !(a.state.Running? || a.state.WaitingInput?) then None
    else
      var s1 := Tick(SetAttempt(s, reference.attempt, AttemptState.WaitingInput));
      Some(Emit(s1, AttemptWaiting, reference.attempt, a.version + 1, Some(reference.attempt), Some(reference.dialog), false))
  }

  function Limited(content: Content, limited: bool): Content {
    if limited then OutputLimit else content
  }

  // ----- projectAdapterEvent and prepareProjection -----

  // ids drawn from newID while projecting
  datatype Ids = Ids(marker: Id, stop: Id)

  function ProjectEvent(s: State, reference: AttemptRef, event: AdapterEvent, ids: Ids): Option<State>
    requires reference.attempt in s.core.attempts
  {
    var a := s.core.attempts[reference.attempt];
    match event
    case Started =>
      if (reference.attempt, Key.Started) in s.log.projected then
        if s.log.projected[(reference.attempt, Key.Started)] == OfEvent(event) then Some(s) else None
      else RecordEvent(s, reference, event, Key.Started, false, ids.stop)
    case Waiting(kind) => ProjectWaiting(s, reference, event)
    case ApprovalRequested(_, _, _, _) => ProjectApproval(s, reference, event, ids)
    case InputRequested(_, _) => ProjectInput(s, reference, event, ids)
    case Terminal(_, _, _, _, _) => ProjectTerminal(s, reference, event, ids)
    case UnknownReport(effects) => SetAttemptUnknown(s, reference, effects)
    case _ => ProjectOutput(s, reference, event, ids)
  }

  function ProjectWaiting(s: State, reference: AttemptRef, event: AdapterEvent): Option<State>
    requires reference.attempt in s.core.attempts && event.Waiting?
  {
    var a := s.core.attempts[reference.attempt];
    if event.kind.Other? then None
    else if a.state.WaitingInput? then Some(s)
    else if !a.state.Running? then None
    else
      var key := Key.Waiting(a.version + 1);
      var s1 := SetAttempt(s, reference.attempt, AttemptState.WaitingInput);
      if (reference.attempt, key) in s.log.projected then
        if s.log.projected[(reference.attempt, key)] == OfEvent(event) then Some(s1) else None
      else RecordEvent(s1, reference, event, key, false, 0)
  }

  predicate IsOutput(event: AdapterEvent) {
    event.AssistantDelta? || event.AssistantMessage? || event.ToolStarted? || event.ToolOutput? || event.ToolCompleted?
  }

  function ProjectOutput(s: State, reference: AttemptRef, event: AdapterEvent, ids: Ids): Option<State>
    requires reference.attempt in s.core.attempts && IsOutput(event)
  {
    var known := (event.ToolOutput? || event.ToolCompleted?) ==>
                   event.call in s.rows.tools && s.rows.tools[event.call].attempt == reference.attempt;
    if !known then None
    else
      match ChargeProjection(s, reference.attempt, LiveKey(event, 0), event)
      case Refuse => None
      case Drop => Some(s)
      case Admit(s1, limited) =>
        match InsertOutput(s1, reference, event, limited)
        case None => None
        case Some(s2) => RecordEvent(s2, reference, event, LiveKey(event, 0), limited, ids.stop)
  }

  // the domain row an output event writes
  function InsertOutput(s: State, reference: AttemptRef, event: AdapterEvent, limited: bool): Option<State>
    requires IsOutput(event)
  {
    match event
    case AssistantMessage(message, content) => InsertAssistant(s, reference, message, Limited(content, limited))
    case ToolStarted(call, actionHash, _) =>
      if call in s.rows.tools then None
      else Some(s.(rows := s.rows.(tools := s.rows.tools[call := ToolCall(reference.attempt, actionHash, 1, ToolStatus.Running)])))
    case ToolCompleted(call, status, _, _) =>
      if call !in s.rows.tools then None
      else Some(s.(rows := s.rows.(tools := s.rows.tools[call := s.rows.tools[call].(version := s.rows.tools[call].version + 1, status := status)])))
    case _ => Some(s)
  }

  function ProjectApproval(s: State, reference: AttemptRef, event: AdapterEvent, ids: Ids): Option<State>
    requires reference.attempt in s.core.attempts && event.ApprovalRequested?
  {
    var key := Key.ApprovalRequested(event.approval);
    if !(event.call in s.rows.tools && s.rows.tools[event.call].attempt == reference.attempt
         && s.rows.tools[event.call].actionHash == event.actionHash) then None
    else
      match ChargeProjection(s, reference.attempt, key, event)
      case Refuse => None
      case Drop => Some(s)
      case Admit(s1, limited) =>
        if limited then
          Marked(s1, reference, key, OfEvent(event), ids)
        else if event.approval in s1.rows.approvals then None
        else
          var s2 := s1.(rows := s1.rows.(approvals := s1.rows.approvals[event.approval :=
                          ApprovalRow(reference.attempt, event.call, event.actionHash, 1, AnswerStatus.Pending)]));
          match TransitionWaiting(s2, reference)
          case None => None
          case Some(s3) => RecordEvent(s3, reference, event, key, false, ids.stop)
  }

  function ProjectInput(s: State, reference: AttemptRef, event: AdapterEvent, ids: Ids): Option<State>
    requires reference.attempt in s.core.attempts && event.InputRequested?
  {
    var key := Key.InputRequested(event.input);
    match ChargeProjection(s, reference.attempt, key, event)
    case Refuse => None
    case Drop => Some(s)
    case Admit(s1, limited) =>
      if event.input in s1.rows.inputs then None
      else
        var s2 := s1.(rows := s1.rows.(inputs := s1.rows.inputs[event.input := InputRow(reference.attempt, 1, AnswerStatus.Pending)]));
        if limited then RecordEvent(s2, reference, event, key, true, ids.stop)
        else
          match TransitionWaiting(s2, reference)
          case None => None
          case Some(s3) => RecordEvent(s3, reference, event, key, false, ids.stop)
  }

  function OutcomeState(outcome: Outcome): AttemptState {
    if outcome.Completed? then AttemptState.Completed
    else if outcome.Failed? then AttemptState.Failed
    else AttemptState.Interrupted
  }

  function FailureReasons(reasons: seq<Reason>, event: AdapterEvent): seq<Reason>
    requires event.Terminal?
  {
    if !event.outcome.Failed? || event.failure.None? then reasons
    else
      match event.failure.value.failureClass
      case NodeFault => AddReason(reasons, EngineUnavailable)
      case Policy => AddReason(reasons, PolicyUnavailable)
      case Protocol => AddReason(reasons, AdapterProtocol)
      case Task => reasons
  }

  predicate AssistantOf(s: State, m: Id, attempt: Id) {
    m in s.core.messages && s.core.messages[m].attempt == Some(attempt) && s.core.messages[m].content.Some?
  }

  // The newest assistant message of the attempt, if it has one: the numbers of a dialog's messages are
  // unique (harness/node/schema.go), so there is at most one.
  function Newest(s: State, attempt: Id): set<Id> {
    set m | m in s.core.messages && AssistantOf(s, m, attempt)
      && forall n :: n in s.core.messages && AssistantOf(s, n, attempt) ==> s.core.messages[n].sequence <= s.core.messages[m].sequence
  }

  // the newest assistant message of the attempt carries this content
  predicate StoredOutput(s: State, attempt: Id, content: Content) {
    exists m :: m in Newest(s, attempt) && s.core.messages[m].content == Some(content)
  }

  // the digest of a terminal projection, as it would be written now
  function TerminalDigest(s: State, attempt: Id, event: AdapterEvent): Digest
    requires event.Terminal? && event.terminalEffects.Some?
  {
    if event.outcome.Completed? then OfCompleted(Newest(s, attempt), event.usage)
    else if event.outcome.Failed? then OfFailed(event.failure, event.terminalEffects.value)
    else OfInterrupted(event.terminalEffects.value)
  }

  // a reported output is the stored one, unless an exceeded budget kept it from being stored
  predicate OutputMatches(s: State, attempt: Id, content: Content)
    requires attempt in s.core.attempts
  {
    || StoredOutput(s, attempt, content)
    || (OutputLedger(s, attempt).Exceeded()
        && (StoredOutput(s, attempt, OutputLimit)
            || !exists m :: m in s.core.messages && AssistantOf(s, m, attempt)))
  }

  // prepareTerminalProjection: owed control answers turn the terminal report into an unknown attempt
  function ProjectTerminal(s: State, reference: AttemptRef, event: AdapterEvent, ids: Ids): Option<State>
    requires reference.attempt in s.core.attempts && event.Terminal?
  {
    if event.terminalEffects.None? then None
    else if ControlOwed(s, reference.attempt) || event.terminalEffects.value.Unknown? then
      match SetAttemptUnknown(s, reference, Effects.Unknown)
      case None => None
      case Some(s1) => ArchiveEvent(s1, reference, event, true, ids)
    else
      match event.outcome
      case Unknown => SetAttemptUnknown(s, reference, event.terminalEffects.value)
      case Other => None
      case _ =>
        if event.outcome.Failed? && event.failure.None? then None
        else if event.outcome.Completed? && event.output.Some? && !OutputMatches(s, reference.attempt, event.output.value) then None
        else EndAttempt(s, reference, event)
  }

  // the terminal projection itself
  function EndAttempt(s: State, reference: AttemptRef, event: AdapterEvent): Option<State>
    requires reference.attempt in s.core.attempts && event.Terminal? && event.terminalEffects.Some?
  {
    var digest := TerminalDigest(s, reference.attempt, event);
    if (reference.attempt, Key.Terminal) in s.log.projected then
      if s.log.projected[(reference.attempt, Key.Terminal)] == digest then Some(s) else None
    else
      var a := s.core.attempts[reference.attempt];
      var state := OutcomeState(event.outcome);
      var s1 := s.(core := s.core.(attempts := s.core.attempts[reference.attempt :=
                     a.(version := a.version + 1, state := state, effects := event.terminalEffects.value)]));
      var s2 := SetRequest(s1, reference.request, TerminalStatus(state));
      var blocked := FailureReasons(RemoveReason(s2.node.blocked, ExecutionUnknown), event);
      var s3 := s2.(node := s2.node.(slot := None, occupancy := Occupancy.Idle, blocked := blocked,
                                     readiness := if blocked == [] then Readiness.Ready else Readiness.Blocked));
      match Record(s3, reference, TerminalEvent(state), reference.attempt, a.version + 1, Key.Terminal, digest)
      case None => None
      case Some(s4) => Some(EmitNode(s4))
  }

  // ----- archiveAdapterEvent -----

  datatype Lookup = Absent | Same | Conflict

  predicate ArchivedUnder(s: State, attempt: Id, key: Key) {
    exists i :: 0 <= i < |s.log.late| && s.log.late[i].attempt == attempt && s.log.late[i].key == Some(key)
  }

  predicate ArchivedAs(s: State, attempt: Id, key: Key, digest: Digest) {
    exists i :: 0 <= i < |s.log.late| && s.log.late[i].attempt == attempt && s.log.late[i].key == Some(key) && s.log.late[i].digest == Some(digest)
  }

  predicate ProjectedAs(s: State, attempt: Id, digest: Digest) {
    exists k :: k in s.log.projected && k.0 == attempt && s.log.projected[k] == digest
  }

  // The attempt was ended by such a report (activeTerminalProjectionDigest): a completed end is compared
  // with the assistant message that is the newest one now.
  predicate EndedAs(s: State, attempt: Id, event: AdapterEvent)
    requires event.Terminal? && event.terminalEffects.Some?
  {
    && (attempt, Key.Terminal) in s.log.projected
    && s.log.projected[(attempt, Key.Terminal)] == TerminalDigest(s, attempt, event)
    && (event.outcome.Completed? && event.output.Some? ==> StoredOutput(s, attempt, event.output.value))
  }

  // archivedProjectionExists
  function FindArchived(s: State, attempt: Id, event: AdapterEvent, version: int): Lookup {
    var want := OfEvent(event);
    var live := LiveKey(event, version);
    var key := Key.Archive(live);
    if ProjectedAs(s, attempt, want) then Same
    else if event.Terminal? && event.terminalEffects.Some? && EndedAs(s, attempt, event) then Same
    else if !event.Terminal? && !event.Waiting? && !event.UnknownReport? && (attempt, live) in s.log.projected then Conflict
    else if (attempt, key) in s.log.projected then Conflict
    else if ArchivedAs(s, attempt, key, want) then Same
    else if ArchivedUnder(s, attempt, key) then Conflict
    else Absent
  }

  // prepareLateProjection and validateArchivedAdapterEvent
  predicate Archivable(s: State, attempt: Id, event: AdapterEvent) {
    match event
    case ToolOutput(call, _, _) => call in s.rows.tools && s.rows.tools[call].attempt == attempt
    case ToolCompleted(call, _, _, _) => call in s.rows.tools && s.rows.tools[call].attempt == attempt
    case ApprovalRequested(_, call, actionHash, _) =>
      call in s.rows.tools && s.rows.tools[call].attempt == attempt && s.rows.tools[call].actionHash == actionHash
    case Terminal(outcome, effects, failure, _, _) =>
      effects.Some? && (outcome.Completed? || outcome.Interrupted? || (outcome.Failed? && failure.Some?))
    case _ => true
  }

  // the late event; at the crossing one that carries no content is announced as a marker message
  function EmitLate(s: State, reference: AttemptRef, event: AdapterEvent, version: int, limited: bool, marker: Id): State {
    if limited && !CarriesContent(event)
    then Emit(s, EventKind.AssistantMessage, marker, 1, Some(reference.attempt), Some(reference.dialog), true)
    else Emit(s, EventKindOf(event), EntityOf(event, reference.attempt), EntityVersion(event, version),
              Some(reference.attempt), Some(reference.dialog), true)
  }

  function ArchiveEvent(s: State, reference: AttemptRef, event: AdapterEvent, suppressed: bool, ids: Ids): Option<State>
    requires reference.attempt in s.core.attempts
  {
    var a := s.core.attempts[reference.attempt];
    var key := Key.Archive(LiveKey(event, a.version));
    if !Archivable(s, reference.attempt, event) then None
    else
      match FindArchived(s, reference.attempt, event, a.version)
      case Same => Some(s)
      case Conflict => None
      case Absent =>
        if OutputBytes(event) > MAXIMUM_ATTEMPT_OUTPUT_BYTES then None
        else
          var (charge, stored) := ChargeArchived(a.outputBytes, Sum(ArchivedBytes(s.log.late, reference.attempt)), OutputBytes(event));
          if charge.exceeded && !charge.newlyExceeded then Some(s)
          else
            var s1 := if suppressed then s else EmitLate(s, reference, event, a.version, charge.newlyExceeded, ids.marker);
            var s2 := if suppressed then s1
                      else s1.(log := s1.log.(projected := s1.log.projected[(reference.attempt, key) := OfEvent(event)]));
            var s3 := s2.(log := s2.log.(late := s2.log.late + [LateRow(reference.attempt, Some(key), Some(OfEvent(event)), stored)]));
            if charge.newlyExceeded then ScheduleOutputLimitStop(s3, reference, ids.stop) else Some(s3)
  }

  // ----- ObserveAdapterEvent -----

  // Events reach the node over the stream that performDispatch opens once the attempt has started.
  function ObserveAdapterEvent(s: State, reference: AttemptRef, event: AdapterEvent, ids: Ids): State {
    if reference.attempt !in s.core.attempts || s.core.attempts[reference.attempt].dialog in s.admin.tombstones
       || !s.core.attempts[reference.attempt].started || Reference(s, reference.attempt) != reference then s
    else
      var a := s.core.attempts[reference.attempt];
      var result :=
        if (a.state.Stopping? || a.state.Unknown?) && Interactive(event) then ArchiveEvent(s, reference, event, true, ids)
        else if s.node.slot != Some(reference.attempt) || !IsLive(a.state) then ArchiveEvent(s, reference, event, false, ids)
        else ProjectEvent(s, reference, event, ids);
      match result
      case Some(t) => t
      case None => s
  }

  // ----- StoreArtifact -----

  function StoreArtifact(s: State, reference: AttemptRef, artifact: Id, call: Option<Id>, size: nat, ids: Ids): State {
    if reference.attempt !in s.core.attempts || s.core.attempts[reference.attempt].dialog in s.admin.tombstones
       || Reference(s, reference.attempt) != reference || size > MAXIMUM_ATTEMPT_OUTPUT_BYTES
       || artifact in s.rows.artifacts
       || (call.Some? && !(call.value in s.rows.tools && s.rows.tools[call.value].attempt == reference.attempt)) then s
    else
      var a := s.core.attempts[reference.attempt];
      var (charge, used) := ChargeLive(a.outputBytes, Sum(ArchivedBytes(s.log.late, reference.attempt)), size);
      var s1 := s.(core := s.core.(attempts := s.core.attempts[reference.attempt := a.(outputBytes := used)]));
      if charge.newlyExceeded then
        match Marked(s1, reference, Key.ArtifactLimit, OfMarker(ids.marker), ids)
        case Some(t) => t
        case None => s
      else if charge.exceeded then s
      else
        Emit(s1.(rows := s1.rows.(artifacts := s1.rows.artifacts[artifact := Artifact(a.dialog, reference.attempt, call, size)])),
             ArtifactAvailable, artifact, 1, Some(reference.attempt), Some(a.dialog), false)
  }

  // ----- ReconcileUnknown -----

  // unresolvedReconciliationEffects
  predicate EffectsUnresolved(s: State, attempt: Id) {
    || ControlOwed(s, attempt)
    || (exists t :: t in s.rows.tools && s.rows.tools[t].attempt == attempt && s.rows.tools[t].status.Running?)
    || (exists p :: p in s.rows.approvals && s.rows.approvals[p].attempt == attempt && !s.rows.approvals[p].status.Resolved?)
    || (exists i :: i in s.rows.inputs && s.rows.inputs[i].attempt == attempt && !s.rows.inputs[i].status.Resolved?)
    || ToolEffectUnknown(s, attempt)
  }

  // a live tool.completed event reported an unknown effect
  predicate ToolEffectUnknown(s: State, attempt: Id) {
    exists k :: k in s.log.projected && k.0 == attempt && k.1.ToolCompleted?
      && s.log.projected[k].OfEvent? && s.log.projected[k].event.ToolCompleted? && s.log.projected[k].event.effects.Unknown?
  }

  // applyReconciledTerminal for a terminal report whose effects are proved
  function Reconcile(s: State, reference: AttemptRef, event: AdapterEvent, message: Id, ids: Ids): State {
    if !(event.Terminal? && event.terminalEffects.Some? && !event.terminalEffects.value.Unknown?
         && (event.outcome.Completed? || event.outcome.Failed? || event.outcome.Interrupted?)) then s
    else if s.node.slot != Some(reference.attempt) || reference.attempt !in s.core.attempts
            || Reference(s, reference.attempt) != reference || !s.core.attempts[reference.attempt].state.Unknown?
            || EffectsUnresolved(s, reference.attempt) then s
    else
      var appended :=
        if event.outcome.Completed? && event.output.Some? && !StoredOutput(s, reference.attempt, event.output.value)
        then ProjectEvent(s, reference, AdapterEvent.AssistantMessage(message, event.output.value), ids)
        else Some(s);
      match appended
      case None => s
      case Some(s1) =>
        if reference.attempt !in s1.core.attempts then s
        else
          match ProjectEvent(s1, reference, event, ids)
          case None => s
          case Some(s2) => s2
  }
}
