// The output budget of a node's attempts: in every run an attempt's ledger is what the charges of that
// run leave, and at most one step writes the limit's marker or stop.
module HarnessLedger {
  import opened Common
  import opened OutputBudget
  import opened HarnessState
  import opened HarnessObserve
  import opened HarnessAdmission
  import opened HarnessHold
  import opened HarnessActions
  import opened HarnessStep
  import opened HarnessInvariant

  // late observations name existing attempts
  ghost predicate LateOk(s: State) {
    forall i :: 0 <= i < |s.log.late| ==> s.log.late[i].attempt in s.core.attempts
  }

  lemma {:induction false} ArchivedBytesOfOthers(late: seq<LateRow>, a: Id)
    requires forall i :: 0 <= i < |late| ==> late[i].attempt != a
    ensures ArchivedBytes(late, a) == []
  {
    if late != [] {
      ArchivedBytesOfOthers(late[..|late| - 1], a);
    }
  }

  // ----- steps without a charge -----

  ghost predicate NoCharge(s: State, t: State) {
    && (forall a :: a in s.core.attempts ==> a in t.core.attempts && t.core.attempts[a].outputBytes == s.core.attempts[a].outputBytes)
    && (forall a :: a in t.core.attempts && a !in s.core.attempts ==> t.core.attempts[a].outputBytes == 0)
    && (t.log.late == s.log.late || UnkeyedRow(s, t))
  }

  // the late row of a refused start carries no bytes
  ghost predicate UnkeyedRow(s: State, t: State) {
    && |t.log.late| == |s.log.late| + 1
    && t.log.late == s.log.late + [t.log.late[|s.log.late|]]
    && t.log.late[|s.log.late|].key.None?
    && t.log.late[|s.log.late|].attempt in s.core.attempts
  }

  lemma NoChargeKeeps(s: State, t: State)
    requires LateOk(s) && NoCharge(s, t)
    ensures LateOk(t)
    ensures forall a :: a in s.core.attempts ==> a in t.core.attempts && OutputLedger(t, a) == OutputLedger(s, a)
    ensures forall a :: a in t.core.attempts && a !in s.core.attempts ==> OutputLedger(t, a) == Ledger(0, [])
  {
    forall a | a in t.core.attempts ensures ArchivedBytes(t.log.late, a) == ArchivedBytes(s.log.late, a) {
      if t.log.late != s.log.late {
        ArchivedBytesAppend(s.log.late, t.log.late[|s.log.late|], a);
      }
    }
    forall a | a in t.core.attempts && a !in s.core.attempts ensures ArchivedBytes(s.log.late, a) == [] {
      ArchivedBytesOfOthers(s.log.late, a);
    }
  }

  lemma QueueCommandNoCharge(s: State, id: Id, command: Command, drawn: Drawn, t: State)
    requires ApplyCommand(s, id, command, drawn) == Some(t)
    ensures NoCharge(s, t)
  {
    hide RetryPending;
  }

  lemma SubmitNoCharge(s: State, id: Id, command: Command, drawn: Drawn)
    ensures NoCharge(s, SubmitCommand(s, id, command, drawn).0)
  {
    hide ApplyCommand, Authorized, CoveredByHold;
    if SubmitCommand(s, id, command, drawn).1.Admitted? {
      QueueCommandNoCharge(s, id, command, drawn, ApplyCommand(s, id, command, drawn).value);
    }
  }

  lemma CandidateNoCharge(s: State, attempt: Id, generation: int)
    ensures NoCharge(s, DispatchCandidate(s, attempt, generation))
  {
    hide NextInQueue, NextGeneration;
  }

  lemma UnknownNoCharge(s: State, reference: AttemptRef, effects: Effects)
    ensures var r := SetAttemptUnknown(s, reference, effects); r.Some? ==> NoCharge(s, r.value)
  {
  }

  lemma MarkNoCharge(s: State, reference: AttemptRef)
    ensures NoCharge(s, MarkAttemptUnknown(s, reference))
  {
    hide SetAttemptUnknown;
    UnknownNoCharge(s, reference, Effects.Unknown);
  }

  lemma AnswersNoCharge(s: State, reference: AttemptRef)
    ensures var r := MarkStarted(s, reference); r.Some? ==> NoCharge(s, r.value)
    ensures NoCharge(s, ObserveRejected(s, reference.attempt, reference.generation))
  {
  }

  lemma SteerNoCharge(s: State, action: Action, answer: Answer)
    ensures var r := FinishSteer(s, action.reference, action.message, answer); r.Some? ==> NoCharge(s, r.value)
  {
  }

  lemma ResponseNoCharge(s: State, action: Action, answer: Answer)
    ensures var r := FinishResponse(s, action, answer); r.Some? ==> NoCharge(s, r.value)
  {
  }

  lemma SettleNoCharge(s: State, id: Id, commit: bool)
    ensures NoCharge(s, Settle(s, id, commit))
  {
    hide NoCharge, MarkStarted, FinishSteer, FinishResponse, MarkAttemptUnknown, ObserveRejected;
    NothingNoCharge(s, s);
    if id in s.run.workers && id in s.core.actions && s.run.workers[id].Answered? {
      var action := s.core.actions[id];
      AnswersNoCharge(s, action.reference);
      MarkNoCharge(s, action.reference);
      SteerNoCharge(s, action, s.run.workers[id].answer);
      ResponseNoCharge(s, action, s.run.workers[id].answer);
      var (t, phase) := SettleAction(s, id, s.run.workers[id].answer, commit);
      PhaseNoCharge(s, t, id, phase);
    }
  }

  lemma NothingNoCharge(s: State, t: State)
    requires t.core == s.core && t.log == s.log
    ensures NoCharge(s, t)
  {
  }

  lemma PhaseNoCharge(s: State, t: State, id: Id, phase: Phase)
    requires NoCharge(s, t) == true
    ensures NoCharge(s, SetPhase(t, id, phase))
  {
  }

  lemma RestartNoCharge(s: State)
    ensures NoCharge(s, Restart(s))
  {
  }

  lemma NextNoCharge(s: State, step: Step)
    requires !Observing(step) || step.StreamLost?
    ensures NoCharge(s, Next(s, step))
  {
    hide SubmitCommand, DispatchCandidate, Settle, Restart, MarkAttemptUnknown, InstallHold, ReleaseHold, DeleteLogicalDialog;
    match step
    case Submit(id, command, drawn) => SubmitNoCharge(s, id, command, drawn);
    case DispatchNext(attempt, generation) => CandidateNoCharge(s, attempt, generation);
    case Commit(action, commit) => SettleNoCharge(s, action, commit);
    case CrashAndRestart => RestartNoCharge(s);
    case StreamLost(reference) => MarkNoCharge(s, reference);
    case _ =>
      if Still(step) {
        StillTables(s, step);
      }
  }

  // ----- the charges of a step -----

  // the projection row is new
  predicate NewlyProjected(s: State, t: State, a: Id, key: Key) {
    (a, key) !in s.log.projected && (a, key) in t.log.projected
  }

  // a keyed late row of the attempt is new
  predicate NewlyArchived(s: State, t: State, a: Id) {
    |t.log.late| == |s.log.late| + 1 && t.log.late[|s.log.late|].attempt == a && t.log.late[|s.log.late|].key.Some?
  }

  // the events whose live projection is charged
  predicate Chargeable(event: AdapterEvent) {
    IsOutput(event) || event.ApprovalRequested? || event.InputRequested?
  }

  function EventCharges(s: State, t: State, a: Id, event: AdapterEvent): seq<ValidOutput> {
    if OutputBytes(event) > MAXIMUM_ATTEMPT_OUTPUT_BYTES then []
    else if NewlyArchived(s, t, a) then [Archived(OutputBytes(event))]
    else if Chargeable(event) && NewlyProjected(s, t, a, LiveKey(event, 0)) then [Live(OutputBytes(event))]
    else []
  }

  function ArtifactCharges(s: State, t: State, a: Id, artifact: Id, size: nat): seq<ValidOutput> {
    if size <= MAXIMUM_ATTEMPT_OUTPUT_BYTES
       && ((artifact !in s.rows.artifacts && artifact in t.rows.artifacts) || NewlyProjected(s, t, a, Key.ArtifactLimit))
    then [Live(size)] else []
  }

  // What a step charges to an attempt, read off the rows it adds: the bytes of a newly projected or newly
  // archived event, of a new artifact or its marker, and of the final message of a reconciliation.
  function StepCharges(s: State, step: Step, a: Id): seq<ValidOutput> {
    var t := Next(s, step);
    match step
    case Observe(reference, event, _) => if reference.attempt == a then EventCharges(s, t, a, event) else []
    case Ingest(reference, artifact, _, size, _) => if reference.attempt == a then ArtifactCharges(s, t, a, artifact, size) else []
    case ReconcileStep(reference, event, message, _) =>
      if reference.attempt == a && event.Terminal? && event.output.Some? && t.log.late == s.log.late
      then EventCharges(s, t, a, AdapterEvent.AssistantMessage(message, event.output.value)) else []
    case _ => []
  }

  // the charges of a whole run
  function Charges(s: State, steps: seq<Step>, a: Id): seq<ValidOutput> {
    if steps == [] then []
    else Charges(s, steps[..|steps| - 1], a) + StepCharges(Run(s, steps[..|steps| - 1]), steps[|steps| - 1], a)
  }

  function After(ledger: Ledger, outputs: seq<ValidOutput>): Ledger {
    if outputs == [] then ledger else Apply(ledger, outputs[0]).0
  }

  // attempt a is charged with the outputs, of which there is at most one, and the others not at all
  ghost predicate ChargedWith(s: State, t: State, a: Id, outputs: seq<ValidOutput>) {
    && a in s.core.attempts && a in t.core.attempts && |outputs| <= 1
    && LateOk(t)
    && (forall b :: b in t.core.attempts ==> b in s.core.attempts)
    && (forall b :: b in s.core.attempts && b != a ==> b in t.core.attempts && OutputLedger(t, b) == OutputLedger(s, b))
    && OutputLedger(t, a) == After(OutputLedger(s, a), outputs)
  }

  lemma NoChargeIsCharged(s: State, t: State, a: Id)
    requires LateOk(s) && NoCharge(s, t) && a in s.core.attempts && t.core.attempts.Keys == s.core.attempts.Keys
    ensures ChargedWith(s, t, a, [])
  {
    NoChargeKeeps(s, t);
  }

  lemma ThenNoCharge(s: State, t: State, u: State, a: Id, outputs: seq<ValidOutput>)
    requires ChargedWith(s, t, a, outputs) && NoCharge(t, u) && u.core.attempts.Keys == t.core.attempts.Keys
    ensures ChargedWith(s, u, a, outputs)
  {
    NoChargeKeeps(t, u);
  }

  // the byte count a live charge leaves
  lemma LiveIsCharged(s: State, t: State, a: Id, bytes: nat)
    requires LateOk(s) && a in s.core.attempts && bytes <= MAXIMUM_ATTEMPT_OUTPUT_BYTES
    requires var (charge, used) := ChargeLive(s.core.attempts[a].outputBytes, Sum(ArchivedBytes(s.log.late, a)), bytes);
      t == s.(core := s.core.(attempts := s.core.attempts[a := s.core.attempts[a].(outputBytes := used)]))
    ensures ChargedWith(s, t, a, [Live(bytes)])
    ensures Crossed(s, t, a) <==> ChargeLive(s.core.attempts[a].outputBytes, Sum(ArchivedBytes(s.log.late, a)), bytes).0.newlyExceeded
  {
    ApplyEffect(OutputLedger(s, a), Live(bytes));
    assert OutputLedger(t, a) == Apply(OutputLedger(s, a), Live(bytes)).0;
  }

  // the archive row an archived charge leaves
  lemma ArchivedIsCharged(s: State, t: State, a: Id, row: LateRow, bytes: nat)
    requires LateOk(s) && a in s.core.attempts && bytes <= MAXIMUM_ATTEMPT_OUTPUT_BYTES
    requires var (charge, stored) := ChargeArchived(s.core.attempts[a].outputBytes, Sum(ArchivedBytes(s.log.late, a)), bytes);
      && !(charge.exceeded && !charge.newlyExceeded)
      && row.attempt == a && row.key.Some? && row.outputBytes == stored
    requires t.core == s.core && t.log.late == s.log.late + [row]
    ensures ChargedWith(s, t, a, [Archived(bytes)])
    ensures Crossed(s, t, a) <==> ChargeArchived(s.core.attempts[a].outputBytes, Sum(ArchivedBytes(s.log.late, a)), bytes).0.newlyExceeded
  {
    hide LateOk, Sum;
    RowAppended(s, t, row);
    ApplyEffect(OutputLedger(s, a), Archived(bytes));
    assert OutputLedger(t, a) == Apply(OutputLedger(s, a), Archived(bytes)).0;
  }

  lemma RowAppended(s: State, t: State, row: LateRow)
    requires LateOk(s) && row.attempt in s.core.attempts && row.key.Some? && t.core == s.core && t.log.late == s.log.late + [row]
    ensures LateOk(t)
    ensures forall b :: b in s.core.attempts ==>
              ArchivedBytes(t.log.late, b) == ArchivedBytes(s.log.late, b) + (if b == row.attempt then [row.outputBytes] else [])
  {
    forall b | b in s.core.attempts
      ensures ArchivedBytes(t.log.late, b) == ArchivedBytes(s.log.late, b) + (if b == row.attempt then [row.outputBytes] else [])
    {
      ArchivedBytesAppend(s.log.late, row, b);
    }
  }

  // the step in which the ledger passes the maximum
  predicate Crossed(s: State, t: State, a: Id) {
    a in s.core.attempts && a in t.core.attempts && !OutputLedger(s, a).Exceeded() && OutputLedger(t, a).Exceeded()
  }

  // no stop is inserted, no artifact marker, and no message that carries the limit's text
  ghost predicate LimitFree(s: State, t: State, a: Id) {
    && t.core.actions.Keys == s.core.actions.Keys
    && !NewlyProjected(s, t, a, Key.ArtifactLimit)
    && (forall m :: m in s.core.messages ==> m in t.core.messages && t.core.messages[m].content == s.core.messages[m].content)
    && (forall m :: m in t.core.messages && m !in s.core.messages ==> t.core.messages[m].content != Some(OutputLimit))
  }

  lemma LimitFreeThen(s: State, t: State, u: State, a: Id)
    requires LimitFree(s, t, a) && LimitFree(t, u, a)
    ensures LimitFree(s, u, a)
  {
  }

  // nothing of the limit is written unless the ledger crosses it
  ghost predicate LimitAtCrossing(s: State, t: State, a: Id) {
    LimitFree(s, t, a) || Crossed(s, t, a)
  }

  // what is written beside a charge: it charges nothing, and archives nothing
  ghost predicate Beside(s: State, t: State) {
    NoCharge(s, t) && t.core.attempts.Keys == s.core.attempts.Keys && t.log.late == s.log.late
  }

  lemma StopBeside(s: State, reference: AttemptRef, stop: Id, t: State)
    requires ScheduleOutputLimitStop(s, reference, stop) == Some(t)
    ensures Beside(s, t) && t.log.projected == s.log.projected
  {
  }

  lemma RecordBeside(s: State, reference: AttemptRef, event: AdapterEvent, key: Key, limited: bool, stop: Id, t: State)
    requires RecordEvent(s, reference, event, key, limited, stop) == Some(t)
    ensures Beside(s, t) && t.log.projected == s.log.projected[(reference.attempt, key) := OfEvent(event)]
    ensures !limited && !key.ArtifactLimit? ==> LimitFree(s, t, reference.attempt)
  {
  }

  lemma MarkerBeside(s: State, reference: AttemptRef, key: Key, digest: Digest, ids: Ids, t: State)
    requires Marked(s, reference, key, digest, ids) == Some(t)
    ensures Beside(s, t) && t.log.projected == s.log.projected[(reference.attempt, key) := digest]
  {
  }

  lemma AskBeside(s: State, reference: AttemptRef, event: AdapterEvent, key: Key, stop: Id, t: State)
    requires reference.attempt in s.core.attempts && !key.ArtifactLimit?
    requires var w := TransitionWaiting(s, reference); w.Some? && RecordEvent(w.value, reference, event, key, false, stop) == Some(t)
    ensures Beside(s, t) && t.log.projected == s.log.projected[(reference.attempt, key) := OfEvent(event)]
    ensures LimitFree(s, t, reference.attempt)
  {
  }

  lemma WaitingBeside(s: State, reference: AttemptRef, event: AdapterEvent, t: State)
    requires reference.attempt in s.core.attempts && event.Waiting? && ProjectWaiting(s, reference, event) == Some(t)
    ensures Beside(s, t) && LimitFree(s, t, reference.attempt)
  {
  }

  lemma EndBeside(s: State, reference: AttemptRef, event: AdapterEvent, t: State)
    requires reference.attempt in s.core.attempts && event.Terminal? && event.terminalEffects.Some?
    requires EndAttempt(s, reference, event) == Some(t)
    ensures Beside(s, t) && LimitFree(s, t, reference.attempt)
    ensures forall k :: k in t.log.projected && k !in s.log.projected ==> k.1.Terminal?
  {
  }

  lemma UnknownBeside(s: State, reference: AttemptRef, effects: Effects, t: State)
    requires SetAttemptUnknown(s, reference, effects) == Some(t)
    ensures Beside(s, t) && LimitFree(s, t, reference.attempt)
    ensures t.log.projected == s.log.projected
  {
  }

  // a charge that admits, and what is written beside it
  lemma AdmittedCharge(s: State, s1: State, t: State, a: Id, key: Key, event: AdapterEvent, limited: bool)
    requires LateOk(s) && a in s.core.attempts
    requires ChargeProjection(s, a, key, event) == Admit(s1, limited)
    requires Beside(s1, t) && (a, key) in t.log.projected
    requires limited || LimitFree(s1, t, a)
    ensures ChargedWith(s, t, a, [Live(OutputBytes(event))]) && OutputBytes(event) <= MAXIMUM_ATTEMPT_OUTPUT_BYTES
    ensures NewlyProjected(s, t, a, key) && t.log.late == s.log.late && LimitAtCrossing(s, t, a)
  {
    LiveIsCharged(s, s1, a, OutputBytes(event));
    ThenNoCharge(s, s1, t, a, [Live(OutputBytes(event))]);
    NoChargeKeeps(s1, t);
    if !limited {
      LimitFreeThen(s, s1, t, a);
    }
  }

  lemma BesideIsCharged(s: State, t: State, a: Id)
    requires LateOk(s) && a in s.core.attempts && Beside(s, t)
    ensures ChargedWith(s, t, a, []) && !NewlyArchived(s, t, a)
  {
    NoChargeIsCharged(s, t, a);
  }

  lemma NothingIsCharged(s: State, a: Id)
    requires LateOk(s) && a in s.core.attempts
    ensures ChargedWith(s, s, a, []) && LimitAtCrossing(s, s, a) && !NewlyArchived(s, s, a)
  {
  }

  // ----- observing -----

  // the event does not itself carry the limit's text
  predicate Unmarked(event: AdapterEvent) {
    event.AssistantMessage? ==> event.content.Body?
  }

  lemma OutputCharged(s: State, reference: AttemptRef, event: AdapterEvent, ids: Ids, t: State)
    requires LateOk(s) && reference.attempt in s.core.attempts && IsOutput(event)
    requires ProjectOutput(s, reference, event, ids) == Some(t)
    ensures ChargedWith(s, t, reference.attempt, EventCharges(s, t, reference.attempt, event)) && t.log.late == s.log.late
    ensures Unmarked(event) ==> LimitAtCrossing(s, t, reference.attempt)
  {
    hide NoCharge, LateOk, RecordEvent, ChargedWith, LimitFree, Crossed;
    var a, key := reference.attempt, LiveKey(event, 0);
    match ChargeProjection(s, a, key, event)
    case Drop => NothingIsCharged(s, a);
    case Admit(s1, limited) =>
      var s2 := InsertOutput(s1, reference, event, limited).value;
      InsertBeside(s1, reference, event, limited, s2);
      RecordBeside(s2, reference, event, key, limited, ids.stop, t);
      BesideThen(s1, s2, t, a);
      AdmittedOutput(s, s1, t, a, key, event, limited);
  }

  // an event that carries the limit's text may write it uncharged
  lemma AdmittedOutput(s: State, s1: State, t: State, a: Id, key: Key, event: AdapterEvent, limited: bool)
    requires LateOk(s) && a in s.core.attempts
    requires ChargeProjection(s, a, key, event) == Admit(s1, limited)
    requires Beside(s1, t) && (a, key) in t.log.projected
    requires Unmarked(event) && !limited ==> LimitFree(s1, t, a)
    ensures ChargedWith(s, t, a, [Live(OutputBytes(event))]) && OutputBytes(event) <= MAXIMUM_ATTEMPT_OUTPUT_BYTES
    ensures NewlyProjected(s, t, a, key) && t.log.late == s.log.late
    ensures Unmarked(event) ==> LimitAtCrossing(s, t, a)
  {
    if Unmarked(event) {
      AdmittedCharge(s, s1, t, a, key, event, limited);
    } else {
      LiveIsCharged(s, s1, a, OutputBytes(event));
      ThenNoCharge(s, s1, t, a, [Live(OutputBytes(event))]);
    }
  }

  lemma InsertBeside(s: State, reference: AttemptRef, event: AdapterEvent, limited: bool, t: State)
    requires IsOutput(event) && InsertOutput(s, reference, event, limited) == Some(t)
    ensures Beside(s, t) && t.log == s.log
    ensures !limited && Unmarked(event) ==> LimitFree(s, t, reference.attempt)
  {
  }

  lemma BesideThen(s: State, t: State, u: State, a: Id)
    requires Beside(s, t) && Beside(t, u)
    ensures Beside(s, u)
    ensures LimitFree(s, t, a) && LimitFree(t, u, a) ==> LimitFree(s, u, a)
  {
  }

  lemma InputCharged(s: State, reference: AttemptRef, event: AdapterEvent, ids: Ids, t: State)
    requires LateOk(s) && reference.attempt in s.core.attempts && event.InputRequested?
    requires ProjectInput(s, reference, event, ids) == Some(t)
    ensures ChargedWith(s, t, reference.attempt, EventCharges(s, t, reference.attempt, event))
    ensures LimitAtCrossing(s, t, reference.attempt)
  {
    hide NoCharge, LateOk, RecordEvent, TransitionWaiting, ChargedWith, Crossed;
    var a, key := reference.attempt, Key.InputRequested(event.input);
    match ChargeProjection(s, a, key, event)
    case Drop => NothingIsCharged(s, a);
    case Admit(s1, limited) =>
      var s2 := s1.(rows := s1.rows.(inputs := s1.rows.inputs[event.input := InputRow(a, 1, AnswerStatus.Pending)]));
      RowsBeside(s1, s2, a);
      if limited {
        RecordBeside(s2, reference, event, key, true, ids.stop, t);
      } else {
        AskBeside(s2, reference, event, key, ids.stop, t);
      }
      BesideThen(s1, s2, t, a);
      AdmittedCharge(s, s1, t, a, key, event, limited);
  }

  lemma RowsBeside(s: State, t: State, a: Id)
    requires t == s.(rows := t.rows)
    ensures Beside(s, t) && LimitFree(s, t, a)
  {
  }

  lemma ApprovalCharged(s: State, reference: AttemptRef, event: AdapterEvent, ids: Ids, t: State)
    requires LateOk(s) && reference.attempt in s.core.attempts && event.ApprovalRequested?
    requires ProjectApproval(s, reference, event, ids) == Some(t)
    ensures ChargedWith(s, t, reference.attempt, EventCharges(s, t, reference.attempt, event))
    ensures LimitAtCrossing(s, t, reference.attempt)
  {
    hide NoCharge, LateOk, RecordEvent, TransitionWaiting, Marked, ChargedWith, Crossed;
    var a, key := reference.attempt, Key.ApprovalRequested(event.approval);
    match ChargeProjection(s, a, key, event)
    case Drop => NothingIsCharged(s, a);
    case Admit(s1, limited) =>
      if limited {
        MarkerBeside(s1, reference, key, OfEvent(event), ids, t);
      } else {
        var s2 := s1.(rows := s1.rows.(approvals := s1.rows.approvals[event.approval :=
                        ApprovalRow(a, event.call, event.actionHash, 1, AnswerStatus.Pending)]));
        RowsBeside(s1, s2, a);
        AskBeside(s2, reference, event, key, ids.stop, t);
        BesideThen(s1, s2, t, a);
      }
      AdmittedCharge(s, s1, t, a, key, event, limited);
  }

  lemma ArchiveCharged(s: State, reference: AttemptRef, event: AdapterEvent, suppressed: bool, ids: Ids, t: State)
    requires LateOk(s) && reference.attempt in s.core.attempts
    requires ArchiveEvent(s, reference, event, suppressed, ids) == Some(t)
    ensures t == s || (NewlyArchived(s, t, reference.attempt) && OutputBytes(event) <= MAXIMUM_ATTEMPT_OUTPUT_BYTES
                       && ChargedWith(s, t, reference.attempt, [Archived(OutputBytes(event))]))
    ensures LimitAtCrossing(s, t, reference.attempt)
  {
    hide NoCharge, LateOk, Archivable, ScheduleOutputLimitStop, ChargedWith, Crossed;
    var a, row := reference.attempt, s.core.attempts[reference.attempt];
    if t != s {
      var (charge, stored) := ChargeArchived(row.outputBytes, Sum(ArchivedBytes(s.log.late, a)), OutputBytes(event));
      var key := Key.Archive(LiveKey(event, row.version));
      var s1 := if suppressed then s else EmitLate(s, reference, event, row.version, charge.newlyExceeded, ids.marker);
      var s2 := if suppressed then s1 else s1.(log := s1.log.(projected := s1.log.projected[(a, key) := OfEvent(event)]));
      var late := LateRow(a, Some(key), Some(OfEvent(event)), stored);
      var s3 := s2.(log := s2.log.(late := s2.log.late + [late]));
      ArchivedIsCharged(s, s3, a, late, OutputBytes(event));
      if charge.newlyExceeded {
        StopBeside(s3, reference, ids.stop, t);
        ChargedLate(s, s3, a, [Archived(OutputBytes(event))]);
        ThenNoCharge(s, s3, t, a, [Archived(OutputBytes(event))]);
        ThenCrossed(s, s3, t, a);
      }
    } else {
      NothingIsCharged(s, a);
    }
  }

  lemma ThenCrossed(s: State, t: State, u: State, a: Id)
    requires LateOk(t) && Crossed(s, t, a) && Beside(t, u)
    ensures Crossed(s, u, a)
  {
    NoChargeKeeps(t, u);
  }

  lemma TerminalCharged(s: State, reference: AttemptRef, event: AdapterEvent, ids: Ids, t: State)
    requires LateOk(s) && reference.attempt in s.core.attempts && event.Terminal?
    requires ProjectTerminal(s, reference, event, ids) == Some(t)
    ensures ChargedWith(s, t, reference.attempt, EventCharges(s, t, reference.attempt, event))
    ensures LimitAtCrossing(s, t, reference.attempt)
  {
    hide NoCharge, LateOk, EndAttempt, ArchiveEvent, SetAttemptUnknown, ControlOwed, LimitFree, Crossed, ChargedWith;
    var a := reference.attempt;
    if ControlOwed(s, a) || event.terminalEffects.value.Unknown? {
      var s1 := SetAttemptUnknown(s, reference, Effects.Unknown).value;
      UnknownBeside(s, reference, Effects.Unknown, s1);
      BesideIsCharged(s, s1, a);
      NoChargeKeepsLate(s, s1);
      ArchiveCharged(s1, reference, event, true, ids, t);
      if t != s1 {
        BesideThenCharged(s, s1, t, a, [Archived(OutputBytes(event))]);
      }
      BesideThenLimit(s, s1, t, a);
    } else if event.outcome.Unknown? {
      UnknownBeside(s, reference, event.terminalEffects.value, t);
      BesideIsCharged(s, t, a);
    } else {
      EndBeside(s, reference, event, t);
      BesideIsCharged(s, t, a);
    }
  }

  lemma NoChargeKeepsLate(s: State, t: State)
    requires LateOk(s) && NoCharge(s, t)
    ensures LateOk(t)
  {
    NoChargeKeeps(s, t);
  }

  lemma BesideThenCharged(s: State, t: State, u: State, a: Id, outputs: seq<ValidOutput>)
    requires LateOk(s) && Beside(s, t) && ChargedWith(t, u, a, outputs)
    ensures ChargedWith(s, u, a, outputs)
  {
    NoChargeKeeps(s, t);
  }

  lemma BesideThenLimit(s: State, t: State, u: State, a: Id)
    requires LateOk(s) && Beside(s, t) && LimitFree(s, t, a) && LimitAtCrossing(t, u, a) && a in s.core.attempts
    ensures LimitAtCrossing(s, u, a)
  {
    NoChargeKeeps(s, t);
  }

  lemma ProjectCharged(s: State, reference: AttemptRef, event: AdapterEvent, ids: Ids, t: State)
    requires LateOk(s) && reference.attempt in s.core.attempts
    requires ProjectEvent(s, reference, event, ids) == Some(t)
    ensures ChargedWith(s, t, reference.attempt, EventCharges(s, t, reference.attempt, event))
    ensures Unmarked(event) ==> LimitAtCrossing(s, t, reference.attempt)
  {
    hide NoCharge, LateOk, ProjectOutput, ProjectInput, ProjectApproval, ProjectTerminal, ProjectWaiting, RecordEvent, SetAttemptUnknown;
    hide LimitFree, Crossed, ChargedWith;
    var a := reference.attempt;
    match event
    case Started =>
      if t == s {
        NothingIsCharged(s, a);
      } else {
        RecordBeside(s, reference, event, Key.Started, false, ids.stop, t);
        BesideIsCharged(s, t, a);
      }
    case Waiting(_) =>
      WaitingBeside(s, reference, event, t);
      BesideIsCharged(s, t, a);
    case ApprovalRequested(_, _, _, _) => ApprovalCharged(s, reference, event, ids, t);
    case InputRequested(_, _) => InputCharged(s, reference, event, ids, t);
    case Terminal(_, _, _, _, _) => TerminalCharged(s, reference, event, ids, t);
    case UnknownReport(effects) =>
      UnknownBeside(s, reference, effects, t);
      BesideIsCharged(s, t, a);
    case _ => OutputCharged(s, reference, event, ids, t);
  }

  lemma AdapterEventCharged(s: State, reference: AttemptRef, event: AdapterEvent, ids: Ids)
    requires LateOk(s) && reference.attempt in s.core.attempts
    ensures var t := ObserveAdapterEvent(s, reference, event, ids);
      && ChargedWith(s, t, reference.attempt, EventCharges(s, t, reference.attempt, event))
      && (Unmarked(event) ==> LimitAtCrossing(s, t, reference.attempt))
  {
    hide NoCharge, LateOk, ChargedWith, ProjectEvent, ArchiveEvent, LimitFree, Crossed;
    var t := ObserveAdapterEvent(s, reference, event, ids);
    var row := s.core.attempts[reference.attempt];
    NothingIsCharged(s, reference.attempt);
    if t == s {
    } else if (row.state.Stopping? || row.state.Unknown?) && Interactive(event) {
      ArchiveCharged(s, reference, event, true, ids, t);
    } else if s.node.slot != Some(reference.attempt) || !IsLive(row.state) {
      ArchiveCharged(s, reference, event, false, ids, t);
    } else {
      ProjectCharged(s, reference, event, ids, t);
    }
  }

  lemma ArtifactCharged(s: State, reference: AttemptRef, artifact: Id, call: Option<Id>, size: nat, ids: Ids)
    requires LateOk(s) && reference.attempt in s.core.attempts
    ensures var t := StoreArtifact(s, reference, artifact, call, size, ids); var a := reference.attempt;
      ChargedWith(s, t, a, ArtifactCharges(s, t, a, artifact, size)) && LimitAtCrossing(s, t, a)
  {
    hide NoCharge, LateOk, Marked, ChargedWith, LimitFree, Crossed;
    var t := StoreArtifact(s, reference, artifact, call, size, ids);
    var a, row := reference.attempt, s.core.attempts[reference.attempt];
    NothingIsCharged(s, a);
    if t != s {
      var (charge, used) := ChargeLive(row.outputBytes, Sum(ArchivedBytes(s.log.late, a)), size);
      var s1 := s.(core := s.core.(attempts := s.core.attempts[a := row.(outputBytes := used)]));
      LiveIsCharged(s, s1, a, size);
      if charge.newlyExceeded {
        MarkerBeside(s1, reference, Key.ArtifactLimit, OfMarker(ids.marker), ids, t);
        MarkerIsNew(s1, reference, Key.ArtifactLimit, OfMarker(ids.marker), ids);
        ChargedLate(s, s1, a, [Live(size)]);
        ThenCrossed(s, s1, t, a);
      } else {
        ArtifactRowBeside(s, s1, t, a);
      }
      ThenNoCharge(s, s1, t, a, [Live(size)]);
    }
  }

  lemma ChargedLate(s: State, t: State, a: Id, outputs: seq<ValidOutput>)
    requires ChargedWith(s, t, a, outputs)
    ensures LateOk(t)
  {
  }

  lemma MarkerIsNew(s: State, reference: AttemptRef, key: Key, digest: Digest, ids: Ids)
    requires Marked(s, reference, key, digest, ids).Some?
    ensures (reference.attempt, key) !in s.log.projected
  {
  }

  lemma ArtifactRowBeside(s: State, t: State, u: State, a: Id)
    requires t.core.actions == s.core.actions && t.core.messages == s.core.messages && t.log == s.log
    requires u.core == t.core && u.log.late == t.log.late && u.log.projected == t.log.projected
    ensures Beside(t, u) && LimitFree(s, u, a)
  {
  }

  // a terminal report that ends an attempt is charged for nothing but the message it adds
  lemma ReconcileCharged(s: State, reference: AttemptRef, event: AdapterEvent, message: Id, ids: Ids)
    requires LateOk(s) && reference.attempt in s.core.attempts
    ensures var t := Reconcile(s, reference, event, message, ids); var a := reference.attempt;
      && t.log.late == s.log.late
      && ChargedWith(s, t, a, if event.Terminal? && event.output.Some?
                              then EventCharges(s, t, a, AdapterEvent.AssistantMessage(message, event.output.value)) else [])
      && (!(event.Terminal? && event.output.Some? && event.output.value.OutputLimit?) ==> LimitAtCrossing(s, t, a))
  {
    hide NoCharge, LateOk, ChargedWith, ProjectEvent, EffectsUnresolved, StoredOutput, LimitFree, Crossed;
    var t := Reconcile(s, reference, event, message, ids);
    var a := reference.attempt;
    NothingIsCharged(s, a);
    if t != s {
      if event.outcome.Completed? && event.output.Some? && !StoredOutput(s, a, event.output.value) {
        var output := AdapterEvent.AssistantMessage(message, event.output.value);
        var s1 := ProjectEvent(s, reference, output, ids).value;
        ProjectIsOutput(s, reference, output, ids);
        OutputCharged(s, reference, output, ids, s1);
        OutputOwesNothing(s, reference, output, ids, s1);
        ReconciledEnd(s1, reference, event, ids, t);
        SameCharges(s, s1, t, a, output);
        ThenNoCharge(s, s1, t, a, EventCharges(s, s1, a, output));
        ChargedLate(s, s1, a, EventCharges(s, s1, a, output));
        if Unmarked(output) {
          LimitThenBeside(s, s1, t, a);
        }
      } else {
        UnresolvedOwes(s, a);
        ReconciledEnd(s, reference, event, ids, t);
        BesideIsCharged(s, t, a);
      }
    }
  }

  lemma LimitThenBeside(s: State, t: State, u: State, a: Id)
    requires LateOk(t) && LimitAtCrossing(s, t, a) && Beside(t, u) && LimitFree(t, u, a)
    ensures LimitAtCrossing(s, u, a)
  {
    NoChargeKeeps(t, u);
  }

  // the end adds no projection but its own
  lemma SameCharges(s: State, t: State, u: State, a: Id, output: AdapterEvent)
    requires output.AssistantMessage? && Beside(t, u) && t.log.late == s.log.late
    requires forall k :: k in t.log.projected ==> k in u.log.projected
    requires forall k :: k in u.log.projected && k !in t.log.projected ==> k.1.Terminal?
    ensures EventCharges(s, u, a, output) == EventCharges(s, t, a, output)
  {
  }

  lemma ProjectIsOutput(s: State, reference: AttemptRef, output: AdapterEvent, ids: Ids)
    requires reference.attempt in s.core.attempts && output.AssistantMessage?
    ensures ProjectEvent(s, reference, output, ids) == ProjectOutput(s, reference, output, ids)
  {
    hide ProjectOutput;
  }

  lemma UnresolvedOwes(s: State, a: Id)
    ensures !EffectsUnresolved(s, a) ==> !ControlOwed(s, a)
  {
  }

  lemma ReconciledEnd(s: State, reference: AttemptRef, event: AdapterEvent, ids: Ids, t: State)
    requires reference.attempt in s.core.attempts && !ControlOwed(s, reference.attempt)
    requires event.Terminal? && event.terminalEffects.Some? && !event.terminalEffects.value.Unknown?
    requires event.outcome.Completed? || event.outcome.Failed? || event.outcome.Interrupted?
    requires ProjectEvent(s, reference, event, ids) == Some(t)
    ensures Beside(s, t) && LimitFree(s, t, reference.attempt)
    ensures forall k :: k in t.log.projected && k !in s.log.projected ==> k.1.Terminal?
    ensures forall k :: k in s.log.projected ==> k in t.log.projected
  {
    hide NoCharge, EndAttempt, LimitFree;
    EndBeside(s, reference, event, t);
    EndKeepsKeys(s, reference, event, t);
  }

  lemma EndKeepsKeys(s: State, reference: AttemptRef, event: AdapterEvent, t: State)
    requires reference.attempt in s.core.attempts && event.Terminal? && event.terminalEffects.Some?
    requires EndAttempt(s, reference, event) == Some(t)
    ensures forall k :: k in s.log.projected ==> k in t.log.projected
  {
  }

  // adding the message owes no new control answer
  lemma OutputOwesNothing(s: State, reference: AttemptRef, output: AdapterEvent, ids: Ids, t: State)
    requires reference.attempt in s.core.attempts && output.AssistantMessage? && ProjectEvent(s, reference, output, ids) == Some(t)
    requires !EffectsUnresolved(s, reference.attempt)
    ensures !ControlOwed(t, reference.attempt)
  {
  }

  // ----- every step -----

  // A step charges every attempt with exactly its step charges.
  lemma StepIsCharged(s: State, step: Step, a: Id)
    requires LateOk(s) && a in s.core.attempts
    ensures var t := Next(s, step);
      && a in t.core.attempts && |StepCharges(s, step, a)| <= 1
      && OutputLedger(t, a) == After(OutputLedger(s, a), StepCharges(s, step, a))
  {
    hide LateOk, ObserveAdapterEvent, StoreArtifact, Reconcile, EventCharges, ArtifactCharges, NoCharge;
    if !Observing(step) || step.StreamLost? {
      NextNoCharge(s, step);
      NoChargeKeeps(s, Next(s, step));
    } else if step.reference.attempt !in s.core.attempts {
      AbsentIsIgnored(s, step);
      SameLedger(s, step, a);
    } else {
      match step
      case Observe(reference, event, ids) => AdapterEventCharged(s, reference, event, ids);
      case Ingest(reference, artifact, call, size, ids) => ArtifactCharged(s, reference, artifact, call, size, ids);
      case ReconcileStep(reference, event, message, ids) => ReconcileCharged(s, reference, event, message, ids);
    }
  }

  lemma SameLedger(s: State, step: Step, a: Id)
    requires Observing(step) && step.reference.attempt !in s.core.attempts && a in s.core.attempts
    ensures StepCharges(s, step, a) == []
  {
  }

  lemma AbsentIsIgnored(s: State, step: Step)
    requires Observing(step) && step.reference.attempt !in s.core.attempts
    ensures Next(s, step) == s
  {
  }

  lemma NextKeepsLate(s: State, step: Step)
    requires LateOk(s)
    ensures LateOk(Next(s, step))
  {
    hide LateOk, ObserveAdapterEvent, StoreArtifact, Reconcile, EventCharges, ArtifactCharges, NoCharge;
    if !Observing(step) || step.StreamLost? {
      NextNoCharge(s, step);
      NoChargeKeeps(s, Next(s, step));
    } else if step.reference.attempt !in s.core.attempts {
      AbsentIsIgnored(s, step);
    } else {
      match step
      case Observe(reference, event, ids) => AdapterEventCharged(s, reference, event, ids);
      case Ingest(reference, artifact, call, size, ids) => ArtifactCharged(s, reference, artifact, call, size, ids);
      case ReconcileStep(reference, event, message, ids) => ReconcileCharged(s, reference, event, message, ids);
    }
  }

  // an attempt that is not there is charged nothing, and one that appears starts with an empty ledger
  lemma NewAttempt(s: State, step: Step, a: Id)
    requires LateOk(s) && a !in s.core.attempts
    ensures StepCharges(s, step, a) == []
    ensures a in Next(s, step).core.attempts ==> OutputLedger(Next(s, step), a) == Ledger(0, [])
  {
    hide LateOk, EventCharges, ArtifactCharges, NoCharge;
    if Observing(step) && !step.StreamLost? {
      if step.reference.attempt == a {
        AbsentIsIgnored(s, step);
        AbsentCharges(s, step, a);
      } else {
        NoNewAttempt(s, step, a);
      }
    } else {
      NextNoCharge(s, step);
      NoChargeKeeps(s, Next(s, step));
    }
  }

  lemma AbsentCharges(s: State, step: Step, a: Id)
    requires Next(s, step) == s
    ensures StepCharges(s, step, a) == []
  {
    hide Next;
  }

  lemma NoNewAttempt(s: State, step: Step, a: Id)
    requires LateOk(s) && Observing(step) && !step.StreamLost? && a !in s.core.attempts
    ensures a !in Next(s, step).core.attempts
  {
    hide LateOk, ObserveAdapterEvent, StoreArtifact, Reconcile, EventCharges, ArtifactCharges;
    if step.reference.attempt !in s.core.attempts {
      AbsentIsIgnored(s, step);
    } else {
      match step
      case Observe(reference, event, ids) => AdapterEventCharged(s, reference, event, ids);
      case Ingest(reference, artifact, call, size, ids) => ArtifactCharged(s, reference, artifact, call, size, ids);
      case ReconcileStep(reference, event, message, ids) => ReconcileCharged(s, reference, event, message, ids);
    }
  }

  // ----- every run -----

  // In every run an attempt's ledger is exactly what the charges of that run, in their order, leave.
  lemma {:induction false} LedgerIsCharged(registryVersion: int, steps: seq<Step>, a: Id)
    ensures LateOk(Run(Init(registryVersion), steps))
    ensures var s := Run(Init(registryVersion), steps); var outputs := Charges(Init(registryVersion), steps, a);
      if a in s.core.attempts then OutputLedger(s, a) == Charged(outputs).ledger else outputs == []
  {
    hide Next, StepCharges;
    if steps != [] {
      var shorter, last := steps[..|steps| - 1], steps[|steps| - 1];
      var s := Run(Init(registryVersion), shorter);
      LedgerIsCharged(registryVersion, shorter, a);
      NextKeepsLate(s, last);
      if a in s.core.attempts {
        StepIsCharged(s, last, a);
        AppendCharges(Charges(Init(registryVersion), shorter, a), StepCharges(s, last, a));
      } else {
        NewAttempt(s, last, a);
      }
    }
  }

  lemma AppendCharges(earlier: seq<ValidOutput>, last: seq<ValidOutput>)
    requires |last| <= 1
    ensures Charged(earlier + last).ledger == After(Charged(earlier).ledger, last)
  {
    if last == [] {
      assert earlier + last == earlier;
    } else {
      assert (earlier + last)[..|earlier|] == earlier;
    }
  }

  // In every run, over any mix of live, archived and artifact charges: the accepted bytes of the run's
  // own charges stay within the maximum and equal the ledger until it overflows, which is announced once.
  lemma BudgetHoldsInEveryRun(registryVersion: int, steps: seq<Step>, a: Id)
    requires a in Run(Init(registryVersion), steps).core.attempts
    ensures var ledger := OutputLedger(Run(Init(registryVersion), steps), a);
      var account := Charged(Charges(Init(registryVersion), steps, a));
      && account.accepted <= MAXIMUM_ATTEMPT_OUTPUT_BYTES
      && (!ledger.Exceeded() ==> account.accepted == ledger.Total())
      && account.announced == (if ledger.Exceeded() then 1 else 0)
  {
    hide Init, Next, Run;
    LedgerIsCharged(registryVersion, steps, a);
    BudgetHolds(Charges(Init(registryVersion), steps, a));
  }

  // ----- the limit is written once -----

  // an observing step for the attempt inserts a stop, a marker message or the artifact marker, and does not
  // itself carry the limit's text
  ghost predicate WritesLimit(s: State, step: Step, a: Id) {
    && Observing(step) && step.reference.attempt == a && !LimitFree(s, Next(s, step), a)
    && (step.Observe? ==> Unmarked(step.event))
    && !(step.ReconcileStep? && step.event.Terminal? && step.event.output.Some? && step.event.output.value.OutputLimit?)
  }

  lemma LimitMeansCrossing(s: State, step: Step, a: Id)
    requires LateOk(s) && WritesLimit(s, step, a)
    ensures Crossed(s, Next(s, step), a)
  {
    hide LateOk, LimitFree, Crossed, ObserveAdapterEvent, StoreArtifact, Reconcile, MarkAttemptUnknown, EventCharges, ArtifactCharges, ChargedWith;
    SameIsLimitFree(s, a);
    if a !in s.core.attempts {
      AbsentIsIgnored(s, step);
    } else {
      match step
      case Observe(reference, event, ids) => AdapterEventCharged(s, reference, event, ids);
      case Ingest(reference, artifact, call, size, ids) => ArtifactCharged(s, reference, artifact, call, size, ids);
      case ReconcileStep(reference, event, message, ids) => ReconcileCharged(s, reference, event, message, ids);
      case StreamLost(reference) => LostIsLimitFree(s, reference);
    }
  }

  lemma SameIsLimitFree(s: State, a: Id)
    ensures LimitFree(s, s, a)
  {
  }

  lemma LostIsLimitFree(s: State, reference: AttemptRef)
    ensures LimitFree(s, MarkAttemptUnknown(s, reference), reference.attempt)
  {
  }

  // At most one step of a run writes the limit of an attempt.
  lemma LimitIsWrittenOnce(registryVersion: int, steps: seq<Step>, i: nat, j: nat, a: Id)
    requires i < j < |steps|
    requires WritesLimit(Run(Init(registryVersion), steps[..i]), steps[i], a)
    ensures !WritesLimit(Run(Init(registryVersion), steps[..j]), steps[j], a)
  {
    hide Init, Next, Run, WritesLimit, StepCharges;
    var s0 := Init(registryVersion);
    var before, after, later := Run(s0, steps[..i]), Run(s0, steps[..i + 1]), Run(s0, steps[..j]);
    RunOneMore(s0, steps, i);
    LedgerIsCharged(registryVersion, steps[..i], a);
    LimitMeansCrossing(before, steps[i], a);
    LedgerIsCharged(registryVersion, steps[..i + 1], a);
    LedgerIsCharged(registryVersion, steps[..j], a);
    var middle := steps[i + 1..j];
    assert steps[..i + 1] + middle == steps[..j];
    AttemptsStay(s0, steps[..i + 1], middle, a);
    var more := ChargesGrow(s0, steps[..i + 1], middle, a);
    OverflowIsSticky(Charges(s0, steps[..i + 1], a), more);
    if WritesLimit(later, steps[j], a) {
      LimitMeansCrossing(later, steps[j], a);
    }
  }

  lemma RunOneMore(s: State, steps: seq<Step>, i: nat)
    requires i < |steps|
    ensures Run(s, steps[..i + 1]) == Next(Run(s, steps[..i]), steps[i])
  {
    hide Next;
    assert steps[..i + 1][..i] == steps[..i];
  }

  lemma {:induction false} ChargesGrow(s: State, earlier: seq<Step>, later: seq<Step>, a: Id) returns (more: seq<ValidOutput>)
    ensures Charges(s, earlier + later, a) == Charges(s, earlier, a) + more
  {
    hide Next, StepCharges;
    if later == [] {
      assert earlier + later == earlier;
      more := [];
    } else {
      var shorter := later[..|later| - 1];
      var all := earlier + later;
      assert all[..|all| - 1] == earlier + shorter;
      var some := ChargesGrow(s, earlier, shorter, a);
      more := some + StepCharges(Run(s, earlier + shorter), later[|later| - 1], a);
    }
  }

  lemma {:induction false} AttemptsStay(s: State, earlier: seq<Step>, later: seq<Step>, a: Id)
    requires LateOk(Run(s, earlier)) && a in Run(s, earlier).core.attempts
    ensures LateOk(Run(s, earlier + later)) && a in Run(s, earlier + later).core.attempts
  {
    hide Next, LateOk, StepCharges;
    if later == [] {
      assert earlier + later == earlier;
    } else {
      var shorter := later[..|later| - 1];
      var all := earlier + later;
      assert all[..|all| - 1] == earlier + shorter;
      AttemptsStay(s, earlier, shorter, a);
      NextKeepsLate(Run(s, earlier + shorter), later[|later| - 1]);
      StepIsCharged(Run(s, earlier + shorter), later[|later| - 1], a);
    }
  }
}
