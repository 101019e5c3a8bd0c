// Four runs of a new node that reach what the theorems leave open: an ended attempt that comes back, a
// pending count that stays wrong, and a report of unknown execution and a terminal report that are archived
// the second time.
module HarnessRuns {
  import opened Common
  import opened OutputBudget
  import opened HarnessState
  import opened HarnessObserve
  import opened HarnessAdmission
  import opened HarnessActions
  import opened HarnessStep
  import opened HarnessInvariant
  import opened HarnessSlot
  import opened HarnessPending
  import opened HarnessDelivery
  import opened HarnessEndings

  const DIALOG: Id := 10
  const MESSAGE: Id := 20
  const REQUEST: Id := 30
  const ATTEMPT: Id := 40
  const INPUT: Id := 50
  const STEERED: Id := 21
  const STEERED_REQUEST: Id := 31
  const STEER: Id := 5
  const ANSWER: Id := 3
  const LATER_MESSAGE: Id := 70

  const REFERENCE := AttemptRef(DIALOG, REQUEST, ATTEMPT, 1)
  const INTERRUPTION := AdapterEvent.Terminal(Outcome.Interrupted, Some(Effects.Nothing), None, None, 0)
  const COMPLETION := AdapterEvent.Terminal(Outcome.Completed, Some(Effects.Nothing), None, None, 0)

  // one message, dispatched and started
  const OPENING: seq<Step> := [
    Submit(1, CreateDialog(0), Drawn(DIALOG, 0)),
    Submit(2, EnqueueMessage(DIALOG, 1, 0), Drawn(MESSAGE, REQUEST)),
    PeekDispatch(REQUEST),
    DispatchNext(ATTEMPT, 1),
    ClaimAction(DispatchLane, ATTEMPT),
    Gate(ATTEMPT),
    Read(ATTEMPT, true),
    Begin(ATTEMPT),
    Reply(ATTEMPT, Accepted),
    Commit(ATTEMPT, true)]

  // it asks for input, ends, and only then is the input answered
  function LateAnswer(end: AdapterEvent): (steps: seq<Step>)
    ensures |steps| == 5
  {
    [Observe(REFERENCE, AdapterEvent.InputRequested(INPUT, Body(0, 0)), Ids(0, 0)),
     Observe(REFERENCE, end, Ids(0, 0)),
     Submit(ANSWER, RespondInput(INPUT, ATTEMPT, 1, 1, 0), Drawn(60, 0)),
     ClaimAction(ControlLane, ANSWER),
     Reply(ANSWER, Answer.Error)]
  }

  // a second message is queued and steered into the attempt, and the adapter's answer is undeclared
  const UNDECLARED_STEER: seq<Step> := [
    Submit(4, EnqueueMessage(DIALOG, 2, 0), Drawn(STEERED, STEERED_REQUEST)),
    Submit(STEER, SteerMessage(DIALOG, ATTEMPT, STEERED, 1, 1), Drawn(0, 0)),
    ClaimAction(ControlLane, STEER),
    Reply(STEER, Answer.Undeclared)]

  const REPORT := AdapterEvent.UnknownReport(Effects.Unknown)

  // the attempt is reported unknown and then reconciled to an end
  const RECONCILED: seq<Step> := [
    Observe(REFERENCE, REPORT, Ids(0, 0)),
    ReconcileStep(REFERENCE, INTERRUPTION, 0, Ids(0, 0))]

  // nothing administrative has happened
  ghost predicate Plain(s: State) {
    && s.admin.tombstones == {} && s.admin.holds == map[] && s.admin.rejections == map[]
    && s.log.late == []
  }

  lemma PlainHoldsNothing(s: State, d: Id)
    requires Plain(s)
    ensures !Held(s, d) && !NodeHeld(s)
  {
  }

  // ----- the opening -----

  ghost predicate Created(s: State) {
    && Plain(s) && s.admin.dialogs == map[DIALOG := Dialog(1)] && s.admin.commands.Keys == {1}
    && s.core == Core(map[], map[], map[], map[]) && s.rows == Rows(map[], map[], map[], map[]) && s.log.projected == map[]
    && s.run == Volatile(None, map[], None)
    && !s.node.queuePaused && s.node.slot.None? && s.node.pendingCount == 0 && s.node.blocked == [PolicyUnavailable]
  }

  ghost predicate Enqueued(s: State) {
    && Plain(s) && s.admin.dialogs == map[DIALOG := Dialog(2)] && s.admin.commands.Keys == {1, 2}
    && s.core.messages.Keys == {MESSAGE} && s.core.requests.Keys == {REQUEST} && s.core.attempts == map[] && s.core.actions == map[]
    && s.core.messages[MESSAGE].dialog == DIALOG && s.core.messages[MESSAGE].disposition.Queued? && s.core.messages[MESSAGE].content.None?
    && s.core.requests[REQUEST].dialog == DIALOG && s.core.requests[REQUEST].message == MESSAGE && s.core.requests[REQUEST].status.Queued?
    && s.rows == Rows(map[], map[], map[], map[]) && s.log.projected == map[]
    && s.run.gate.None? && s.run.workers == map[]
    && !s.node.queuePaused && s.node.slot.None? && s.node.pendingCount == 1 && s.node.blocked == [PolicyUnavailable]
  }

  ghost predicate Peeked(s: State) {
    && Enqueued(s)
    && s.run.peeked == Some(Candidate(REQUEST, DIALOG, MESSAGE, s.core.requests[REQUEST].queueSequence, s.node.stateVersion))
  }

  // what holds of the one attempt from its dispatch on
  ghost predicate OneAttempt(s: State, state: AttemptState, started: bool) {
    && Plain(s) && s.admin.dialogs == map[DIALOG := Dialog(2)] && s.admin.commands.Keys == {1, 2}
    && s.core.messages.Keys == {MESSAGE} && s.core.messages[MESSAGE].content.None?
    && s.core.requests.Keys == {REQUEST} && !s.core.requests[REQUEST].status.Queued? && s.core.attempts.Keys == {ATTEMPT}
    && s.node.pendingCount == 0
    && var a := s.core.attempts[ATTEMPT];
      a.dialog == DIALOG && a.request == REQUEST && a.generation == 1 && a.state == state && a.started == started && a.outputBytes == 0
  }

  ghost predicate Dispatched(s: State, status: ActionStatus) {
    && OneAttempt(s, AttemptState.Dispatching, false)
    && s.core.actions.Keys == {ATTEMPT} && s.core.actions[ATTEMPT].kind.DispatchStart?
    && s.core.actions[ATTEMPT].reference == REFERENCE && s.core.actions[ATTEMPT].status == status
    && s.rows == Rows(map[], map[], map[], map[]) && s.log.projected == map[] && s.node.slot == Some(ATTEMPT)
  }

  ghost predicate Working(s: State, phase: Phase) {
    && Dispatched(s, ActionStatus.Inflight)
    && s.run.workers == map[ATTEMPT := phase]
  }

  lemma CreateStep()
    ensures Created(SubmitCommand(Init(0), 1, CreateDialog(0), Drawn(DIALOG, 0)).0)
  {
    assert !NodeHeld(Init(0));
  }

  lemma EnqueueStep(s: State)
    requires Created(s)
    ensures Enqueued(SubmitCommand(s, 2, EnqueueMessage(DIALOG, 1, 0), Drawn(MESSAGE, REQUEST)).0)
  {
    PlainHoldsNothing(s, DIALOG);
    assert 2 !in s.admin.commands;
  }

  lemma PeekStep(s: State)
    requires Enqueued(s)
    ensures Peeked(Peek(s, REQUEST))
  {
    PlainHoldsNothing(s, DIALOG);
    assert IsQueued(s, REQUEST);
  }

  lemma DispatchStep(s: State)
    requires Peeked(s)
    ensures var t := DispatchCandidate(s, ATTEMPT, 1);
      Dispatched(t, ActionStatus.Pending) && t.run.gate.None? && t.run.workers == map[]
  {
    PlainHoldsNothing(s, DIALOG);
    assert IsQueued(s, REQUEST);
    assert NextInQueue(s, REQUEST);
    assert NextGeneration(s, MESSAGE, 1);
  }

  lemma ClaimStep(s: State)
    requires Dispatched(s, ActionStatus.Pending) && s.run.gate.None? && s.run.workers == map[]
    ensures var t := Claim(s, DispatchLane, ATTEMPT); Working(t, Claimed) && t.run.gate.None?
  {
    PlainHoldsNothing(s, DIALOG);
    assert Claimable(s, ATTEMPT, DispatchLane);
  }

  lemma CallSteps(s: State)
    requires Working(s, Claimed) && s.run.gate.None?
    ensures var gated := TakeGate(s, ATTEMPT); var read := ReadDispatch(gated, ATTEMPT, true);
      Working(TakeAnswer(BeginCall(read, ATTEMPT), ATTEMPT, Accepted), Answered(Accepted))
  {
    var gated := TakeGate(s, ATTEMPT);
    assert Working(gated, Gated);
    var read := ReadDispatch(gated, ATTEMPT, true);
    assert Working(read, read.run.workers[ATTEMPT]) && read.run.workers[ATTEMPT].Ready?;
  }

  ghost predicate Started(s: State) {
    && OneAttempt(s, AttemptState.Running, true)
    && s.core.actions.Keys == {ATTEMPT} && s.core.actions[ATTEMPT].kind.DispatchStart?
    && s.rows == Rows(map[], map[], map[], map[]) && s.log.projected == map[(ATTEMPT, Key.Started) := OfEvent(AdapterEvent.Started)]
    && s.node.slot == Some(ATTEMPT) && s.run.workers.Keys == {ATTEMPT} && s.run.workers[ATTEMPT].Finishing?
  }

  lemma StartStep(s: State)
    requires Working(s, Answered(Accepted))
    ensures Started(Settle(s, ATTEMPT, true))
  {
    hide FinishSteer, FinishResponse, ObserveRejected, MarkAttemptUnknown;
    assert MarkStarted(s, REFERENCE).Some?;
  }

  // ----- the late answer -----

  ghost predicate Asked(s: State, state: AttemptState) {
    && OneAttempt(s, state, true)
    && s.core.actions.Keys == {ATTEMPT} && s.core.actions[ATTEMPT].kind.DispatchStart?
    && s.rows == Rows(map[], map[], map[INPUT := InputRow(ATTEMPT, 1, AnswerStatus.Pending)], map[])
    && s.log.projected.Keys == {(ATTEMPT, Key.Started), (ATTEMPT, Key.InputRequested(INPUT))}
    && (forall k :: k in s.log.projected ==> !s.log.projected[k].OfEvent? || !s.log.projected[k].event.Terminal?)
    && s.run.workers.Keys == {ATTEMPT}
  }

  lemma AskStep(s: State)
    requires Started(s)
    ensures var t := ObserveAdapterEvent(s, REFERENCE, AdapterEvent.InputRequested(INPUT, Body(0, 0)), Ids(0, 0));
      Asked(t, AttemptState.WaitingInput) && t.node.slot == Some(ATTEMPT)
  {
    hide ArchiveEvent, ProjectWaiting, ProjectOutput, ProjectApproval, ProjectTerminal, SetAttemptUnknown, ScheduleOutputLimitStop;
    assert ArchivedBytes(s.log.late, ATTEMPT) == [];
    assert Sum([]) == 0;
  }

  ghost predicate Ended(s: State, state: AttemptState) {
    && OneAttempt(s, state, true) && NoTerminalEvent(s)
    && s.core.actions.Keys == {ATTEMPT} && s.core.actions[ATTEMPT].kind.DispatchStart?
    && s.rows == Rows(map[], map[], map[INPUT := InputRow(ATTEMPT, 1, AnswerStatus.Pending)], map[])
    && s.run.workers.Keys == {ATTEMPT} && s.node.slot.None?
  }

  // no terminal event, and no output, has been stored under its own content
  ghost predicate NoTerminalEvent(s: State) {
    forall k :: k in s.log.projected ==>
      !k.1.Archive? && !k.1.AssistantMessage? && !(s.log.projected[k].OfEvent? && s.log.projected[k].event.Terminal?)
  }

  lemma EndStep(s: State, end: AdapterEvent)
    requires Asked(s, AttemptState.WaitingInput) && s.node.slot == Some(ATTEMPT) && (end == INTERRUPTION || end == COMPLETION)
    ensures Ended(ObserveAdapterEvent(s, REFERENCE, end, Ids(0, 0)), OutcomeState(end.outcome))
  {
    hide EndAttempt, Ended, Newest;
    EndsBy(s, end);
    EndLeaves(s, end);
  }

  lemma EndsBy(s: State, end: AdapterEvent)
    requires Asked(s, AttemptState.WaitingInput) && s.node.slot == Some(ATTEMPT) && (end == INTERRUPTION || end == COMPLETION)
    ensures ObserveAdapterEvent(s, REFERENCE, end, Ids(0, 0)) == Else(EndAttempt(s, REFERENCE, end), s)
  {
    hide EndAttempt, ArchiveEvent, ProjectWaiting, ProjectOutput, ProjectApproval, ProjectInput, SetAttemptUnknown;
    assert !ControlOwed(s, ATTEMPT);
  }

  lemma EndLeaves(s: State, end: AdapterEvent)
    requires Asked(s, AttemptState.WaitingInput) && s.node.slot == Some(ATTEMPT) && (end == INTERRUPTION || end == COMPLETION)
    ensures Ended(Else(EndAttempt(s, REFERENCE, end), s), OutcomeState(end.outcome))
  {
    hide Newest;
  }

  ghost predicate Responded(s: State, state: AttemptState, status: ActionStatus) {
    && Plain(s) && NoTerminalEvent(s) && (forall m :: m in s.core.messages ==> m != LATER_MESSAGE && s.core.messages[m].content.None?)
    && s.core.attempts.Keys == {ATTEMPT} && s.core.attempts[ATTEMPT].state == state && s.core.attempts[ATTEMPT].started
    && s.core.attempts[ATTEMPT].outputBytes == 0 && Reference(s, ATTEMPT) == REFERENCE
    && s.core.actions.Keys == {ATTEMPT, ANSWER} && s.core.actions[ATTEMPT].kind.DispatchStart?
    && s.core.actions[ANSWER].kind.Input? && s.core.actions[ANSWER].reference == REFERENCE && s.core.actions[ANSWER].status == status
  }

  // the response is admitted although the attempt has ended
  lemma RespondStep(s: State, state: AttemptState)
    requires Ended(s, state)
    ensures var (t, reply) := SubmitCommand(s, ANSWER, RespondInput(INPUT, ATTEMPT, 1, 1, 0), Drawn(60, 0));
      reply == Admitted && Responded(t, state, ActionStatus.Pending) && t.run.workers == s.run.workers
  {
    assert ANSWER !in s.admin.commands && ANSWER !in s.admin.rejections;
  }

  lemma AnswerSteps(s: State, state: AttemptState)
    requires Responded(s, state, ActionStatus.Pending) && s.run.workers.Keys == {ATTEMPT}
    ensures var t := TakeAnswer(Claim(s, ControlLane, ANSWER), ANSWER, Answer.Error);
      Responded(t, state, ActionStatus.Inflight) && ANSWER in t.run.workers && t.run.workers[ANSWER] == Answered(Answer.Error)
  {
    assert Claimable(s, ANSWER, ControlLane);
    assert !Claimable(s, ATTEMPT, ControlLane);
  }

  // ----- the run -----

  lemma PeekedRun()
    ensures Peeked(Run(Init(0), OPENING[..3]))
  {
    hide Created, Enqueued, Peeked, Init, SubmitCommand, Peek, Run;
    RunUnfolds(Init(0), OPENING, 0);
    RunUnfolds(Init(0), OPENING, 1);
    RunUnfolds(Init(0), OPENING, 2);
    RunOfNothing(Init(0));
    CreateStep();
    EnqueueStep(Run(Init(0), OPENING[..1]));
    PeekStep(Run(Init(0), OPENING[..2]));
  }

  lemma ClaimedRun()
    ensures var s := Run(Init(0), OPENING[..5]); Working(s, Claimed) && s.run.gate.None?
  {
    hide Peeked, Dispatched, Working, Init, DispatchCandidate, Claim, Run;
    PeekedRun();
    RunUnfolds(Init(0), OPENING, 3);
    DispatchStep(Run(Init(0), OPENING[..3]));
    RunUnfolds(Init(0), OPENING, 4);
    ClaimStep(Run(Init(0), OPENING[..4]));
  }

  lemma RunOfNothing(s: State)
    ensures Run(s, OPENING[..0]) == s
  {
    hide Next;
  }

  lemma OpeningRun()
    ensures Started(Run(Init(0), OPENING))
  {
    hide Working, Started, Init, TakeGate, ReadDispatch, BeginCall, TakeAnswer, Settle, Run;
    ClaimedRun();
    CallSteps(Run(Init(0), OPENING[..5]));
    RunUnfolds(Init(0), OPENING, 5);
    RunUnfolds(Init(0), OPENING, 6);
    RunUnfolds(Init(0), OPENING, 7);
    RunUnfolds(Init(0), OPENING, 8);
    StartStep(Run(Init(0), OPENING[..9]));
    RunUnfolds(Init(0), OPENING, 9);
    assert OPENING[..10] == OPENING;
  }

  lemma RunUnfolds(s: State, steps: seq<Step>, k: nat)
    requires k < |steps|
    ensures Run(s, steps[..k + 1]) == Next(Run(s, steps[..k]), steps[k])
  {
    hide Next;
    assert steps[..k + 1][..k] == steps[..k];
  }

  // the attempt has ended, and the answer to its input is there
  lemma AnsweredRun(end: AdapterEvent)
    requires end == INTERRUPTION || end == COMPLETION
    ensures var s := Run(Init(0), OPENING + LateAnswer(end));
      && Responded(s, OutcomeState(end.outcome), ActionStatus.Inflight)
      && ANSWER in s.run.workers && s.run.workers[ANSWER] == Answered(Answer.Error)
    ensures var before := Run(Init(0), OPENING + LateAnswer(end)[..1]); var after := Run(Init(0), OPENING + LateAnswer(end)[..2]);
      Asked(before, AttemptState.WaitingInput) && Ended(after, OutcomeState(end.outcome))
  {
    hide Run, Started, Asked, Ended, Responded, Init, SubmitCommand, Claim, TakeAnswer, ObserveAdapterEvent, LateAnswer;
    var state := OutcomeState(end.outcome);
    var s0 := Run(Init(0), OPENING);
    OpeningRun();
    LateAnswerUnfolds(end);
    LateAnswerSteps(end);
    AskStep(s0);
    ObserveIs(s0, REFERENCE, AdapterEvent.InputRequested(INPUT, Body(0, 0)), Ids(0, 0));
    var s1 := Next(s0, LateAnswer(end)[0]);
    EndStep(s1, end);
    ObserveIs(s1, REFERENCE, end, Ids(0, 0));
    var s2 := Next(s1, LateAnswer(end)[1]);
    RespondStep(s2, state);
    var s3 := Next(s2, LateAnswer(end)[2]);
    EndedWorkers(s2, state);
    AnswerSteps(s3, state);
  }

  lemma LateAnswerSteps(end: AdapterEvent)
    ensures LateAnswer(end)[0] == Observe(REFERENCE, AdapterEvent.InputRequested(INPUT, Body(0, 0)), Ids(0, 0))
    ensures LateAnswer(end)[1] == Observe(REFERENCE, end, Ids(0, 0))
    ensures LateAnswer(end)[2] == Submit(ANSWER, RespondInput(INPUT, ATTEMPT, 1, 1, 0), Drawn(60, 0))
    ensures LateAnswer(end)[3] == ClaimAction(ControlLane, ANSWER)
    ensures LateAnswer(end)[4] == Reply(ANSWER, Answer.Error)
  {
  }

  lemma EndedWorkers(s: State, state: AttemptState)
    requires Ended(s, state)
    ensures s.run.workers.Keys == {ATTEMPT}
  {
  }

  lemma LateAnswerUnfolds(end: AdapterEvent)
    ensures var late := LateAnswer(end); var s := Run(Init(0), OPENING);
      && Run(Init(0), OPENING + late[..1]) == Next(s, late[0])
      && Run(Init(0), OPENING + late[..2]) == Next(Next(s, late[0]), late[1])
      && Run(Init(0), OPENING + late) == Next(Next(Next(Next(Next(s, late[0]), late[1]), late[2]), late[3]), late[4])
  {
    hide Next, Init, LateAnswer;
    var steps := OPENING + LateAnswer(end);
    RunUnfolds(Init(0), steps, 10);
    RunUnfolds(Init(0), steps, 11);
    RunUnfolds(Init(0), steps, 12);
    RunUnfolds(Init(0), steps, 13);
    RunUnfolds(Init(0), steps, 14);
    assert steps[..10] == OPENING && steps[..15] == steps;
    assert steps[..11] == OPENING + LateAnswer(end)[..1] && steps[..12] == OPENING + LateAnswer(end)[..2];
  }

  // The ended attempt is unknown again and holds the slot.
  lemma EndedAttemptComesBack(end: AdapterEvent)
    requires end == INTERRUPTION || end == COMPLETION
    ensures var s := Run(Init(0), OPENING + LateAnswer(end)); var t := Next(s, Commit(ANSWER, true));
      && Resurrects(s, Commit(ANSWER, true), ATTEMPT)
      && ATTEMPT in t.core.attempts && t.core.attempts[ATTEMPT].state.Unknown? && t.node.slot == Some(ATTEMPT)
  {
    hide Init, Next, Run, Base, LateAnswer, Responded, Resurrects;
    var s := Run(Init(0), OPENING + LateAnswer(end));
    AnsweredRun(end);
    RunKeepsBase(0, OPENING + LateAnswer(end));
    AnswerResurrects(s, OutcomeState(end.outcome));
    ResponseResurrects(s, ANSWER, ATTEMPT);
  }

  lemma AnswerResurrects(s: State, state: AttemptState)
    requires Responded(s, state, ActionStatus.Inflight) && IsTerminal(state)
    requires ANSWER in s.run.workers && s.run.workers[ANSWER] == Answered(Answer.Error)
    ensures Resurrects(s, Commit(ANSWER, true), ATTEMPT)
  {
  }

  // ----- a pending count that stays wrong -----

  // the attempt runs, and a second message waits
  ghost predicate SecondWaits(s: State) {
    && Plain(s) && s.admin.dialogs.Keys == {DIALOG} && s.admin.commands.Keys == {1, 2, 4}
    && s.core.attempts.Keys == {ATTEMPT} && s.core.attempts[ATTEMPT].state.Running? && s.core.attempts[ATTEMPT].generation == 1
    && s.core.attempts[ATTEMPT].dialog == DIALOG
    && s.core.requests.Keys == {REQUEST, STEERED_REQUEST} && !s.core.requests[REQUEST].status.Queued?
    && s.core.requests[STEERED_REQUEST].status.Queued?
    && STEERED in s.core.messages && s.core.messages[STEERED].dialog == DIALOG && s.core.messages[STEERED].version == 1
    && s.core.messages[STEERED].disposition.Queued? && s.core.messages[STEERED].request == Some(STEERED_REQUEST)
    && s.core.actions.Keys == {ATTEMPT} && s.core.actions[ATTEMPT].kind.DispatchStart?
    && s.node.slot == Some(ATTEMPT) && s.node.pendingCount == 1 && s.run.workers.Keys == {ATTEMPT}
  }

  lemma SecondStep(s: State)
    requires Started(s)
    ensures SecondWaits(SubmitCommand(s, 4, EnqueueMessage(DIALOG, 2, 0), Drawn(STEERED, STEERED_REQUEST)).0)
  {
    PlainHoldsNothing(s, DIALOG);
    assert 4 !in s.admin.commands;
  }

  ghost predicate Steering(s: State, status: ActionStatus) {
    && s.core.attempts.Keys == {ATTEMPT} && s.core.attempts[ATTEMPT].state.Running? && s.core.attempts[ATTEMPT].generation == 1
    && s.core.requests.Keys == {REQUEST, STEERED_REQUEST} && !s.core.requests[REQUEST].status.Queued?
    && s.core.requests[STEERED_REQUEST].status.Queued?
    && s.core.actions.Keys == {ATTEMPT, STEER} && s.core.actions[ATTEMPT].kind.DispatchStart?
    && s.core.actions[STEER].kind.Steer? && s.core.actions[STEER].status == status
    && s.core.actions[STEER].reference == AttemptRef(DIALOG, STEERED_REQUEST, ATTEMPT, 1)
    && s.node.slot == Some(ATTEMPT) && s.node.pendingCount == 1
  }

  lemma SteerStep(s: State)
    requires SecondWaits(s)
    ensures var t := SubmitCommand(s, STEER, SteerMessage(DIALOG, ATTEMPT, STEERED, 1, 1), Drawn(0, 0)).0;
      Steering(t, ActionStatus.Pending) && t.run.workers == s.run.workers
  {
    PlainHoldsNothing(s, DIALOG);
    assert STEER !in s.admin.commands && STEER !in s.admin.rejections;
  }

  lemma UndeclaredSteps(s: State)
    requires Steering(s, ActionStatus.Pending) && s.run.workers.Keys == {ATTEMPT}
    ensures var t := TakeAnswer(Claim(s, ControlLane, STEER), STEER, Answer.Undeclared);
      Steering(t, ActionStatus.Inflight) && STEER in t.run.workers && t.run.workers[STEER] == Answered(Answer.Undeclared)
  {
    assert Claimable(s, STEER, ControlLane);
    assert !Claimable(s, ATTEMPT, ControlLane);
  }

  // Nothing is queued and the count says one, after the first commit and still after a second transaction
  // that failed.
  lemma CountStaysWrong()
    ensures var steps := OPENING + UNDECLARED_STEER; var s := Run(Init(0), steps);
      var t := Next(s, Commit(STEER, true)); var u := Next(t, Commit(STEER, false));
      && Breaks(s, Commit(STEER, true)) && s.node.pendingCount == |QueuedSet(s)| == 1
      && QueuedSet(t) == {} && t.node.pendingCount == 1
      && QueuedSet(u) == {} && u.node.pendingCount == 1 && u.run.workers[STEER] == Finishing(ActionStatus.Unknown)
  {
    hide Started, SecondWaits, Init, Base, Settle, SubmitCommand, Claim, TakeAnswer, Breaks;
    var steps := OPENING + UNDECLARED_STEER;
    var s0 := Run(Init(0), OPENING);
    OpeningRun();
    SecondStep(s0);
    var s1 := Next(s0, UNDECLARED_STEER[0]);
    SteerStep(s1);
    SecondWorkers(s1);
    var s2 := Next(s1, UNDECLARED_STEER[1]);
    UndeclaredSteps(s2);
    var s4 := Next(Next(s2, UNDECLARED_STEER[2]), UNDECLARED_STEER[3]);
    UndeclaredUnfolds();
    BrokenCommits(s4);
  }

  lemma SecondWorkers(s: State)
    requires SecondWaits(s)
    ensures s.run.workers.Keys == {ATTEMPT}
  {
  }

  lemma BrokenCommits(s: State)
    requires s == Run(Init(0), OPENING + UNDECLARED_STEER)
    requires Steering(s, ActionStatus.Inflight) && STEER in s.run.workers && s.run.workers[STEER] == Answered(Answer.Undeclared)
    ensures var t := Next(s, Commit(STEER, true)); var u := Next(t, Commit(STEER, false));
      && Breaks(s, Commit(STEER, true)) && s.node.pendingCount == |QueuedSet(s)| == 1
      && QueuedSet(t) == {} && t.node.pendingCount == 1
      && QueuedSet(u) == {} && u.node.pendingCount == 1 && u.run.workers[STEER] == Finishing(ActionStatus.Unknown)
  {
    hide Init, Run, Base, Settle, Slotted, SubmitCommand;
    RunKeepsBase(0, OPENING + UNDECLARED_STEER);
    OneLiveAttempt(0, OPENING + UNDECLARED_STEER);
    assert IsQueued(s, STEERED_REQUEST);
    assert Breaks(s, Commit(STEER, true));
    assert QueuedSet(s) == {STEERED_REQUEST};
    FirstCommit(s, STEER);
    SecondFails(Settle(s, STEER, true), STEER);
  }

  lemma UndeclaredUnfolds()
    ensures Run(Init(0), OPENING + UNDECLARED_STEER)
         == Next(Next(Next(Next(Run(Init(0), OPENING), UNDECLARED_STEER[0]), UNDECLARED_STEER[1]), UNDECLARED_STEER[2]), UNDECLARED_STEER[3])
  {
    hide Next, Init;
    var steps := OPENING + UNDECLARED_STEER;
    RunUnfolds(Init(0), steps, 10);
    RunUnfolds(Init(0), steps, 11);
    RunUnfolds(Init(0), steps, 12);
    RunUnfolds(Init(0), steps, 13);
    assert steps[..10] == OPENING && steps[..14] == steps;
  }

  // ----- a report of unknown execution that comes again -----

  ghost predicate Reported(s: State, state: AttemptState) {
    && OneAttempt(s, state, true)
    && s.core.actions.Keys == {ATTEMPT} && s.core.actions[ATTEMPT].kind.DispatchStart?
    && s.rows == Rows(map[], map[], map[], map[]) && forall k :: k in s.log.projected ==> k.1.Started? || k.1.Terminal?
  }

  lemma ReportStep(s: State)
    requires Started(s)
    ensures var t := ObserveAdapterEvent(s, REFERENCE, REPORT, Ids(0, 0));
      Reported(t, AttemptState.Unknown) && t.node.slot == Some(ATTEMPT) && t.log.projected == s.log.projected
  {
    hide ArchiveEvent;
    assert !OtherLive(s, ATTEMPT);
  }

  lemma ReconcileToEnd(s: State)
    requires Reported(s, AttemptState.Unknown) && s.node.slot == Some(ATTEMPT) && s.log.projected.Keys == {(ATTEMPT, Key.Started)}
    ensures var t := Reconcile(s, REFERENCE, INTERRUPTION, 0, Ids(0, 0));
      Reported(t, AttemptState.Interrupted) && t.node.slot.None?
      && t.log.projected[(ATTEMPT, Key.Terminal)] == OfInterrupted(Effects.Nothing)
      && t.log.projected.Keys == {(ATTEMPT, Key.Started), (ATTEMPT, Key.Terminal)}
      && t.log.projected[(ATTEMPT, Key.Started)] == s.log.projected[(ATTEMPT, Key.Started)]
  {
    hide Newest, ArchiveEvent, ProjectWaiting, ProjectOutput, ProjectApproval, ProjectInput, SetAttemptUnknown, OutputMatches, StoredOutput,
      FailureReasons, RemoveReason;
    assert !ControlOwed(s, ATTEMPT);
    assert !EffectsUnresolved(s, ATTEMPT);
  }

  // The report was taken live, the attempt was reconciled, and the same report delivered again appends a
  // late event and a late row.
  lemma ReportIsArchivedLater()
    ensures var steps := OPENING + RECONCILED; var s := Run(Init(0), steps); var t := Next(s, Observe(REFERENCE, REPORT, Ids(0, 0)));
      && HoldsSlot(Run(Init(0), OPENING), ATTEMPT) && Addressed(Run(Init(0), OPENING), REFERENCE)
      && ATTEMPT in s.core.attempts && s.core.attempts[ATTEMPT].state.Interrupted?
      && |t.log.events| == |s.log.events| + 1 && |t.log.late| == |s.log.late| + 1
  {
    hide Init, ObserveAdapterEvent, Reconcile, Reported, Started;
    var s0 := Run(Init(0), OPENING);
    OpeningRun();
    ReportStep(s0);
    StartedKey(s0);
    var s1 := Next(s0, RECONCILED[0]);
    ObserveIs(s0, REFERENCE, REPORT, Ids(0, 0));
    ReconcileToEnd(s1);
    var s2 := Next(s1, RECONCILED[1]);
    RunUnfolds(Init(0), OPENING + RECONCILED, 10);
    RunUnfolds(Init(0), OPENING + RECONCILED, 11);
    assert (OPENING + RECONCILED)[..10] == OPENING && (OPENING + RECONCILED)[..12] == OPENING + RECONCILED;
    ReportAgain(s2);
  }

  lemma StartedKey(s: State)
    requires Started(s)
    ensures HoldsSlot(s, ATTEMPT) && Addressed(s, REFERENCE)
    ensures s.log.projected == map[(ATTEMPT, Key.Started) := OfEvent(AdapterEvent.Started)]
  {
  }

  lemma ReportAgain(s: State)
    requires Reported(s, AttemptState.Interrupted) && s.node.slot.None?
    requires s.log.projected.Keys == {(ATTEMPT, Key.Started), (ATTEMPT, Key.Terminal)}
    requires s.log.projected[(ATTEMPT, Key.Started)] == OfEvent(AdapterEvent.Started)
    requires s.log.projected[(ATTEMPT, Key.Terminal)] == OfInterrupted(Effects.Nothing)
    ensures var t := Next(s, Observe(REFERENCE, REPORT, Ids(0, 0)));
      && ATTEMPT in s.core.attempts && s.core.attempts[ATTEMPT].state.Interrupted?
      && |t.log.events| == |s.log.events| + 1 && |t.log.late| == |s.log.late| + 1
  {
    hide ScheduleOutputLimitStop, ProjectEvent, Next;
    ObserveIs(s, REFERENCE, REPORT, Ids(0, 0));
    assert OutputLedger(s, ATTEMPT) == OutputBudget.Ledger(0, []);
    assert !ReportArchived(s, ATTEMPT, Effects.Unknown);
    ReportIgnoredIff(s, REFERENCE, Effects.Unknown, Ids(0, 0));
    LateReport(s, REFERENCE, Effects.Unknown, Ids(0, 0));
  }

  // ----- a terminal report that comes again after its attempt came back -----

  const LATER_OUTPUT := AdapterEvent.AssistantMessage(LATER_MESSAGE, Body(0, 0))

  // the attempt is unknown in the slot, with nothing archived and no output yet
  ghost predicate Back(s: State) {
    && Plain(s) && NoTerminalEvent(s) && (forall m :: m in s.core.messages ==> m != LATER_MESSAGE && s.core.messages[m].content.None?)
    && s.core.attempts.Keys == {ATTEMPT} && s.core.attempts[ATTEMPT].state.Unknown? && s.core.attempts[ATTEMPT].started
    && s.core.attempts[ATTEMPT].outputBytes == 0 && Reference(s, ATTEMPT) == REFERENCE && s.node.slot == Some(ATTEMPT)
  }

  lemma BackStep(s: State, state: AttemptState)
    requires Responded(s, state, ActionStatus.Inflight) && IsTerminal(state)
    requires ANSWER in s.run.workers && s.run.workers[ANSWER] == Answered(Answer.Error)
    ensures Back(Settle(s, ANSWER, true))
  {
    hide MarkStarted, FinishSteer, ObserveRejected, MarkAttemptUnknown;
    assert !OtherLive(s, ATTEMPT);
  }

  lemma OutputStep(s: State)
    requires Back(s)
    ensures var t := ObserveAdapterEvent(s, REFERENCE, LATER_OUTPUT, Ids(0, 0));
      && Newest(t, ATTEMPT) == {LATER_MESSAGE} && t.admin == s.admin && t.log.late == s.log.late
      && t.core.attempts.Keys == {ATTEMPT} && t.core.attempts[ATTEMPT].outputBytes == 0 && t.core.attempts[ATTEMPT].dialog == DIALOG
      && NoTerminalArchived(t)
  {
    hide ArchiveEvent, ProjectWaiting, ProjectInput, ProjectApproval, ProjectTerminal, SetAttemptUnknown, ScheduleOutputLimitStop;
    assert ArchivedBytes(s.log.late, ATTEMPT) == [];
    assert Sum([]) == 0;
    var t := ObserveAdapterEvent(s, REFERENCE, LATER_OUTPUT, Ids(0, 0));
    assert forall m :: AssistantOf(t, m, ATTEMPT) <==> m == LATER_MESSAGE;
  }

  ghost predicate NoTerminalArchived(s: State) {
    forall k :: k in s.log.projected ==> !k.1.Archive? && !(s.log.projected[k].OfEvent? && s.log.projected[k].event.Terminal?)
  }

  lemma NoneIsNewest(s: State)
    requires Ended(s, AttemptState.Completed)
    ensures Newest(s, ATTEMPT) == {}
  {
  }

  // The attempt completed, came back, and got one more assistant message: the same terminal report, delivered
  // again, is archived.
  lemma CompletionIsArchivedLater()
    ensures var late := LateAnswer(COMPLETION);
      var s := Run(Init(0), OPENING + late + [Commit(ANSWER, true), Observe(REFERENCE, LATER_OUTPUT, Ids(0, 0))]);
      var t := Next(s, Observe(REFERENCE, COMPLETION, Ids(0, 0)));
      && Ends(Run(Init(0), OPENING + late[..1]), Run(Init(0), OPENING + late[..2]), ATTEMPT) && late[1] == Observe(REFERENCE, COMPLETION, Ids(0, 0))
      && |t.log.late| == |s.log.late| + 1
  {
    hide Init, Next, Run, Settle, ObserveAdapterEvent, Responded, Back, Newest, Asked, Ended;
    var late := LateAnswer(COMPLETION);
    var more := [Commit(ANSWER, true), Observe(REFERENCE, LATER_OUTPUT, Ids(0, 0))];
    var s0, all := Run(Init(0), OPENING + late), OPENING + late + more;
    AnsweredRun(COMPLETION);
    BackStep(s0, AttemptState.Completed);
    NextCommits(s0, ANSWER);
    var s1 := Next(s0, more[0]);
    OutputStep(s1);
    ObserveIs(s1, REFERENCE, LATER_OUTPUT, Ids(0, 0));
    RunUnfolds(Init(0), all, 15);
    RunUnfolds(Init(0), all, 16);
    assert all[..15] == OPENING + late && all[..17] == all;
    EndingUnfolds(late, more);
    var before, after := Run(Init(0), OPENING + late[..1]), Run(Init(0), OPENING + late[..2]);
    EndsHere(before, after);
    NoneIsNewest(after);
    BackPlain(s1);
    EndDeliveredIff(0, OPENING + late[..1], late[2..] + more, REFERENCE, COMPLETION, Ids(0, 0), Ids(0, 0));
  }

  lemma EndingUnfolds(late: seq<Step>, more: seq<Step>)
    requires |late| == 5 && late[1] == Observe(REFERENCE, COMPLETION, Ids(0, 0))
    ensures OPENING + late[..1] + [Observe(REFERENCE, COMPLETION, Ids(0, 0))] == OPENING + late[..2]
    ensures OPENING + late[..2] + (late[2..] + more) == OPENING + late + more
  {
  }

  lemma EndsHere(s: State, t: State)
    requires Asked(s, AttemptState.WaitingInput) && Ended(t, AttemptState.Completed)
    ensures Ends(s, t, ATTEMPT)
  {
  }

  lemma BackPlain(s: State)
    requires Back(s)
    ensures s.admin.tombstones == {} && s.log.late == []
  {
  }
}
