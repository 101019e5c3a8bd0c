// The active slot: in every run it names the one live attempt. When an ended attempt comes back, and
// why it does not where approval and input answers are admitted for the slot holder only.
module HarnessSlot {
  import opened Common
  import opened HarnessState
  import opened HarnessObserve
  import opened HarnessFrame
  import opened HarnessAdmission
  import opened HarnessActions
  import opened HarnessStep
  import opened HarnessInvariant

  // The hypothesis under which ended attempts stay ended: applyApproval and applyInput do not check it
  // themselves.
  predicate Disciplined(s: State, step: Step) {
    match step
    case Submit(_, RespondApproval(_, a, _, _, _, _), _) => s.node.slot == Some(a)
    case Submit(_, RespondInput(_, a, _, _, _), _) => s.node.slot == Some(a)
    case _ => true
  }

  ghost predicate SlotInv(s: State) {
    LiveHoldsSlot(s) && OwedHoldsSlot(s)
  }

  // at most one attempt is live, and the slot names it
  ghost predicate LiveHoldsSlot(s: State) {
    forall a :: a in s.core.attempts && IsLive(s.core.attempts[a].state) ==> s.node.slot == Some(a)
  }

  predicate IsControl(kind: ActionKind) {
    kind.Steer? || kind.Approval? || kind.Input?
  }

  // an owed control answer belongs to the slot holder
  ghost predicate OwedHoldsSlot(s: State) {
    forall c :: c in s.core.actions && IsControl(s.core.actions[c].kind) && Owed(s.core.actions[c].status) ==>
      s.node.slot == Some(s.core.actions[c].reference.attempt)
  }

  // a steer answer is owed only for a live attempt
  ghost predicate SteersLive(s: State) {
    forall c :: c in s.core.actions && s.core.actions[c].kind.Steer? && Owed(s.core.actions[c].status) ==>
      s.core.actions[c].reference.attempt in s.core.attempts && IsLive(s.core.attempts[s.core.actions[c].reference.attempt].state)
  }

  // what holds in every run
  ghost predicate Slotted(s: State) {
    LiveHoldsSlot(s) && SteersLive(s)
  }

  // what a step does to the lives of attempts: the ended stay ended, the owed stay live
  ghost predicate Lives(s: State, t: State) {
    && (forall a :: a in s.core.attempts ==> a in t.core.attempts)
    && (forall a :: a in s.core.attempts && IsTerminal(s.core.attempts[a].state) ==> SameEnd(s, t, a))
    && (SteersLive(s) ==> SteersLive(t))
  }

  ghost predicate SameEnd(s: State, t: State, a: Id) {
    && a in s.core.attempts && a in t.core.attempts
    && t.core.attempts[a] == s.core.attempts[a].(outputBytes := t.core.attempts[a].outputBytes)
  }

  // A step under which the lives of attempts are sound, and the slot as well if it was.
  ghost predicate Sound(s: State, t: State) {
    Lives(s, t) && (LiveHoldsSlot(s) ==> LiveHoldsSlot(t)) && (SlotInv(s) ==> SlotInv(t))
  }

  lemma SoundThenSound(s: State, t: State, u: State)
    requires Sound(s, t) && Sound(t, u)
    ensures Sound(s, u)
  {
  }

  lemma SameSlot(s: State, t: State)
    requires t.core.attempts == s.core.attempts && t.core.actions == s.core.actions && t.node.slot == s.node.slot
    ensures Sound(s, t)
  {
  }

  // ----- observing -----

  lemma ObservedIsSound(s: State, t: State, a: Id, q: Id)
    requires Base(s) && Observed(s, t, a, q) == true
    ensures Sound(s, t)
  {
    assert ControlOwed(s, a) ==> s.core.attempts[a].started by {
      if ControlOwed(s, a) {
        var c :| c in s.core.actions && s.core.actions[c].reference.attempt == a
          && (s.core.actions[c].kind.Steer? || s.core.actions[c].kind.Approval? || s.core.actions[c].kind.Input?)
          && Owed(s.core.actions[c].status);
        assert ActionOk(s, c);
      }
    }
    ObservedSlot(s, t, a);
    ObservedLives(s, t, a);
  }

  lemma ObservedSlot(s: State, t: State, a: Id)
    requires SlotOk(s) && a in s.core.attempts && TouchAttempts(s, t, a) && TouchActions(s, t, a) && Calm(s, t, a)
    requires ControlOwed(s, a) ==> s.core.attempts[a].started
    ensures (LiveHoldsSlot(s) ==> LiveHoldsSlot(t)) && (SlotInv(s) ==> SlotInv(t))
  {
    if s.node.slot == Some(a) && !IsLive(t.core.attempts[a].state) {
      assert !ControlOwed(s, a);
    }
  }

  lemma ObservedLives(s: State, t: State, a: Id)
    requires SlotOk(s) && a in s.core.attempts && TouchAttempts(s, t, a) && TouchActions(s, t, a) && Calm(s, t, a)
    requires ControlOwed(s, a) ==> s.core.attempts[a].started
    ensures Lives(s, t)
  {
    if s.node.slot == Some(a) && !IsLive(t.core.attempts[a].state) {
      assert !ControlOwed(s, a);
    }
  }

  // ----- commands -----

  lemma StopIsSound(s: State, c: Id, a: Id, g: int, t: State)
    requires ApplyAttemptStop(s, c, a, g) == Some(t)
    ensures Sound(s, t)
  {
  }

  lemma SteerIsSound(s: State, c: Id, d: Id, a: Id, m: Id, g: int, v: int, t: State)
    requires ApplyMessageSteer(s, c, d, a, m, g, v) == Some(t)
    ensures Sound(s, t)
  {
  }

  lemma ApprovalIsSound(s: State, c: Id, p: Id, a: Id, v: int, g: int, h: Id, t: State)
    requires ApplyApproval(s, c, p, a, v, g, h) == Some(t)
    ensures Lives(s, t) && (LiveHoldsSlot(s) ==> LiveHoldsSlot(t)) && (SlotInv(s) && s.node.slot == Some(a) ==> SlotInv(t))
  {
  }

  lemma InputIsSound(s: State, c: Id, i: Id, a: Id, v: int, g: int, m: Id, t: State)
    requires ApplyInput(s, c, i, a, v, g, m) == Some(t)
    ensures Lives(s, t) && (LiveHoldsSlot(s) ==> LiveHoldsSlot(t)) && (SlotInv(s) && s.node.slot == Some(a) ==> SlotInv(t))
  {
  }

  // the commands that insert no action and change no attempt
  lemma QueueCommandIsSound(s: State, id: Id, command: Command, drawn: Drawn, t: State)
    requires command.CreateDialog? || command.ResumeQueue? || command.EnqueueMessage? || command.CancelRequest? || command.RetryAttempt?
    requires ApplyCommand(s, id, command, drawn) == Some(t)
    ensures t.core.attempts == s.core.attempts && t.core.actions == s.core.actions && t.node.slot == s.node.slot
  {
    hide RetryPending;
  }

  lemma SubmitIsSound(s: State, id: Id, command: Command, drawn: Drawn)
    ensures var t := SubmitCommand(s, id, command, drawn).0;
      && Lives(s, t) && (LiveHoldsSlot(s) ==> LiveHoldsSlot(t))
      && (SlotInv(s) && Disciplined(s, Submit(id, command, drawn)) ==> SlotInv(t))
  {
    hide SlotInv, LiveHoldsSlot, ApplyMessageEnqueue, ApplyRequestCancel, ApplyAttemptStop, ApplyAttemptRetry, ApplyMessageSteer, ApplyApproval, ApplyInput;
    hide Lives, Authorized, CoveredByHold;
    var (t, reply) := SubmitCommand(s, id, command, drawn);
    if !reply.Admitted? {
      SameSlot(s, t);
    } else {
      var r := ApplyCommand(s, id, command, drawn).value;
      match command {
        case StopAttempt(a, g) => StopIsSound(s, id, a, g, r);
        case SteerMessage(d, a, m, g, v) => SteerIsSound(s, id, d, a, m, g, v, r);
        case RespondApproval(p, a, v, g, h, _) => ApprovalIsSound(s, id, p, a, v, g, h, r);
        case RespondInput(i, a, v, g, _) => InputIsSound(s, id, i, a, v, g, drawn.first, r);
        case DeleteDialog(_, _) =>
        case _ =>
          QueueCommandIsSound(s, id, command, drawn, r);
          SameSlot(s, r);
      }
      SameSlot(r, t);
      LivesThen(s, r, t);
    }
  }

  lemma LivesThen(s: State, t: State, u: State)
    requires Lives(s, t) && Lives(t, u)
    ensures Lives(s, u)
  {
  }

  // ----- dispatch, workers, answers -----

  lemma DispatchIsSound(s: State, attempt: Id, generation: int)
    ensures Sound(s, DispatchCandidate(s, attempt, generation))
  {
    hide NextInQueue, NextGeneration;
  }

  // an action goes from owed to owed, or leaves
  lemma StatusIsSound(s: State, t: State, action: Id, status: ActionStatus)
    requires action in s.core.actions && (Owed(status) ==> Owed(s.core.actions[action].status))
    requires t.core == SetAction(s, action, status).core && t.node.slot == s.node.slot
    ensures Sound(s, t)
  {
  }

  lemma ClaimIsSound(s: State, lane: Lane, action: Id)
    ensures Sound(s, Claim(s, lane, action))
  {
    hide Sound;
    var t := Claim(s, lane, action);
    if t == s {
      SameSlot(s, t);
    } else {
      assert Claimable(s, action, lane);
      StatusIsSound(s, t, action, ActionStatus.Inflight);
    }
  }

  lemma FinishIsSound(s: State, id: Id, commit: bool)
    ensures Sound(s, FinishAction(s, id, commit))
  {
    hide Sound;
    var t := FinishAction(s, id, commit);
    if t == s || !commit || !s.core.actions[id].status.Inflight? {
      SameSlot(s, t);
    } else {
      StatusIsSound(s, t, id, s.run.workers[id].status);
    }
  }

  lemma UnknownIsSound(s: State, reference: AttemptRef, t: State)
    requires reference.attempt in s.core.attempts && IsLive(s.core.attempts[reference.attempt].state)
    requires SetAttemptUnknown(s, reference, Effects.Unknown) == Some(t)
    ensures Sound(s, t)
  {
  }

  lemma StartedIsSound(s: State, reference: AttemptRef, t: State)
    requires MarkStarted(s, reference) == Some(t)
    ensures Sound(s, t)
  {
  }

  lemma SteeredIsSound(s: State, reference: AttemptRef, message: Id, answer: Answer, t: State)
    requires reference.attempt in s.core.attempts && IsLive(s.core.attempts[reference.attempt].state)
    requires FinishSteer(s, reference, message, answer) == Some(t)
    ensures Sound(s, t)
  {
    hide Sound, SetAttemptUnknown;
    var s1 := SteerRows(s, message, SteerDisposition(answer));
    SameSlot(s, s1);
    if SteerDisposition(answer).Unknown? {
      var s2 := SetAttemptUnknown(s1, reference, Effects.Unknown).value;
      UnknownIsSound(s1, reference, s2);
      SameSlot(s2, t);
      SoundThenSound(s, s1, s2);
      SoundThenSound(s, s2, t);
    } else {
      SameSlot(s, t);
    }
  }

  lemma ResponseIsSound(s: State, action: Action, answer: Answer, t: State)
    requires action.reference.attempt in s.core.attempts
    requires IsLive(s.core.attempts[action.reference.attempt].state) || !AnswerRow(answer).Unknown?
    requires FinishResponse(s, action, answer) == Some(t)
    ensures Sound(s, t)
  {
    hide Sound, SetAttemptUnknown;
    var s1 := AnswerRows(s, action, AnswerRow(answer));
    SameSlot(s, s1);
    if AnswerRow(answer).Unknown? {
      UnknownIsSound(s1, action.reference, t);
      SoundThenSound(s, s1, t);
    } else {
      SameSlot(s, t);
    }
  }

  // The one step that can bring an ended attempt back: an unknown answer to an approval or input
  // response that was admitted although the attempt had ended, and no other attempt is live.
  predicate Resurrects(s: State, step: Step, a: Id) {
    UnknownAnswerFor(s, step, a) && a in s.core.attempts && IsTerminal(s.core.attempts[a].state) && !OtherLive(s, a)
  }

  // the step commits an unknown answer to an approval or input response recorded for the attempt
  predicate UnknownAnswerFor(s: State, step: Step, a: Id) {
    && step.Commit? && step.commit && step.action in s.run.workers && step.action in s.core.actions
    && (s.core.actions[step.action].kind.Approval? || s.core.actions[step.action].kind.Input?)
    && s.core.actions[step.action].reference.attempt == a
    && (s.run.workers[step.action] == Answered(Answer.Uncertain) || s.run.workers[step.action] == Answered(Answer.Error))
  }

  lemma SettleIsSound(s: State, id: Id, commit: bool)
    requires Base(s) && SteersLive(s)
    requires forall a :: a in s.core.attempts ==> !Resurrects(s, Commit(id, commit), a)
    ensures Sound(s, Settle(s, id, commit))
  {
    hide Sound, Observed, MarkStarted, FinishSteer, FinishResponse, MarkAttemptUnknown, ObserveRejected;
    var u := Settle(s, id, commit);
    if id in s.run.workers && id in s.core.actions && s.run.workers[id].Answered? {
      var action := s.core.actions[id];
      var reference := action.reference;
      var answer := s.run.workers[id].answer;
      var t := SettleAction(s, id, answer, commit).0;
      assert ActionOk(s, id);
      if t == s {
        SameSlot(s, t);
      } else if action.kind.DispatchStart? && answer.Accepted? {
        StartedIsSound(s, reference, t);
      } else if action.kind.DispatchStart? && answer.Rejected? {
        assert StartAhead(s, id);
        RejectionObserved(s, reference);
        ObservedIsSound(s, t, reference.attempt, reference.request);
      } else if t == MarkAttemptUnknown(s, reference) {
        MarkObserved(s, reference);
        ObservedIsSound(s, t, reference.attempt, reference.request);
      } else if action.kind.Steer? {
        SteeredIsSound(s, reference, action.message, answer, t);
      } else {
        assert !Resurrects(s, Commit(id, commit), reference.attempt);
        if AnswerRow(answer).Unknown? {
          UnknownResponse(s, action, answer);
          UnknownEffect(AnswerRows(s, action, AnswerStatus.Unknown), reference);
        }
        ResponseIsSound(s, action, answer, t);
      }
      SameSlot(t, u);
      SoundThenSound(s, t, u);
    } else {
      SameSlot(s, s);
    }
  }

  lemma RestartIsSound(s: State)
    requires Base(s)
    ensures Sound(s, Restart(s))
  {
    hide Sound, SetAttemptUnknown, AttemptsOk, RequestsOk, MessagesOk, ActionsOk, RowsOk, WorkersOk, StartsOk, Barrier;
    var s1 := s.(core := s.core.(actions := AbandonAll(s.core.actions)), run := s.run.(workers := map[], gate := None, peeked := None));
    AbandonIsSound(s, s1);
    if s.node.slot.Some? {
      var reference := Reference(s1, s.node.slot.value);
      var r := SetAttemptUnknown(s1, reference, Effects.Unknown);
      if r.Some? {
        UnknownIsSound(s1, reference, r.value);
        SoundThenSound(s, s1, r.value);
      } else {
        SameSlot(s, s);
      }
    }
  }

  lemma AbandonIsSound(s: State, t: State)
    requires t.core == s.core.(actions := AbandonAll(s.core.actions)) && t.node == s.node
    ensures Sound(s, t)
  {
  }

  // ----- every step -----

  lemma NextIsSound(s: State, step: Step)
    requires Base(s) && SteersLive(s)
    requires forall a :: a in s.core.attempts ==> !Resurrects(s, step, a)
    ensures Lives(s, Next(s, step)) && (LiveHoldsSlot(s) ==> LiveHoldsSlot(Next(s, step)))
    ensures SlotInv(s) && Disciplined(s, step) ==> SlotInv(Next(s, step))
  {
    hide Base, SlotInv, LiveHoldsSlot, Lives, Observed, SubmitCommand, DispatchCandidate, Claim, Settle, FinishAction, Restart, Resurrects;
    match step
    case Submit(id, command, drawn) => SubmitIsSound(s, id, command, drawn);
    case DispatchNext(attempt, generation) => DispatchIsSound(s, attempt, generation);
    case ClaimAction(lane, action) => ClaimIsSound(s, lane, action);
    case Commit(action, commit) => SettleIsSound(s, action, commit);
    case Finish(action, commit) => FinishIsSound(s, action, commit);
    case CrashAndRestart => RestartIsSound(s);
    case _ => OtherStepsAreSound(s, step);
  }

  lemma OtherStepsAreSound(s: State, step: Step)
    requires Base(s) && (Observing(step) || Still(step))
    ensures Sound(s, Next(s, step))
  {
    hide Base, Sound, Observed, Next;
    if Observing(step) {
      ObservingStep(s, step);
      if Next(s, step) == s {
        SameSlot(s, s);
      } else {
        ObservedIsSound(s, Next(s, step), step.reference.attempt, step.reference.request);
      }
    } else {
      StillTables(s, step);
      SameSlot(s, Next(s, step));
    }
  }

  // ----- when an ended attempt comes back -----

  // A step changes the state of an ended attempt exactly when it commits an unknown answer to a response
  // recorded for that attempt while no other attempt is live.
  lemma EndedChangesIff(s: State, step: Step, a: Id)
    requires Base(s) && SteersLive(s) && a in s.core.attempts && IsTerminal(s.core.attempts[a].state)
    ensures a in Next(s, step).core.attempts
    ensures Next(s, step).core.attempts[a].state != s.core.attempts[a].state <==> Resurrects(s, step, a)
  {
    hide Next, Base, SteersLive;
    if Resurrects(s, step, a) {
      ResponseResurrects(s, step.action, a);
    } else {
      forall b | b in s.core.attempts && Resurrects(s, step, b) ensures b != a {}
      EndedStays(s, step, a);
    }
  }

  lemma EndedStays(s: State, step: Step, a: Id)
    requires Base(s) && SteersLive(s) && a in s.core.attempts && IsTerminal(s.core.attempts[a].state) && !Resurrects(s, step, a)
    ensures SameEnd(s, Next(s, step), a)
  {
    hide Next, Base, SteersLive;
    if exists b :: b in s.core.attempts && Resurrects(s, step, b) {
      var b :| b in s.core.attempts && Resurrects(s, step, b);
      OtherEndedStays(s, step.action, a, b);
    } else {
      NextIsSound(s, step);
    }
  }

  lemma OtherEndedStays(s: State, id: Id, a: Id, b: Id)
    requires a in s.core.attempts && a != b && Resurrects(s, Commit(id, true), b)
    ensures SameEnd(s, Next(s, Commit(id, true)), a)
  {
    NextCommits(s, id);
    ResponseSettles(s, id);
  }

  lemma ResponseResurrects(s: State, id: Id, a: Id)
    requires Base(s) && Resurrects(s, Commit(id, true), a)
    ensures var t := Next(s, Commit(id, true));
      && a in t.core.attempts && t.core.attempts[a].state.Unknown? && t.node.slot == Some(a)
  {
    hide Next, Settle;
    assert ActionOk(s, id);
    NextCommits(s, id);
    ResponseSettles(s, id);
  }

  lemma NextCommits(s: State, id: Id)
    ensures Next(s, Commit(id, true)) == Settle(s, id, true)
  {
    hide Settle;
  }

  // the commit of an unknown answer to a response
  lemma ResponseSettles(s: State, id: Id)
    requires id in s.run.workers && id in s.core.actions
    requires s.core.actions[id].kind.Approval? || s.core.actions[id].kind.Input?
    requires s.run.workers[id] == Answered(Answer.Uncertain) || s.run.workers[id] == Answered(Answer.Error)
    ensures var t := Settle(s, id, true); var reference := s.core.actions[id].reference; var a := reference.attempt;
      && t.core.attempts.Keys == s.core.attempts.Keys && t.core.actions == s.core.actions
      && (forall b :: b in s.core.attempts && b != a ==> b in t.core.attempts && t.core.attempts[b] == s.core.attempts[b])
      && (a in s.core.attempts && s.core.attempts[a].generation == reference.generation && !s.core.attempts[a].state.Unknown?
          && !OtherLive(s, a) ==>
            a in t.core.attempts && t.core.attempts[a].state.Unknown? && t.node.slot == Some(a))
  {
    hide MarkStarted, FinishSteer, ObserveRejected, MarkAttemptUnknown, SetAttemptUnknown, FinishResponse;
    var action := s.core.actions[id];
    var answer := s.run.workers[id].answer;
    var s1 := AnswerRows(s, action, AnswerStatus.Unknown);
    assert FinishResponse(s, action, answer) == SetAttemptUnknown(s1, action.reference, Effects.Unknown) by {
      UnknownResponse(s, action, answer);
    }
    UnknownEffect(s1, action.reference);
  }

  lemma UnknownResponse(s: State, action: Action, answer: Answer)
    requires AnswerRow(answer).Unknown?
    ensures FinishResponse(s, action, answer) == SetAttemptUnknown(AnswerRows(s, action, AnswerStatus.Unknown), action.reference, Effects.Unknown)
    ensures AnswerRows(s, action, AnswerStatus.Unknown).core == s.core
  {
    hide SetAttemptUnknown;
  }

  lemma UnknownEffect(s: State, reference: AttemptRef)
    ensures var r := SetAttemptUnknown(s, reference, Effects.Unknown); var a := reference.attempt;
      && (r.Some? ==>
            && r.value.core.attempts.Keys == s.core.attempts.Keys && r.value.core.actions == s.core.actions
            && a in s.core.attempts && (s.core.attempts[a].state.Unknown? || !OtherLive(s, a))
            && forall b :: b in s.core.attempts && b != a ==>
                 b in r.value.core.attempts && r.value.core.attempts[b] == s.core.attempts[b])
      && (a in s.core.attempts && s.core.attempts[a].generation == reference.generation && !s.core.attempts[a].state.Unknown?
          && !OtherLive(s, a) ==>
            r.Some? && a in r.value.core.attempts && r.value.core.attempts[a].state.Unknown? && r.value.node.slot == Some(a))
  {
  }

  // ----- every run -----

  // even the step that brings an attempt back leaves it the only live one
  lemma ReturnKeepsSlotted(s: State, id: Id, a: Id)
    requires Base(s) && Slotted(s) && Resurrects(s, Commit(id, true), a)
    ensures Slotted(Next(s, Commit(id, true)))
  {
    hide Next, Settle, Base;
    ResponseResurrects(s, id, a);
    NextCommits(s, id);
    ResponseSettles(s, id);
  }

  lemma NextKeepsSlotted(s: State, step: Step)
    requires Base(s) && Slotted(s)
    ensures Slotted(Next(s, step))
  {
    hide Next, Base, LiveHoldsSlot, SteersLive;
    if exists a :: a in s.core.attempts && Resurrects(s, step, a) {
      var a :| a in s.core.attempts && Resurrects(s, step, a);
      ReturnKeepsSlotted(s, step.action, a);
    } else {
      NextIsSound(s, step);
    }
  }

  // In every run at most one attempt is live, and the active slot names exactly that one.
  lemma {:induction false} OneLiveAttempt(registryVersion: int, steps: seq<Step>)
    ensures var s := Run(Init(registryVersion), steps);
      && Slotted(s)
      && forall a :: a in s.core.attempts ==> (IsLive(s.core.attempts[a].state) <==> s.node.slot == Some(a))
  {
    hide Init, Next;
    RunKeepsBase(registryVersion, steps);
    if steps == [] {
      InitHasSlot(registryVersion);
    } else {
      var shorter := steps[..|steps| - 1];
      OneLiveAttempt(registryVersion, shorter);
      RunKeepsBase(registryVersion, shorter);
      NextKeepsSlotted(Run(Init(registryVersion), shorter), steps[|steps| - 1]);
    }
  }

  lemma InitHasSlot(registryVersion: int)
    ensures Slotted(Init(registryVersion)) && SlotInv(Init(registryVersion))
  {
  }

  // In every run, whoever answers: the next step changes the state of an ended attempt if and only if
  // the slot is empty and it commits an unknown answer to a response recorded for that attempt.
  lemma EndedChangesInRunsIff(registryVersion: int, steps: seq<Step>, step: Step, a: Id)
    requires var s := Run(Init(registryVersion), steps); a in s.core.attempts && IsTerminal(s.core.attempts[a].state)
    ensures var s := Run(Init(registryVersion), steps); var t := Run(Init(registryVersion), steps + [step]);
      && a in t.core.attempts
      && (t.core.attempts[a].state != s.core.attempts[a].state <==> s.node.slot.None? && UnknownAnswerFor(s, step, a))
  {
    hide Init, Next, Base;
    var s := Run(Init(registryVersion), steps);
    assert (steps + [step])[..|steps|] == steps;
    RunKeepsBase(registryVersion, steps);
    OneLiveAttempt(registryVersion, steps);
    EndedChangesIff(s, step, a);
    EmptySlot(s, a);
  }

  lemma EmptySlot(s: State, a: Id)
    requires Base(s) && LiveHoldsSlot(s) && a in s.core.attempts && IsTerminal(s.core.attempts[a].state)
    ensures OtherLive(s, a) <==> s.node.slot.Some?
  {
    if s.node.slot.Some? {
      var b: Id := s.node.slot.value;
      assert b in s.core.attempts && IsLive(s.core.attempts[b].state) && b != a;
    }
  }

  // ----- disciplined runs -----

  // no response is owed for an ended attempt when all are owed for the slot holder
  lemma NoResurrection(s: State, step: Step, a: Id)
    requires Base(s) && SlotInv(s)
    ensures !Resurrects(s, step, a)
  {
  }

  lemma NextKeepsSlot(s: State, step: Step)
    requires Base(s) && SlotInv(s) && SteersLive(s) && Disciplined(s, step)
    ensures SlotInv(Next(s, step)) && Lives(s, Next(s, step))
  {
    hide Base, SlotInv, SteersLive, Lives, Next, Resurrects;
    forall a ensures !Resurrects(s, step, a) {
      NoResurrection(s, step, a);
    }
    NextIsSound(s, step);
  }

  ghost predicate DisciplinedRun(s: State, steps: seq<Step>) {
    steps == [] || (DisciplinedRun(s, steps[..|steps| - 1]) && Disciplined(Run(s, steps[..|steps| - 1]), steps[|steps| - 1]))
  }

  lemma {:induction false} OwedAnswersHoldSlot(registryVersion: int, steps: seq<Step>)
    requires DisciplinedRun(Init(registryVersion), steps)
    ensures SlotInv(Run(Init(registryVersion), steps))
  {
    hide Init, Next, SlotInv;
    if steps == [] {
      InitHasSlot(registryVersion);
    } else {
      var shorter := steps[..|steps| - 1];
      OwedAnswersHoldSlot(registryVersion, shorter);
      OneLiveAttempt(registryVersion, shorter);
      RunKeepsBase(registryVersion, shorter);
      NextKeepsSlot(Run(Init(registryVersion), shorter), steps[|steps| - 1]);
    }
  }

  // A completed, failed or interrupted attempt never changes state again.
  lemma {:induction false} EndedForever(registryVersion: int, steps: seq<Step>, later: seq<Step>, a: Id)
    requires DisciplinedRun(Init(registryVersion), steps + later)
    requires var s := Run(Init(registryVersion), steps); a in s.core.attempts && IsTerminal(s.core.attempts[a].state)
    ensures SameEnd(Run(Init(registryVersion), steps), Run(Init(registryVersion), steps + later), a)
  {
    hide Init, Next, SlotInv;
    if later == [] {
      assert steps + later == steps;
    } else {
      var shorter := later[..|later| - 1];
      var all := steps + later;
      assert all[..|all| - 1] == steps + shorter && all[|all| - 1] == later[|later| - 1];
      EndedForever(registryVersion, steps, shorter, a);
      OneLiveAttempt(registryVersion, steps + shorter);
      OwedAnswersHoldSlot(registryVersion, steps + shorter);
      RunKeepsBase(registryVersion, steps + shorter);
      NextKeepsSlot(Run(Init(registryVersion), steps + shorter), later[|later| - 1]);
    }
  }
}
