// What the rows of a node remember: no row disappears or changes what it is about, a projected
// event is projected once, and an attempt's output ledger moves only by charges.
module HarnessPersistence {
  import opened Common
  import opened HarnessState
  import opened HarnessObserve
  import opened HarnessFrame
  import opened HarnessAdmission
  import opened HarnessHold
  import opened HarnessActions
  import opened HarnessStep
  import opened HarnessInvariant

  // ----- rows stay, and stay about the same thing -----

  ghost predicate Persists(s: State, t: State) {
    PersistsCore(s, t) && PersistsRows(s, t) && PersistsLog(s, t)
  }

  ghost predicate PersistsRows(s: State, t: State) {
    && (forall x :: x in s.rows.tools ==> x in t.rows.tools && t.rows.tools[x].attempt == s.rows.tools[x].attempt)
    && (forall x :: x in s.rows.approvals ==> x in t.rows.approvals && t.rows.approvals[x].attempt == s.rows.approvals[x].attempt)
    && (forall x :: x in s.rows.inputs ==> x in t.rows.inputs && t.rows.inputs[x].attempt == s.rows.inputs[x].attempt)
    && (forall x :: x in s.rows.artifacts ==> x in t.rows.artifacts && t.rows.artifacts[x] == s.rows.artifacts[x])
  }

  ghost predicate PersistsCore(s: State, t: State) {
    && (forall a :: a in s.core.attempts ==> a in t.core.attempts && SameAttempt(s.core.attempts[a], t.core.attempts[a]))
    && (forall r :: r in s.core.requests ==> r in t.core.requests && SameRequest(s.core.requests[r], t.core.requests[r]))
    && (forall m :: m in s.core.messages ==> m in t.core.messages && SameMessage(s.core.messages[m], t.core.messages[m]))
    && (forall c :: c in s.core.actions ==>
          && c in t.core.actions
          && t.core.actions[c] == s.core.actions[c].(status := t.core.actions[c].status))
  }

  // events and projections are append-only
  ghost predicate PersistsLog(s: State, t: State) {
    && s.log.events <= t.log.events
    && (forall k :: k in s.log.projected ==> k in t.log.projected && t.log.projected[k] == s.log.projected[k])
    && (forall k :: k in t.log.projected && k !in s.log.projected && k.1.Waiting? ==> PastStart(t, k.0))
    && s.log.late <= t.log.late
  }

  // once started, always started; never back to an earlier phase of its life
  predicate SameAttempt(before: Attempt, after: Attempt) {
    && after.dialog == before.dialog && after.request == before.request && after.generation == before.generation
    && (before.started ==> after.started)
    && (after.state.Dispatching? ==> before.state.Dispatching?)
    && (after.state.Running? ==> before.state.Dispatching? || before.state.Running?)
    && (IsOver(before.state) ==> IsOver(after.state))
  }

  predicate SameRequest(before: Request, after: Request) {
    && after.dialog == before.dialog && after.message == before.message && after.queueSequence == before.queueSequence
    && (after.status.Queued? ==> before.status.Queued?)
  }

  predicate SameMessage(before: Message, after: Message) {
    && after.dialog == before.dialog && after.sequence == before.sequence && after.request == before.request
    && after.content == before.content
  }

  lemma TouchPersists(s: State, t: State, a: Id, q: Id)
    requires Touch(s, t, a, q) == true
    ensures Persists(s, t)
  {
  }

  lemma PersistsThenPersists(s: State, t: State, u: State)
    requires Persists(s, t) && Persists(t, u)
    ensures Persists(s, u)
  {
  }

  lemma QueueCommandPersists(s: State, id: Id, command: Command, drawn: Drawn, t: State)
    requires command.CreateDialog? || command.ResumeQueue? || command.EnqueueMessage? || command.CancelRequest?
    requires ApplyCommand(s, id, command, drawn) == Some(t)
    ensures Persists(s, t)
  {
  }

  lemma AttemptCommandPersists(s: State, id: Id, command: Command, drawn: Drawn, t: State)
    requires command.StopAttempt? || command.RetryAttempt? || command.SteerMessage?
    requires ApplyCommand(s, id, command, drawn) == Some(t)
    ensures Persists(s, t)
  {
    hide RetryPending;
  }

  lemma AnswerCommandPersists(s: State, id: Id, command: Command, drawn: Drawn, t: State)
    requires command.RespondApproval? || command.RespondInput?
    requires ApplyCommand(s, id, command, drawn) == Some(t)
    ensures Persists(s, t)
  {
  }

  lemma CommandPersists(s: State, id: Id, command: Command, drawn: Drawn, t: State)
    requires ApplyCommand(s, id, command, drawn) == Some(t)
    ensures Persists(s, t)
  {
    hide Persists;
    hide ApplyMessageEnqueue, ApplyRequestCancel, ApplyAttemptStop, ApplyAttemptRetry, ApplyMessageSteer, ApplyApproval, ApplyInput;
    if command.StopAttempt? || command.RetryAttempt? || command.SteerMessage? {
      AttemptCommandPersists(s, id, command, drawn, t);
    } else if command.RespondApproval? || command.RespondInput? {
      AnswerCommandPersists(s, id, command, drawn, t);
    } else if !command.DeleteDialog? {
      QueueCommandPersists(s, id, command, drawn, t);
    }
  }

  lemma SubmitPersists(s: State, id: Id, command: Command, drawn: Drawn)
    ensures Persists(s, SubmitCommand(s, id, command, drawn).0)
  {
    hide Persists, ApplyCommand, Authorized, CoveredByHold;
    var (t, reply) := SubmitCommand(s, id, command, drawn);
    if reply.Admitted? {
      var r := ApplyCommand(s, id, command, drawn).value;
      CommandPersists(s, id, command, drawn, r);
      ThenSameTables(s, r, t);
    } else {
      NothingPersists(s);
      ThenSameTables(s, s, t);
    }
  }

  lemma ThenSameTables(s: State, t: State, u: State)
    requires Persists(s, t) && u.core == t.core && u.rows == t.rows && u.log == t.log
    ensures Persists(s, u)
  {
  }

  lemma CandidatePersists(s: State, attempt: Id, generation: int)
    ensures Persists(s, DispatchCandidate(s, attempt, generation))
  {
    hide NextInQueue, NextGeneration;
  }

  lemma SettlePersists(s: State, id: Id, commit: bool)
    ensures Persists(s, Settle(s, id, commit))
  {
    hide Persists, MarkStarted, FinishSteer, FinishResponse, MarkAttemptUnknown, ObserveRejected;
    NothingPersists(s);
    if id in s.run.workers && id in s.core.actions && s.run.workers[id].Answered? {
      var action := s.core.actions[id];
      StartPersists(s, action.reference);
      MarkPersists(s, action.reference);
      RejectionPersists(s, action.reference);
      SteerPersists(s, action, s.run.workers[id].answer);
      ResponsePersists(s, action, s.run.workers[id].answer);
      ThenSameTables(s, SettleAction(s, id, s.run.workers[id].answer, commit).0, Settle(s, id, commit));
    }
  }

  lemma StartPersists(s: State, reference: AttemptRef)
    ensures var r := MarkStarted(s, reference); r.Some? ==> Persists(s, r.value)
  {
  }

  lemma UnknownPersists(s: State, reference: AttemptRef, effects: Effects, t: State)
    requires SetAttemptUnknown(s, reference, effects) == Some(t)
    ensures Persists(s, t)
  {
    UnknownTouches(s, reference, effects, t);
    TouchPersists(s, t, reference.attempt, reference.request);
  }

  lemma MarkPersists(s: State, reference: AttemptRef)
    ensures Persists(s, MarkAttemptUnknown(s, reference))
  {
    hide Persists, SetAttemptUnknown;
    NothingPersists(s);
    var r := SetAttemptUnknown(s, reference, Effects.Unknown);
    if r.Some? {
      UnknownPersists(s, reference, Effects.Unknown, r.value);
    }
  }

  lemma RejectionPersists(s: State, reference: AttemptRef)
    ensures Persists(s, ObserveRejected(s, reference.attempt, reference.generation))
  {
  }

  lemma SteerPersists(s: State, action: Action, answer: Answer)
    ensures var r := FinishSteer(s, action.reference, action.message, answer); r.Some? ==> Persists(s, r.value)
  {
    hide Persists, SetAttemptUnknown, SteerRows;
    var r := FinishSteer(s, action.reference, action.message, answer);
    if r.Some? {
      var to := SteerDisposition(answer);
      var s1 := SteerRows(s, action.message, to);
      SteeredPersists(s, action.message, to);
      if to.Unknown? {
        var s2 := SetAttemptUnknown(s1, action.reference, Effects.Unknown).value;
        UnknownPersists(s1, action.reference, Effects.Unknown, s2);
        PersistsThenPersists(s, s1, s2);
        ThenEvents(s, s2, r.value);
      } else {
        ThenEvents(s, s1, r.value);
      }
    }
  }

  lemma SteeredPersists(s: State, message: Id, to: Disposition)
    requires message in s.core.messages && s.core.messages[message].request.Some?
    ensures Persists(s, SteerRows(s, message, to))
  {
  }

  lemma ThenEvents(s: State, t: State, u: State)
    requires Persists(s, t) && u.core == t.core && u.rows == t.rows && t.log.events <= u.log.events
    requires u.log.projected == t.log.projected && u.log.late == t.log.late
    ensures Persists(s, u)
  {
  }

  lemma ResponsePersists(s: State, action: Action, answer: Answer)
    ensures var r := FinishResponse(s, action, answer); r.Some? ==> Persists(s, r.value)
  {
    hide Persists, SetAttemptUnknown;
    var r := FinishResponse(s, action, answer);
    if r.Some? {
      var status := AnswerRow(answer);
      var s1 := AnswerRows(s, action, status);
      NothingPersists(s);
      AnswerRowsPersist(s, action, status);
      if status.Unknown? {
        UnknownPersists(s1, action.reference, Effects.Unknown, r.value);
        PersistsThenPersists(s, s1, r.value);
      } else {
        ThenEvents(s, s1, r.value);
      }
    }
  }

  lemma AnswerRowsPersist(s: State, action: Action, status: AnswerStatus)
    ensures Persists(s, AnswerRows(s, action, status))
  {
  }

  lemma RestartPersists(s: State)
    ensures Persists(s, Restart(s))
  {
  }

  lemma NextPersists(s: State, step: Step)
    ensures Persists(s, Next(s, step))
  {
    hide Persists, Observed, SubmitCommand, DispatchCandidate, Settle, Restart, Observing;
    match step
    case Submit(id, command, drawn) => SubmitPersists(s, id, command, drawn);
    case DispatchNext(attempt, generation) => CandidatePersists(s, attempt, generation);
    case Commit(action, commit) => SettlePersists(s, action, commit);
    case CrashAndRestart => RestartPersists(s);
    case _ => OtherStepsPersist(s, step);
  }

  lemma OtherStepsPersist(s: State, step: Step)
    requires !step.Submit? && !step.DispatchNext? && !step.Commit? && !step.CrashAndRestart?
    ensures Persists(s, Next(s, step))
  {
    hide Next, Persists;
    if Observing(step) {
      ObservingPersists(s, step);
    } else if step.Install? || step.Release? || step.Delete? {
      HoldStepPersists(s, step);
    } else {
      MovePersists(s, step);
    }
  }

  lemma HoldStepPersists(s: State, step: Step)
    requires step.Install? || step.Release? || step.Delete?
    ensures Persists(s, Next(s, step))
  {
    hide Persists, DialogSettled, PreStart, ScopeTaken, OutcomeCommand;
    NothingPersists(s);
    ThenEvents(s, s, Next(s, step));
  }

  lemma MovePersists(s: State, step: Step)
    requires !step.Submit? && !step.DispatchNext? && !step.Commit? && !step.CrashAndRestart? && !Observing(step)
    requires !step.Install? && !step.Release? && !step.Delete?
    ensures Persists(s, Next(s, step))
  {
    hide NextInQueue, HasEnded, Persists;
    if step.Block? {
      BlockPersists(s);
    } else if step.Finish? {
      FinishPersists(s, step.action, step.commit);
    } else {
      RunMovePersists(s, step);
    }
  }

  lemma BlockPersists(s: State)
    ensures Persists(s, BlockPolicy(s))
  {
  }

  lemma FinishPersists(s: State, action: Id, commit: bool)
    ensures Persists(s, FinishAction(s, action, commit))
  {
  }

  lemma RunMovePersists(s: State, step: Step)
    requires step.PeekDispatch? || step.ClaimAction? || step.Gate? || step.Read? || step.Begin? || step.Reply? || step.Ungate?
    ensures Persists(s, Next(s, step))
  {
    hide NextInQueue, HasEnded;
  }

  lemma ObservingPersists(s: State, step: Step)
    requires Observing(step)
    ensures Persists(s, Next(s, step))
  {
    hide Next, Persists, Touch, Calm;
    NothingPersists(s);
    ObservingStep(s, step);
    if Next(s, step) != s {
      TouchPersists(s, Next(s, step), step.reference.attempt, step.reference.request);
    }
  }

  lemma {:induction false} RunPersists(s: State, steps: seq<Step>)
    ensures Persists(s, Run(s, steps))
  {
    hide Persists, Next;
    if steps == [] {
      assert Persists(s, s) by {
        NothingPersists(s);
      }
    } else {
      var shorter := steps[..|steps| - 1];
      RunPersists(s, shorter);
      NextPersists(Run(s, shorter), steps[|steps| - 1]);
      PersistsThenPersists(s, Run(s, shorter), Run(s, steps));
    }
  }

  lemma NothingPersists(s: State)
    ensures Persists(s, s)
  {
  }
}
