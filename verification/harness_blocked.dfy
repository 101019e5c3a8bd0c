// Control answers that can no longer become known. While one is owed for the unknown holder of the slot,
// nothing ends it and nothing else is dispatched.
module HarnessBlocked {
  import opened Common
  import opened HarnessState
  import opened HarnessObserve
  import opened HarnessFrame
  import opened HarnessAdmission
  import opened HarnessActions
  import opened HarnessStep
  import opened HarnessInvariant
  import opened HarnessSlot

  // The answer to a steer, approval or input action of the attempt is lost: the row is unknown, or it is
  // inflight and nobody is left who would write anything else.
  predicate Unanswered(s: State, c: Id, a: Id) {
    && c in s.core.actions && IsControl(s.core.actions[c].kind) && s.core.actions[c].reference.attempt == a
    && (s.core.actions[c].status.Unknown?
        || (s.core.actions[c].status.Inflight? && (c in s.run.workers ==> s.run.workers[c] == Finishing(ActionStatus.Unknown))))
  }

  predicate HoldsUnknown(s: State, a: Id) {
    s.node.slot == Some(a) && a in s.core.attempts && s.core.attempts[a].state.Unknown?
  }

  // the unknown holder of the slot has an action whose answer is lost
  predicate Stuck(s: State, c: Id, a: Id) {
    HoldsUnknown(s, a) && Unanswered(s, c, a)
  }

  // no attempt is added, and attempt a keeps the slot and stays unknown
  ghost predicate StaysStuck(s: State, t: State, c: Id, a: Id) {
    Stuck(t, c, a) && t.core.attempts.Keys == s.core.attempts.Keys
  }

  lemma UnansweredIsOwed(s: State, c: Id, a: Id)
    requires Unanswered(s, c, a)
    ensures ControlOwed(s, a)
  {
  }

  lemma ControlIsStarted(s: State, c: Id, a: Id)
    requires Base(s) && Unanswered(s, c, a)
    ensures a in s.core.attempts && s.core.attempts[a].started
  {
    assert ActionOk(s, c);
  }

  // ----- every step -----

  lemma SameStaysStuck(s: State, t: State, c: Id, a: Id)
    requires Stuck(s, c, a) && t.core.attempts == s.core.attempts && t.node.slot == s.node.slot
    requires c in t.core.actions && t.core.actions[c] == s.core.actions[c] && (c in t.run.workers ==> c in s.run.workers && t.run.workers[c] == s.run.workers[c])
    ensures StaysStuck(s, t, c, a)
  {
  }

  lemma ObservedStaysStuck(s: State, t: State, a: Id, b: Id, q: Id, c: Id)
    requires Base(s) && Stuck(s, c, a) && Observed(s, t, b, q) == true
    ensures StaysStuck(s, t, c, a)
  {
    UnansweredIsOwed(s, c, a);
    ControlIsStarted(s, c, a);
    assert forall x :: x in t.core.attempts.Keys <==> x in s.core.attempts.Keys;
  }

  lemma ObservingStaysStuck(s: State, step: Step, c: Id, a: Id)
    requires Base(s) && Stuck(s, c, a) && Observing(step)
    ensures StaysStuck(s, Next(s, step), c, a)
  {
    hide Base, Observed, Next;
    ObservingStep(s, step);
    if Next(s, step) != s {
      ObservedStaysStuck(s, Next(s, step), a, step.reference.attempt, step.reference.request, c);
    }
  }

  lemma SubmitStaysStuck(s: State, id: Id, command: Command, drawn: Drawn, c: Id, a: Id)
    requires Stuck(s, c, a)
    ensures StaysStuck(s, SubmitCommand(s, id, command, drawn).0, c, a)
  {
    hide RetryPending, Authorized, CoveredByHold, OutcomeCommand;
  }

  lemma MarkKeeps(s: State, reference: AttemptRef, a: Id)
    requires HoldsUnknown(s, a)
    ensures MarkAttemptUnknown(s, reference) == s
  {
  }

  // beside the holder of the slot no attempt can become unknown
  lemma UnknownKeeps(s: State, reference: AttemptRef, a: Id, t: State)
    requires HoldsUnknown(s, a) && LiveHoldsSlot(s) && SetAttemptUnknown(s, reference, Effects.Unknown) == Some(t)
    ensures t == s
  {
    if reference.attempt != a {
      assert OtherLive(s, reference.attempt);
    }
  }

  lemma SteerKeeps(s: State, reference: AttemptRef, message: Id, answer: Answer, a: Id, t: State)
    requires HoldsUnknown(s, a) && LiveHoldsSlot(s) && FinishSteer(s, reference, message, answer) == Some(t)
    ensures t.core.attempts == s.core.attempts && t.core.actions == s.core.actions && t.node.slot == s.node.slot && t.run == s.run
  {
    hide SetAttemptUnknown;
    var s1 := SteerRows(s, message, SteerDisposition(answer));
    if SteerDisposition(answer).Unknown? {
      UnknownKeeps(s1, reference, a, SetAttemptUnknown(s1, reference, Effects.Unknown).value);
    }
  }

  lemma ResponseKeeps(s: State, action: Action, answer: Answer, a: Id, t: State)
    requires HoldsUnknown(s, a) && LiveHoldsSlot(s) && FinishResponse(s, action, answer) == Some(t)
    ensures t.core == s.core && t.node.slot == s.node.slot && t.run == s.run
  {
    hide SetAttemptUnknown;
    if AnswerRow(answer).Unknown? {
      UnknownKeeps(AnswerRows(s, action, AnswerStatus.Unknown), action.reference, a, t);
    }
  }

  // a rejected start is that of another attempt, which is not in the slot
  lemma RejectionKeeps(s: State, id: Id, c: Id, a: Id)
    requires Base(s) && Stuck(s, c, a) && id in s.core.actions && StartAhead(s, id)
    ensures var t := ObserveRejected(s, id, s.core.actions[id].reference.generation);
      t.core == s.core && t.node == s.node && t.run == s.run
  {
    ControlIsStarted(s, c, a);
    assert id != a;
  }

  lemma SettledKeeps(s: State, id: Id, answer: Answer, commit: bool, c: Id, a: Id)
    requires Base(s) && LiveHoldsSlot(s) && Stuck(s, c, a)
    requires id in s.run.workers && id in s.core.actions && s.run.workers[id].Answered?
    ensures var t := SettleAction(s, id, answer, commit).0;
      t.core.attempts == s.core.attempts && t.core.actions == s.core.actions && t.node.slot == s.node.slot && t.run == s.run
  {
    hide Base, LiveHoldsSlot, FinishSteer, FinishResponse, MarkAttemptUnknown, ObserveRejected;
    var action := s.core.actions[id];
    MarkKeeps(s, action.reference, a);
    if action.kind.DispatchStart? && answer.Rejected? {
      StartsAhead(s, id);
      RejectionKeeps(s, id, c, a);
    } else if action.kind.Steer? {
      var r := FinishSteer(s, action.reference, action.message, answer);
      if r.Some? {
        SteerKeeps(s, action.reference, action.message, answer, a, r.value);
      }
    } else if action.kind.Approval? || action.kind.Input? {
      var r := FinishResponse(s, action, answer);
      if r.Some? {
        ResponseKeeps(s, action, answer, a, r.value);
      }
    }
  }

  lemma StartsAhead(s: State, id: Id)
    requires Base(s) && id in s.run.workers && id in s.core.actions && s.run.workers[id].Answered? && s.core.actions[id].kind.DispatchStart?
    ensures StartAhead(s, id) && s.core.actions[id].reference.attempt == id
  {
    assert ActionOk(s, id);
  }

  lemma SettleStaysStuck(s: State, id: Id, commit: bool, c: Id, a: Id)
    requires Base(s) && LiveHoldsSlot(s) && Stuck(s, c, a)
    ensures StaysStuck(s, Settle(s, id, commit), c, a)
  {
    hide Base, LiveHoldsSlot, SettleAction;
    if id in s.run.workers && id in s.core.actions && s.run.workers[id].Answered? {
      InflightWorker(s, id);
      SettledKeeps(s, id, s.run.workers[id].answer, commit, c, a);
    }
  }

  lemma InflightWorker(s: State, id: Id)
    requires Base(s) && id in s.run.workers
    ensures id in s.core.actions && s.core.actions[id].status.Inflight?
  {
  }

  lemma RestartStaysStuck(s: State, c: Id, a: Id)
    requires LiveHoldsSlot(s) && Stuck(s, c, a)
    ensures StaysStuck(s, Restart(s), c, a)
  {
  }

  // the moves of one worker
  lemma WorkerStaysStuck(s: State, step: Step, c: Id, a: Id)
    requires Base(s) && Stuck(s, c, a)
    requires step.ClaimAction? || step.Finish? || step.Gate? || step.Read? || step.Begin? || step.Reply? || step.Ungate?
    ensures StaysStuck(s, Next(s, step), c, a)
  {
    hide AttemptsOk, RequestsOk, MessagesOk, ActionsOk, RowsOk, StartsOk, Barrier, HasEnded;
  }

  lemma AdminStaysStuck(s: State, step: Step, c: Id, a: Id)
    requires Stuck(s, c, a) && (step.Install? || step.Release? || step.Delete? || step.PeekDispatch? || step.Block? || step.DispatchNext?)
    ensures StaysStuck(s, Next(s, step), c, a)
  {
    hide NextInQueue, DialogSettled;
  }

  lemma NextStaysStuck(s: State, step: Step, c: Id, a: Id)
    requires Base(s) && Slotted(s) && Stuck(s, c, a)
    ensures StaysStuck(s, Next(s, step), c, a)
  {
    hide Base, Stuck, LiveHoldsSlot, SteersLive, StaysStuck, SubmitCommand, Settle, Restart;
    match step
    case Submit(id, command, drawn) => SubmitStaysStuck(s, id, command, drawn, c, a);
    case Commit(action, commit) => SettleStaysStuck(s, action, commit, c, a);
    case CrashAndRestart => RestartStaysStuck(s, c, a);
    case _ => OtherStaysStuck(s, step, c, a);
  }

  lemma OtherStaysStuck(s: State, step: Step, c: Id, a: Id)
    requires Base(s) && Stuck(s, c, a) && !step.Submit? && !step.Commit? && !step.CrashAndRestart?
    ensures StaysStuck(s, Next(s, step), c, a)
  {
    hide Base, Stuck, StaysStuck, Next;
    if Observing(step) {
      ObservingStaysStuck(s, step, c, a);
    } else if step.Install? || step.Release? || step.Delete? || step.PeekDispatch? || step.Block? || step.DispatchNext? {
      AdminStaysStuck(s, step, c, a);
    } else {
      WorkerStaysStuck(s, step, c, a);
    }
  }

  // ----- every run -----

  // Once the answer to a control action of the unknown slot holder is lost, that attempt is the unknown
  // holder of the slot in every continuation, and no request is dispatched.
  lemma {:induction false} BlockedForever(registryVersion: int, steps: seq<Step>, later: seq<Step>, c: Id, a: Id)
    requires Stuck(Run(Init(registryVersion), steps), c, a)
    ensures StaysStuck(Run(Init(registryVersion), steps), Run(Init(registryVersion), steps + later), c, a)
  {
    hide Init, Next, Stuck;
    if later == [] {
      assert steps + later == steps;
    } else {
      var shorter := later[..|later| - 1];
      var all := steps + later;
      assert all[..|all| - 1] == steps + shorter && all[|all| - 1] == later[|later| - 1];
      BlockedForever(registryVersion, steps, shorter, c, a);
      OneLiveAttempt(registryVersion, steps + shorter);
      RunKeepsBase(registryVersion, steps + shorter);
      NextStaysStuck(Run(Init(registryVersion), steps + shorter), later[|later| - 1], c, a);
    }
  }

  // An attempt that comes back after its end is such a one: it never leaves the slot again.
  lemma ReturnIsStuck(s: State, step: Step, a: Id)
    requires Base(s) && Resurrects(s, step, a)
    ensures Stuck(Next(s, step), step.action, a)
  {
    hide Next, Settle;
    ResponseResurrects(s, step.action, a);
    NextCommits(s, step.action);
    ResponseSettles(s, step.action);
    ResponseWorker(s, step.action);
    InflightWorker(s, step.action);
  }

  lemma ResponseWorker(s: State, id: Id)
    requires id in s.run.workers && id in s.core.actions && (s.core.actions[id].kind.Approval? || s.core.actions[id].kind.Input?)
    requires s.run.workers[id] == Answered(Answer.Uncertain) || s.run.workers[id] == Answered(Answer.Error)
    ensures var t := Settle(s, id, true); id in t.run.workers && t.run.workers[id] == Finishing(ActionStatus.Unknown)
  {
    hide FinishResponse, MarkAttemptUnknown, FinishSteer, MarkStarted, ObserveRejected;
  }

  lemma ReturnBlocksForever(registryVersion: int, steps: seq<Step>, step: Step, later: seq<Step>, a: Id)
    requires var s := Run(Init(registryVersion), steps); a in s.core.attempts && IsTerminal(s.core.attempts[a].state)
    requires var s := Run(Init(registryVersion), steps); var t := Next(s, step);
      a in t.core.attempts && t.core.attempts[a].state != s.core.attempts[a].state
    ensures var t := Next(Run(Init(registryVersion), steps), step); var u := Run(Init(registryVersion), steps + [step] + later);
      HoldsUnknown(u, a) && u.core.attempts.Keys == t.core.attempts.Keys
  {
    hide Init, Next, Base;
    var s := Run(Init(registryVersion), steps);
    RunKeepsBase(registryVersion, steps);
    OneLiveAttempt(registryVersion, steps);
    EndedChangesIff(s, step, a);
    ReturnIsStuck(s, step, a);
    assert (steps + [step])[..|steps|] == steps;
    BlockedForever(registryVersion, steps + [step], later, step.action, a);
  }
}
