// The order of the queue and of the control lanes: over whole runs, what came first goes first.
module HarnessQueue {
  import opened Common
  import opened HarnessState
  import opened HarnessObserve
  import opened HarnessFrame
  import opened HarnessAdmission
  import opened HarnessHold
  import opened HarnessActions
  import opened HarnessStep
  import opened HarnessInvariant

  // ----- numbers are handed out once, in rising order -----

  // the numbers given so far are below the next one, and no two rows share one
  ghost predicate Numbered(s: State) {
    && (forall r :: r in s.core.requests ==> s.core.requests[r].queueSequence < s.node.nextQueueSequence)
    && (forall c :: c in s.core.actions ==> s.core.actions[c].row < |s.core.actions|)
  }

  // what a step adds is numbered after everything that was there
  ghost predicate Rises(s: State, t: State) {
    && (forall r :: r in s.core.requests ==> r in t.core.requests && t.core.requests[r].queueSequence == s.core.requests[r].queueSequence)
    && (forall r :: r in t.core.requests && r !in s.core.requests ==>
          s.node.nextQueueSequence <= t.core.requests[r].queueSequence < t.node.nextQueueSequence)
    && s.node.nextQueueSequence <= t.node.nextQueueSequence
    && (forall c :: c in s.core.actions ==> c in t.core.actions && t.core.actions[c].row == s.core.actions[c].row
                                             && t.core.actions[c].kind == s.core.actions[c].kind)
    && (forall c :: c in t.core.actions && c !in s.core.actions ==> |s.core.actions| <= t.core.actions[c].row < |t.core.actions|)
    && |s.core.actions| <= |t.core.actions|
  }

  lemma RisesKeepsNumbers(s: State, t: State)
    requires Numbered(s) && Rises(s, t)
    ensures Numbered(t)
  {
  }

  lemma RisesThenRises(s: State, t: State, u: State)
    requires Rises(s, t) && Rises(t, u)
    ensures Rises(s, u)
  {
  }

  // ----- every step -----

  lemma SameRises(s: State, t: State)
    requires t.core.requests == s.core.requests && t.core.actions == s.core.actions && t.node.nextQueueSequence == s.node.nextQueueSequence
    ensures Rises(s, t)
  {
  }

  lemma SubmitRises(s: State, id: Id, command: Command, drawn: Drawn)
    ensures Rises(s, SubmitCommand(s, id, command, drawn).0)
  {
    hide Rises, ApplyCommand, Authorized, CoveredByHold, OutcomeCommand;
    var (t, reply) := SubmitCommand(s, id, command, drawn);
    if reply.Admitted? {
      var r := ApplyCommand(s, id, command, drawn).value;
      CommandRises(s, id, command, drawn, r);
      ReceiptRises(s, r, t);
    } else {
      SameRises(s, t);
    }
  }

  lemma ReceiptRises(s: State, t: State, u: State)
    requires Rises(s, t) && u.core == t.core && u.node == t.node
    ensures Rises(s, u)
  {
  }

  lemma CommandRises(s: State, id: Id, command: Command, drawn: Drawn, t: State)
    requires ApplyCommand(s, id, command, drawn) == Some(t)
    ensures Rises(s, t)
  {
    hide RetryPending;
  }

  lemma DispatchRises(s: State, attempt: Id, generation: int)
    ensures Rises(s, DispatchCandidate(s, attempt, generation))
  {
    hide NextInQueue, NextGeneration, OtherLive;
  }

  // what a worker commits writes requests, and no attempt, request or action is added
  ghost predicate KeepsNumbers(s: State, t: State) {
    && t.core.actions == s.core.actions && t.node.nextQueueSequence == s.node.nextQueueSequence
    && (forall a :: a in t.core.attempts <==> a in s.core.attempts)
    && (forall r :: r in t.core.requests <==> r in s.core.requests)
    && (forall r :: r in s.core.requests ==> t.core.requests[r].queueSequence == s.core.requests[r].queueSequence)
  }

  lemma SteerKeepsNumbers(s: State, reference: AttemptRef, message: Id, answer: Answer)
    ensures KeepsNumbers(s, Else(FinishSteer(s, reference, message, answer), s))
  {
    hide SetAttemptUnknown;
    if message in s.core.messages && s.core.messages[message].request.Some? {
      UnknownKeepsNumbers(SteerRows(s, message, SteerDisposition(answer)), reference);
    }
  }

  lemma ResponseKeepsNumbers(s: State, action: Action, answer: Answer)
    ensures KeepsNumbers(s, Else(FinishResponse(s, action, answer), s))
  {
    hide SetAttemptUnknown;
    UnknownKeepsNumbers(AnswerRows(s, action, AnswerRow(answer)), action.reference);
  }

  lemma StartKeepsNumbers(s: State, reference: AttemptRef)
    ensures KeepsNumbers(s, Else(MarkStarted(s, reference), s))
  {
  }

  lemma RejectionKeepsNumbers(s: State, reference: AttemptRef)
    ensures KeepsNumbers(s, ObserveRejected(s, reference.attempt, reference.generation))
  {
  }

  lemma MarkKeepsNumbers(s: State, reference: AttemptRef)
    ensures KeepsNumbers(s, MarkAttemptUnknown(s, reference))
  {
    hide SetAttemptUnknown;
    UnknownKeepsNumbers(s, reference);
  }

  lemma SettleKeepsNumbers(s: State, id: Id, commit: bool)
    ensures KeepsNumbers(s, Settle(s, id, commit))
  {
    hide FinishSteer, FinishResponse, MarkStarted, ObserveRejected, MarkAttemptUnknown, KeepsNumbers;
    SameKeepsNumbers(s, s);
    if id in s.run.workers && id in s.core.actions && s.run.workers[id].Answered? {
      var action, answer := s.core.actions[id], s.run.workers[id].answer;
      SteerKeepsNumbers(s, action.reference, action.message, answer);
      ResponseKeepsNumbers(s, action, answer);
      StartKeepsNumbers(s, action.reference);
      RejectionKeepsNumbers(s, action.reference);
      MarkKeepsNumbers(s, action.reference);
      PhaseKeepsNumbers(s, SettleAction(s, id, answer, commit).0, Settle(s, id, commit));
    }
  }

  lemma SameKeepsNumbers(s: State, t: State)
    requires t.core == s.core && t.node == s.node
    ensures KeepsNumbers(s, t)
  {
  }

  lemma PhaseKeepsNumbers(s: State, t: State, u: State)
    requires KeepsNumbers(s, t) && u.core == t.core && u.node == t.node
    ensures KeepsNumbers(s, u)
  {
  }

  lemma UnknownKeepsNumbers(s: State, reference: AttemptRef)
    ensures KeepsNumbers(s, Else(SetAttemptUnknown(s, reference, Effects.Unknown), s))
  {
  }

  lemma KeptRises(s: State, t: State)
    requires KeepsNumbers(s, t)
    ensures Rises(s, t)
  {
  }

  lemma RestartRises(s: State)
    ensures Rises(s, Restart(s))
  {
    hide SetAttemptUnknown;
    var s1 := s.(core := s.core.(actions := AbandonAll(s.core.actions)), run := s.run.(workers := map[], gate := None, peeked := None));
    assert s1.core.actions.Keys == s.core.actions.Keys;
    if s.node.slot.Some? && s.node.slot.value in s.core.attempts {
      UnknownKeepsNumbers(s1, Reference(s1, s.node.slot.value));
    }
  }

  lemma ObservingRises(s: State, step: Step)
    requires Observing(step)
    ensures Rises(s, Next(s, step))
  {
    hide Next, Observed;
    ObservingStep(s, step);
    if Next(s, step) == s {
      SameRises(s, s);
    } else {
      ObservedRises(s, Next(s, step), step.reference.attempt, step.reference.request);
    }
  }

  lemma ObservedRises(s: State, t: State, a: Id, q: Id)
    requires Observed(s, t, a, q) == true
    ensures Rises(s, t)
  {
  }

  lemma StillRises(s: State, step: Step)
    requires Still(step)
    ensures Rises(s, Next(s, step))
  {
    hide NextInQueue, DialogSettled, HasEnded, PreStart, ScopeTaken, OutcomeCommand;
  }

  lemma NextRises(s: State, step: Step)
    ensures Rises(s, Next(s, step))
  {
    hide Rises, SubmitCommand, DispatchCandidate, Settle, Restart;
    match step
    case Submit(id, command, drawn) => SubmitRises(s, id, command, drawn);
    case DispatchNext(attempt, generation) => DispatchRises(s, attempt, generation);
    case Commit(action, commit) => SettleKeepsNumbers(s, action, commit); KeptRises(s, Settle(s, action, commit));
    case CrashAndRestart => RestartRises(s);
    case ClaimAction(lane, action) => ClaimRises(s, lane, action);
    case Finish(action, commit) => FinishRises(s, action, commit);
    case _ => OtherRises(s, step);
  }

  lemma OtherRises(s: State, step: Step)
    requires Observing(step) || Still(step)
    ensures Rises(s, Next(s, step))
  {
    hide Rises, Next;
    if Observing(step) {
      ObservingRises(s, step);
    } else {
      StillRises(s, step);
    }
  }

  lemma ClaimRises(s: State, lane: Lane, action: Id)
    ensures Rises(s, Claim(s, lane, action))
  {
  }

  lemma FinishRises(s: State, id: Id, commit: bool)
    ensures Rises(s, FinishAction(s, id, commit))
  {
  }

  lemma {:induction false} RunRises(s: State, later: seq<Step>)
    ensures Rises(s, Run(s, later))
  {
    hide Next, Rises;
    if later == [] {
      SameRises(s, s);
    } else {
      RunRises(s, later[..|later| - 1]);
      NextRises(Run(s, later[..|later| - 1]), later[|later| - 1]);
      RisesThenRises(s, Run(s, later[..|later| - 1]), Run(s, later));
    }
  }

  lemma RunIsNumbered(registryVersion: int, steps: seq<Step>)
    ensures Numbered(Run(Init(registryVersion), steps))
  {
    hide Next, Run, Rises;
    RunRises(Init(registryVersion), steps);
    RisesKeepsNumbers(Init(registryVersion), Run(Init(registryVersion), steps));
  }

  // ----- first in, first out -----

  // A step creates an attempt only for a request that was queued, in a dialog that nothing held, and before
  // which no other such request waited.
  lemma NewAttemptIsFirst(s: State, step: Step, a: Id, q: Id)
    requires a in Next(s, step).core.attempts && a !in s.core.attempts
    requires q in s.core.requests && s.core.requests[q].status.Queued? && !Held(s, s.core.requests[q].dialog)
    ensures var r := Next(s, step).core.attempts[a].request;
      && r in s.core.requests && s.core.requests[r].status.Queued? && !Held(s, s.core.requests[r].dialog)
      && s.core.requests[r].queueSequence <= s.core.requests[q].queueSequence
  {
    hide Next;
    OnlyDispatchCreates(s, step, a);
    DispatchTakesFirst(s, step, a, q);
  }

  lemma DispatchTakesFirst(s: State, step: Step, a: Id, q: Id)
    requires step.DispatchNext? && a in Next(s, step).core.attempts && a !in s.core.attempts
    requires q in s.core.requests && s.core.requests[q].status.Queued? && !Held(s, s.core.requests[q].dialog)
    ensures var r := Next(s, step).core.attempts[a].request;
      && r in s.core.requests && s.core.requests[r].status.Queued? && !Held(s, s.core.requests[r].dialog)
      && s.core.requests[r].queueSequence <= s.core.requests[q].queueSequence
  {
    hide NextGeneration, OtherLive;
    assert IsQueued(s, q);
  }

  lemma OnlyDispatchCreates(s: State, step: Step, a: Id)
    requires a in Next(s, step).core.attempts && a !in s.core.attempts
    ensures step.DispatchNext?
  {
    hide Next, Rises, Observed;
    if Observing(step) {
      ObservingStep(s, step);
      if Next(s, step) != s {
        ObservedAddsNone(s, Next(s, step), step.reference.attempt, step.reference.request);
      }
    } else if Still(step) {
      StillTables(s, step);
    } else if !step.DispatchNext? {
      MovesAddNone(s, step);
    }
  }

  lemma ObservedAddsNone(s: State, t: State, a: Id, q: Id)
    requires Observed(s, t, a, q) == true
    ensures forall x :: x in t.core.attempts ==> x in s.core.attempts
  {
  }

  lemma MovesAddNone(s: State, step: Step)
    requires step.Submit? || step.Commit? || step.CrashAndRestart? || step.ClaimAction? || step.Finish?
    ensures forall x :: x in Next(s, step).core.attempts ==> x in s.core.attempts
  {
    hide SubmitCommand, Settle, Restart;
    match step
    case Submit(id, command, drawn) => SubmitAddsNone(s, id, command, drawn);
    case Commit(action, commit) => SettleKeepsNumbers(s, action, commit);
    case CrashAndRestart => RestartAddsNone(s);
    case _ =>
  }

  lemma SubmitAddsNone(s: State, id: Id, command: Command, drawn: Drawn)
    ensures forall x :: x in SubmitCommand(s, id, command, drawn).0.core.attempts ==> x in s.core.attempts
  {
    hide RetryPending, Authorized, CoveredByHold, OutcomeCommand;
  }

  lemma RestartAddsNone(s: State)
    ensures forall x :: x in Restart(s).core.attempts ==> x in s.core.attempts
  {
  }

  // In every run: while a request waits in a dialog that nothing holds, no request that entered the queue
  // after it is dispatched.
  lemma QueueIsFifo(registryVersion: int, before: seq<Step>, later: seq<Step>, step: Step, q: Id, r: Id, a: Id)
    requires q in Run(Init(registryVersion), before).core.requests && r !in Run(Init(registryVersion), before).core.requests
    requires var s := Run(Run(Init(registryVersion), before), later);
      q in s.core.requests && s.core.requests[q].status.Queued? && !Held(s, s.core.requests[q].dialog)
    requires var s := Run(Run(Init(registryVersion), before), later); a in Next(s, step).core.attempts && a !in s.core.attempts
    ensures Next(Run(Run(Init(registryVersion), before), later), step).core.attempts[a].request != r
  {
    hide Next, Run;
    var s0 := Run(Init(registryVersion), before);
    var s := Run(s0, later);
    RunIsNumbered(registryVersion, before);
    RunRises(s0, later);
    NewAttemptIsFirst(s, step, a, q);
  }

  // ----- the lanes of the action workers -----

  // stops, starts and answers are taken up by workers of their own
  predicate SameLane(left: ActionKind, right: ActionKind) {
    (left.Stop? <==> right.Stop?) && (left.DispatchStart? <==> right.DispatchStart?)
  }

  // a worker may take the action up: it waits, and if it is a start nothing holds its dialog
  predicate Waits(s: State, c: Id) {
    && c in s.core.actions && s.core.actions[c].status.Pending?
    && (s.core.actions[c].kind.DispatchStart? ==>
          var a := s.core.actions[c].reference.attempt; a in s.core.attempts && !Held(s, s.core.attempts[a].dialog))
  }

  // a step that makes a waiting action inflight is the claim of it
  lemma OnlyClaimTakes(s: State, step: Step, d: Id)
    requires Base(s) && d in s.core.actions && s.core.actions[d].status.Pending?
    requires d in Next(s, step).core.actions && Next(s, step).core.actions[d].status.Inflight?
    ensures step.ClaimAction? && step.action == d
  {
    hide Next, Base, Observed;
    if Observing(step) {
      ObservingStep(s, step);
      if Next(s, step) != s {
        ObservedKeepsActions(s, Next(s, step), step.reference.attempt, step.reference.request);
      }
    } else if Still(step) {
      StillTables(s, step);
    } else if !step.ClaimAction? || step.action != d {
      MovesKeepStatus(s, step, d);
    }
  }

  lemma ObservedKeepsActions(s: State, t: State, a: Id, q: Id)
    requires Observed(s, t, a, q) == true
    ensures forall c :: c in s.core.actions ==> c in t.core.actions && t.core.actions[c] == s.core.actions[c]
  {
  }

  lemma MovesKeepStatus(s: State, step: Step, d: Id)
    requires Base(s) && d in s.core.actions && s.core.actions[d].status.Pending? && !(step.ClaimAction? && step.action == d)
    requires step.Submit? || step.Commit? || step.CrashAndRestart? || step.ClaimAction? || step.Finish? || step.DispatchNext?
    ensures d in Next(s, step).core.actions && !Next(s, step).core.actions[d].status.Inflight?
  {
    hide AttemptsOk, RequestsOk, MessagesOk, ActionsOk, RowsOk, SlotOk, StartsOk, Barrier, SubmitCommand, Settle, Restart, DispatchCandidate;
    match step
    case Submit(id, command, drawn) => SubmitKeepsActions(s, id, command, drawn);
    case Commit(action, commit) => SettleKeepsNumbers(s, action, commit);
    case CrashAndRestart => RestartEndsInflight(s, d);
    case DispatchNext(attempt, generation) => DispatchKeepsActions(s, attempt, generation);
    case _ =>
  }

  lemma SubmitKeepsActions(s: State, id: Id, command: Command, drawn: Drawn)
    ensures var t := SubmitCommand(s, id, command, drawn).0;
      forall c :: c in s.core.actions ==> c in t.core.actions && t.core.actions[c] == s.core.actions[c]
  {
    hide RetryPending, Authorized, CoveredByHold, OutcomeCommand;
  }

  lemma DispatchKeepsActions(s: State, attempt: Id, generation: int)
    ensures var t := DispatchCandidate(s, attempt, generation);
      forall c :: c in s.core.actions ==> c in t.core.actions && t.core.actions[c] == s.core.actions[c]
  {
    hide NextInQueue, NextGeneration, OtherLive;
  }

  lemma RestartEndsInflight(s: State, d: Id)
    requires d in s.core.actions && s.core.actions[d].status.Pending?
    ensures d in Restart(s).core.actions && !Restart(s).core.actions[d].status.Inflight?
  {
  }

  // In every run: while an action waits, no action of its lane that was written after it is taken up.
  lemma LaneIsFifo(registryVersion: int, before: seq<Step>, later: seq<Step>, step: Step, c: Id, d: Id)
    requires c in Run(Init(registryVersion), before).core.actions && d !in Run(Init(registryVersion), before).core.actions
    requires var s := Run(Init(registryVersion), before + later);
      Waits(s, c) && d in s.core.actions && s.core.actions[d].status.Pending? && SameLane(s.core.actions[c].kind, s.core.actions[d].kind)
    ensures var t := Next(Run(Init(registryVersion), before + later), step);
      d in t.core.actions && !t.core.actions[d].status.Inflight?
  {
    hide Next, Run, Rises, Numbered, Waits;
    var s0 := Run(Init(registryVersion), before);
    var s := Run(Init(registryVersion), before + later);
    RunIsNumbered(registryVersion, before);
    RunRises(s0, later);
    RunAppends(Init(registryVersion), before, later);
    RunKeepsBase(registryVersion, before + later);
    NextRises(s, step);
    LaterRow(s0, s, c, d);
    StillThere(s, Next(s, step), d);
    if Next(s, step).core.actions[d].status.Inflight? {
      OnlyClaimTakes(s, step, d);
      EarlierIsClaimed(s, step.lane, c, d);
      NextClaims(s, step.lane, d);
    }
  }

  lemma LaterRow(s: State, t: State, c: Id, d: Id)
    requires Numbered(s) && Rises(s, t) && c in s.core.actions && d !in s.core.actions && d in t.core.actions
    ensures c in t.core.actions && t.core.actions[c].row < t.core.actions[d].row
  {
  }

  lemma StillThere(s: State, t: State, d: Id)
    requires Rises(s, t) && d in s.core.actions
    ensures d in t.core.actions
  {
  }

  lemma NextClaims(s: State, lane: Lane, d: Id)
    ensures Next(s, ClaimAction(lane, d)) == Claim(s, lane, d)
  {
  }

  lemma EarlierIsClaimed(s: State, lane: Lane, c: Id, d: Id)
    requires Waits(s, c) && d in s.core.actions && s.core.actions[d].status.Pending?
    requires SameLane(s.core.actions[c].kind, s.core.actions[d].kind) && s.core.actions[c].row < s.core.actions[d].row
    ensures Claim(s, lane, d) == s
  {
    if Claimable(s, d, lane) {
      assert Claimable(s, c, lane);
    }
  }
}
