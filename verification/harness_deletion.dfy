// Deletion is final: nothing is unresolved in a deleted dialog, and no later step changes its rows.
module HarnessDeletion {
  import opened Common
  import opened HarnessState
  import opened HarnessObserve
  import opened HarnessFrame
  import opened HarnessAdmission
  import opened HarnessHold
  import opened HarnessActions
  import opened HarnessStep
  import opened HarnessInvariant
  import opened HarnessHoldHistory
  import opened HarnessPersistence
  import opened HarnessQuiescence

  // everything in a deleted dialog is settled, and none of its requests waits
  ghost predicate Buried(s: State, d: Id) {
    d in s.admin.tombstones && Parked(s, OneDialog(d)) && ParkedRequests(s, OneDialog(d)) == {}
  }

  ghost predicate TombstonesOk(s: State) {
    forall d :: d in s.admin.tombstones ==> Buried(s, d)
  }

  lemma BuriedIsSealed(s: State, d: Id)
    requires Buried(s, d)
    ensures Sealed(s, OneDialog(d))
  {
    assert forall r :: IsQueued(s, r) && s.core.requests[r].dialog == d ==> r in ParkedRequests(s, OneDialog(d));
  }

  // the settlement that applyDialogDelete checks is the quiet of the dialog's scope with an empty queue
  lemma SettledIsBuried(s: State, d: Id)
    ensures DialogSettled(s, d) <==> Parked(s, OneDialog(d)) && ParkedRequests(s, OneDialog(d)) == {}
  {
    if DialogSettled(s, d) {
      SettledIsParked(s, d);
    }
    if Parked(s, OneDialog(d)) && ParkedRequests(s, OneDialog(d)) == {} {
      ParkedIsSettled(s, d);
    }
  }

  lemma SettledIsParked(s: State, d: Id)
    requires DialogSettled(s, d)
    ensures Parked(s, OneDialog(d)) && ParkedRequests(s, OneDialog(d)) == {}
  {
    assert forall a :: InScope(s, a, OneDialog(d)) <==> OfDialog(s, a, d);
    assert forall a :: a in s.core.attempts && s.core.attempts[a].dialog == d ==> AttemptSettled(s, a);
    forall r ensures r !in ParkedRequests(s, OneDialog(d)) {
    }
  }

  lemma ParkedIsSettled(s: State, d: Id)
    requires Parked(s, OneDialog(d)) && ParkedRequests(s, OneDialog(d)) == {}
    ensures DialogSettled(s, d)
  {
    assert forall a :: InScope(s, a, OneDialog(d)) <==> OfDialog(s, a, d);
    forall a | a in s.core.attempts && s.core.attempts[a].dialog == d ensures AttemptSettled(s, a) {
      assert InScope(s, a, OneDialog(d));
    }
    forall r | r in s.core.requests && s.core.requests[r].dialog == d ensures !s.core.requests[r].status.Queued? {
      assert r !in ParkedRequests(s, OneDialog(d));
    }
  }

  lemma NextKeepsBuried(s: State, step: Step, d: Id)
    requires Base(s) && Buried(s, d)
    ensures d in Next(s, step).admin.tombstones ==> Buried(Next(s, step), d)
  {
    hide Base, Next, Apart, Parked, Sealed;
    BuriedIsSealed(s, d);
    NextIsApart(s, step, OneDialog(d));
    ApartKeepsParked(s, Next(s, step), OneDialog(d));
  }

  lemma NextKeepsTombstones(s: State, step: Step)
    requires Base(s) && TombstonesOk(s)
    ensures TombstonesOk(Next(s, step)) && s.admin.tombstones <= Next(s, step).admin.tombstones
  {
    hide Base, Next, Parked, DialogSettled;
    TombstoneComesFromDelete(s, step);
    forall d | d in Next(s, step).admin.tombstones ensures Buried(Next(s, step), d) {
      if d in s.admin.tombstones {
        NextKeepsBuried(s, step, d);
      } else {
        SettledIsBuried(s, d);
        SettledStaysParked(s, Next(s, step), d);
      }
    }
  }

  lemma TombstoneComesFromDelete(s: State, step: Step)
    ensures var t := Next(s, step);
      && s.admin.tombstones <= t.admin.tombstones
      && forall d :: d in t.admin.tombstones && d !in s.admin.tombstones ==>
           DialogSettled(s, d) && t.core == s.core && t.rows == s.rows && t.log.projected == s.log.projected
  {
    hide DialogSettled, SubmitCommand, PreStart, ScopeTaken, OutcomeCommand;
    if step.Submit? {
      SubmitKeepsHolds(s, step.id, step.command, step.drawn);
    } else if !Administrative(step) {
      OtherStepsKeepAdmin(s, step);
    }
  }

  lemma SettledStaysParked(s: State, t: State, d: Id)
    requires Parked(s, OneDialog(d)) && ParkedRequests(s, OneDialog(d)) == {}
    requires t.core == s.core && t.rows == s.rows && t.log.projected == s.log.projected && d in t.admin.tombstones
    ensures Buried(t, d)
  {
    hide Parked, Apart;
    SameIsApart(s, t, OneDialog(d));
    ApartKeepsParked(s, t, OneDialog(d));
  }

  // ----- what Apart leaves open for a deleted dialog: byte counts, messages and artifacts -----

  ghost predicate Untouched(s: State, t: State, d: Id) {
    && (forall a :: a in s.core.attempts && s.core.attempts[a].dialog == d ==>
          a in t.core.attempts && t.core.attempts[a].outputBytes == s.core.attempts[a].outputBytes)
    && (forall m :: m in t.core.messages && t.core.messages[m].dialog == d ==>
          m in s.core.messages && t.core.messages[m] == s.core.messages[m])
    && (forall x :: x in t.rows.artifacts && OfDialog(t, t.rows.artifacts[x].attempt, d) ==>
          x in s.rows.artifacts && t.rows.artifacts[x] == s.rows.artifacts[x])
  }

  lemma SameIsUntouched(s: State, t: State, d: Id)
    requires t.core == s.core && t.rows == s.rows
    ensures Untouched(s, t, d)
  {
  }

  lemma ThenSameIsUntouched(s: State, t: State, u: State, d: Id)
    requires Untouched(s, t, d) && u.core == t.core && u.rows == t.rows
    ensures Untouched(s, u, d)
  {
  }

  lemma QueueCommandIsUntouched(s: State, id: Id, command: Command, drawn: Drawn, t: State, d: Id)
    requires Base(s) && d in s.admin.tombstones && Authorized(s, command) && ApplyCommand(s, id, command, drawn) == Some(t)
    requires command.CreateDialog? || command.ResumeQueue? || command.EnqueueMessage? || command.CancelRequest?
    ensures Untouched(s, t, d)
  {
  }

  lemma AttemptCommandIsUntouched(s: State, id: Id, command: Command, drawn: Drawn, t: State, d: Id)
    requires Base(s) && d in s.admin.tombstones && Authorized(s, command) && ApplyCommand(s, id, command, drawn) == Some(t)
    requires command.StopAttempt? || command.RetryAttempt? || command.SteerMessage?
    ensures Untouched(s, t, d)
  {
    hide RetryPending;
  }

  lemma AnswerCommandIsUntouched(s: State, id: Id, command: Command, drawn: Drawn, t: State, d: Id)
    requires Base(s) && d in s.admin.tombstones && Authorized(s, command) && ApplyCommand(s, id, command, drawn) == Some(t)
    requires command.RespondApproval? || command.RespondInput?
    ensures Untouched(s, t, d)
  {
  }

  lemma SubmitIsUntouched(s: State, id: Id, command: Command, drawn: Drawn, d: Id)
    requires Base(s) && d in s.admin.tombstones
    ensures Untouched(s, SubmitCommand(s, id, command, drawn).0, d)
  {
    hide Base, Untouched, ApplyCommand, Authorized, CoveredByHold;
    var (t, reply) := SubmitCommand(s, id, command, drawn);
    if reply.Admitted? {
      var r := ApplyCommand(s, id, command, drawn).value;
      if command.StopAttempt? || command.RetryAttempt? || command.SteerMessage? {
        AttemptCommandIsUntouched(s, id, command, drawn, r, d);
      } else if command.RespondApproval? || command.RespondInput? {
        AnswerCommandIsUntouched(s, id, command, drawn, r, d);
      } else {
        QueueCommandIsUntouched(s, id, command, drawn, r, d);
      }
      ThenSameIsUntouched(s, r, t, d);
    } else {
      SameIsUntouched(s, t, d);
    }
  }

  lemma DispatchIsUntouched(s: State, candidate: Candidate, attempt: Id, generation: int, t: State, d: Id)
    requires Base(s) && ParkedRequests(s, OneDialog(d)) == {} && Dispatch(s, candidate, attempt, generation) == Some(t)
    ensures Untouched(s, t, d)
  {
    hide NextGeneration, AttemptsOk, MessagesOk, ActionsOk, RowsOk, SlotOk, WorkersOk, StartsOk, Barrier;
    assert candidate.request !in ParkedRequests(s, OneDialog(d));
  }

  lemma CandidateIsUntouched(s: State, attempt: Id, generation: int, d: Id)
    requires Base(s) && ParkedRequests(s, OneDialog(d)) == {}
    ensures Untouched(s, DispatchCandidate(s, attempt, generation), d)
  {
    hide Base, Untouched, Dispatch;
    var t := DispatchCandidate(s, attempt, generation);
    if s.run.peeked.Some? && Dispatch(s, s.run.peeked.value, attempt, generation).Some? {
      var r := Dispatch(s, s.run.peeked.value, attempt, generation).value;
      DispatchIsUntouched(s, s.run.peeked.value, attempt, generation, r, d);
      ThenSameIsUntouched(s, r, t, d);
    } else {
      SameIsUntouched(s, t, d);
    }
  }

  lemma StatusIsUntouched(s: State, t: State, d: Id)
    requires t.core.messages == s.core.messages && t.core.attempts == s.core.attempts && t.rows == s.rows
    ensures Untouched(s, t, d)
  {
  }

  // a transaction on an attempt of another dialog
  lemma TouchIsUntouched(s: State, t: State, a: Id, q: Id, d: Id)
    requires Touch(s, t, a, q) == true && a in s.core.attempts && s.core.attempts[a].dialog != d
    ensures Untouched(s, t, d)
  {
  }

  lemma UntouchedThen(s: State, t: State, u: State, d: Id)
    requires Untouched(s, t, d) && Untouched(t, u, d)
    requires forall a :: a in s.core.attempts ==> a in t.core.attempts && t.core.attempts[a].dialog == s.core.attempts[a].dialog
    requires forall a :: a in u.core.attempts ==> a in t.core.attempts && u.core.attempts[a].dialog == t.core.attempts[a].dialog
    ensures Untouched(s, u, d)
  {
  }

  lemma SettleIsUntouched(s: State, id: Id, commit: bool, d: Id)
    requires Base(s) && Parked(s, OneDialog(d))
    ensures Untouched(s, Settle(s, id, commit), d)
  {
    hide Untouched, Parked, Observed, MarkStarted, FinishSteer, FinishResponse, MarkAttemptUnknown, ObserveRejected;
    var u := Settle(s, id, commit);
    if id in s.run.workers && id in s.core.actions && s.run.workers[id].Answered? {
      var action := s.core.actions[id];
      var reference := action.reference;
      var answer := s.run.workers[id].answer;
      var t := SettleAction(s, id, answer, commit).0;
      assert ActionOk(s, id);
      ParkedIsIdle(s, OneDialog(d));
      assert !InScope(s, reference.attempt, OneDialog(d));
      if t == s {
        SameIsUntouched(s, t, d);
      } else if action.kind.DispatchStart? && answer.Accepted? {
        StartedIsUntouched(s, reference, t, d);
      } else if action.kind.DispatchStart? && answer.Rejected? {
        assert StartAhead(s, id);
        RejectionObserved(s, reference);
        ObservedIsUntouched(s, t, reference.attempt, reference.request, d);
      } else if t == MarkAttemptUnknown(s, reference) {
        MarkObserved(s, reference);
        ObservedIsUntouched(s, t, reference.attempt, reference.request, d);
      } else if action.kind.Steer? {
        SteeredIsUntouched(s, id, answer, t, d);
      } else {
        ResponseIsUntouched(s, action, answer, t, d);
      }
      ThenSameIsUntouched(s, t, u, d);
    } else {
      SameIsUntouched(s, s, d);
    }
  }

  lemma ObservedIsUntouched(s: State, t: State, a: Id, q: Id, d: Id)
    requires Observed(s, t, a, q) == true && a in s.core.attempts && s.core.attempts[a].dialog != d
    ensures Untouched(s, t, d)
  {
    hide Touch, Calm, Untouched;
    TouchIsUntouched(s, t, a, q, d);
  }

  lemma StartedIsUntouched(s: State, reference: AttemptRef, t: State, d: Id)
    requires MarkStarted(s, reference) == Some(t) && s.core.attempts[reference.attempt].dialog != d
    ensures Untouched(s, t, d)
  {
  }

  lemma SteeredIsUntouched(s: State, id: Id, answer: Answer, t: State, d: Id)
    requires id in s.core.actions && s.core.actions[id].kind.Steer? && ActionOk(s, id) && s.core.actions[id].reference.dialog != d
    requires FinishSteer(s, s.core.actions[id].reference, s.core.actions[id].message, answer) == Some(t)
    ensures Untouched(s, t, d)
  {
    hide SetAttemptUnknown, SteerRows, Untouched;
    var x := s.core.actions[id];
    var to := SteerDisposition(answer);
    var s1 := SteerRows(s, x.message, to);
    SteerRowsAreUntouched(s, x.message, to, d);
    if to.Unknown? {
      var s2 := SetAttemptUnknown(s1, x.reference, Effects.Unknown).value;
      UnknownIsUntouched(s1, x.reference, s2, d);
      UntouchedThen(s, s1, s2, d);
      ThenSameIsUntouched(s, s2, t, d);
    } else {
      ThenSameIsUntouched(s, s1, t, d);
    }
  }

  lemma SteerRowsAreUntouched(s: State, message: Id, to: Disposition, d: Id)
    requires message in s.core.messages && s.core.messages[message].request.Some? && s.core.messages[message].dialog != d
    ensures var t := SteerRows(s, message, to); Untouched(s, t, d) && t.core.attempts == s.core.attempts
  {
  }

  lemma UnknownIsUntouched(s: State, reference: AttemptRef, t: State, d: Id)
    requires SetAttemptUnknown(s, reference, Effects.Unknown) == Some(t)
    requires reference.attempt in s.core.attempts && s.core.attempts[reference.attempt].dialog != d
    ensures Untouched(s, t, d)
    ensures forall a :: a in t.core.attempts ==> a in s.core.attempts && t.core.attempts[a].dialog == s.core.attempts[a].dialog
  {
  }

  lemma ResponseIsUntouched(s: State, action: Action, answer: Answer, t: State, d: Id)
    requires FinishResponse(s, action, answer) == Some(t)
    requires action.reference.attempt in s.core.attempts && s.core.attempts[action.reference.attempt].dialog != d
    ensures Untouched(s, t, d)
  {
    hide SetAttemptUnknown, Untouched;
    var s1 := AnswerRows(s, action, AnswerRow(answer));
    AnswerRowsAreUntouched(s, action, AnswerRow(answer), d);
    if AnswerRow(answer).Unknown? {
      UnknownIsUntouched(s1, action.reference, t, d);
      UntouchedThen(s, s1, t, d);
    } else {
      ThenSameIsUntouched(s, s1, t, d);
    }
  }

  lemma AnswerRowsAreUntouched(s: State, action: Action, status: AnswerStatus, d: Id)
    ensures var t := AnswerRows(s, action, status); Untouched(s, t, d) && t.core == s.core
  {
  }

  lemma RestartIsUntouched(s: State, d: Id)
    requires Base(s) && Parked(s, OneDialog(d))
    ensures Untouched(s, Restart(s), d)
  {
    hide Base, Parked, SetAttemptUnknown, Untouched;
    ParkedIsIdle(s, OneDialog(d));
    var s1 := s.(core := s.core.(actions := AbandonAll(s.core.actions)), run := s.run.(workers := map[], gate := None, peeked := None));
    StatusIsUntouched(s, s1, d);
    if s.node.slot.Some? && Restart(s) != s {
      var reference := Reference(s1, s.node.slot.value);
      var r := SetAttemptUnknown(s1, reference, Effects.Unknown);
      if r.Some? {
        UnknownIsUntouched(s1, reference, r.value, d);
        UntouchedThen(s, s1, r.value, d);
      }
    } else {
      SameIsUntouched(s, s, d);
    }
  }

  // events, artifacts and reports for an attempt of a deleted dialog are dropped
  lemma ObservingDeleted(s: State, step: Step, d: Id)
    requires Base(s) && Buried(s, d) && Observing(step) && Current(s, step.reference) && step.reference.dialog == d
    ensures Next(s, step) == s
  {
    hide Base, Parked, ParkedRequests, ProjectEvent, ArchiveEvent, Marked, EffectsUnresolved, StoredOutput, SetAttemptUnknown;
    ParkedIsIdle(s, OneDialog(d));
    assert InScope(s, step.reference.attempt, OneDialog(d));
  }

  lemma NextIsUntouched(s: State, step: Step, d: Id)
    requires Base(s) && Buried(s, d)
    ensures Untouched(s, Next(s, step), d)
  {
    hide Base, Parked, ParkedRequests, Untouched, Observed, SubmitCommand, DispatchCandidate, Claim, Settle, FinishAction, Restart;
    match step
    case Submit(id, command, drawn) => SubmitIsUntouched(s, id, command, drawn, d);
    case DispatchNext(attempt, generation) => CandidateIsUntouched(s, attempt, generation, d);
    case ClaimAction(lane, action) => ClaimIsUntouched(s, lane, action, d);
    case Commit(action, commit) => SettleIsUntouched(s, action, commit, d);
    case Finish(action, commit) => FinishIsUntouched(s, action, commit, d);
    case CrashAndRestart => RestartIsUntouched(s, d);
    case _ => OtherStepsAreUntouched(s, step, d);
  }

  lemma ClaimIsUntouched(s: State, lane: Lane, action: Id, d: Id)
    ensures Untouched(s, Claim(s, lane, action), d)
  {
    hide Untouched;
    StatusIsUntouched(s, Claim(s, lane, action), d);
  }

  lemma FinishIsUntouched(s: State, id: Id, commit: bool, d: Id)
    ensures Untouched(s, FinishAction(s, id, commit), d)
  {
    hide Untouched;
    StatusIsUntouched(s, FinishAction(s, id, commit), d);
  }

  lemma OtherStepsAreUntouched(s: State, step: Step, d: Id)
    requires Base(s) && Buried(s, d) && (Observing(step) || Still(step))
    ensures Untouched(s, Next(s, step), d)
  {
    hide Base, Parked, ParkedRequests, Untouched, Observed, Next;
    if Observing(step) {
      ObservingStep(s, step);
      if Next(s, step) == s {
        SameIsUntouched(s, s, d);
      } else if step.reference.dialog == d {
        ObservingDeleted(s, step, d);
      } else {
        ObservedIsUntouched(s, Next(s, step), step.reference.attempt, step.reference.request, d);
      }
    } else {
      StillTables(s, step);
      SameIsUntouched(s, Next(s, step), d);
    }
  }

  // ----- the theorem -----

  // Every row of the dialog, in every table that belongs to it, is the same before and after.
  ghost predicate Frozen(s: State, t: State, d: Id) {
    && (forall a :: OfDialog(s, a, d) || OfDialog(t, a, d) ==>
          a in s.core.attempts && a in t.core.attempts && t.core.attempts[a] == s.core.attempts[a])
    && (forall r :: RequestOf(s, r, d) || RequestOf(t, r, d) ==>
          r in s.core.requests && r in t.core.requests && t.core.requests[r] == s.core.requests[r])
    && (forall m :: MessageOf(s, m, d) || MessageOf(t, m, d) ==>
          m in s.core.messages && m in t.core.messages && t.core.messages[m] == s.core.messages[m])
    && (forall c :: ActionOf(s, c, d) || ActionOf(t, c, d) ==>
          c in s.core.actions && c in t.core.actions && t.core.actions[c] == s.core.actions[c])
    && FrozenRows(s, t, d)
  }

  ghost predicate FrozenRows(s: State, t: State, d: Id) {
    && (forall x :: ToolOf(s, x, d) || ToolOf(t, x, d) ==>
          x in s.rows.tools && x in t.rows.tools && t.rows.tools[x] == s.rows.tools[x])
    && (forall x :: ApprovalOf(s, x, d) || ApprovalOf(t, x, d) ==>
          x in s.rows.approvals && x in t.rows.approvals && t.rows.approvals[x] == s.rows.approvals[x])
    && (forall x :: InputOf(s, x, d) || InputOf(t, x, d) ==>
          x in s.rows.inputs && x in t.rows.inputs && t.rows.inputs[x] == s.rows.inputs[x])
    && (forall x :: ArtifactOf(s, x, d) || ArtifactOf(t, x, d) ==>
          x in s.rows.artifacts && x in t.rows.artifacts && t.rows.artifacts[x] == s.rows.artifacts[x])
  }

  predicate RequestOf(s: State, r: Id, d: Id) { r in s.core.requests && s.core.requests[r].dialog == d }

  predicate MessageOf(s: State, m: Id, d: Id) { m in s.core.messages && s.core.messages[m].dialog == d }

  predicate ActionOf(s: State, c: Id, d: Id) { c in s.core.actions && OfDialog(s, s.core.actions[c].reference.attempt, d) }

  predicate ToolOf(s: State, x: Id, d: Id) { x in s.rows.tools && OfDialog(s, s.rows.tools[x].attempt, d) }

  predicate ApprovalOf(s: State, x: Id, d: Id) { x in s.rows.approvals && OfDialog(s, s.rows.approvals[x].attempt, d) }

  predicate InputOf(s: State, x: Id, d: Id) { x in s.rows.inputs && OfDialog(s, s.rows.inputs[x].attempt, d) }

  predicate ArtifactOf(s: State, x: Id, d: Id) { x in s.rows.artifacts && OfDialog(s, s.rows.artifacts[x].attempt, d) }

  lemma ApartIsFrozen(s: State, t: State, d: Id)
    requires Apart(s, t, OneDialog(d)) && Untouched(s, t, d) && PersistsCore(s, t) && PersistsRows(s, t)
    requires ParkedRequests(s, OneDialog(d)) == {}
    ensures Frozen(s, t, d)
  {
    assert forall a :: InScope(t, a, OneDialog(d)) <==> OfDialog(t, a, d);
    forall r | r in t.core.requests && t.core.requests[r].dialog == d ensures r in s.core.requests && t.core.requests[r] == s.core.requests[r] {
      assert r !in ParkedRequests(s, OneDialog(d));
    }
    ApartRowsAreFrozen(s, t, d);
  }

  lemma ApartRowsAreFrozen(s: State, t: State, d: Id)
    requires ApartAttempts(s, t, OneDialog(d)) && ApartRows(s, t, OneDialog(d)) && Untouched(s, t, d) && PersistsRows(s, t)
    ensures FrozenRows(s, t, d)
  {
    assert forall a :: InScope(t, a, OneDialog(d)) <==> OfDialog(t, a, d);
  }

  lemma FrozenThenFrozen(s: State, t: State, u: State, d: Id)
    requires Frozen(s, t, d) && Frozen(t, u, d)
    ensures Frozen(s, u, d)
  {
    forall a ensures OfDialog(s, a, d) || OfDialog(u, a, d) ==> OfDialog(t, a, d) {
    }
  }

  lemma NextFreezes(s: State, step: Step, d: Id)
    requires Base(s) && Buried(s, d)
    ensures Frozen(s, Next(s, step), d)
  {
    hide Base, Parked, Next, Apart, Untouched, Frozen, Sealed, PersistsCore, PersistsRows, PersistsLog;
    BuriedIsSealed(s, d);
    NextIsApart(s, step, OneDialog(d));
    NextIsUntouched(s, step, d);
    NextPersists(s, step);
    ApartIsFrozen(s, Next(s, step), d);
  }

  lemma {:induction false} RunKeepsTombstones(registryVersion: int, steps: seq<Step>)
    ensures TombstonesOk(Run(Init(registryVersion), steps))
  {
    hide Next, Buried;
    if steps != [] {
      var shorter := steps[..|steps| - 1];
      RunKeepsTombstones(registryVersion, shorter);
      RunKeepsBase(registryVersion, shorter);
      NextKeepsTombstones(Run(Init(registryVersion), shorter), steps[|steps| - 1]);
    }
  }

  // A dialog is deleted only when nothing in it is unresolved, and from then on, in every run, no row
  // of its attempts, requests, messages, controls, tool calls, approvals, inputs or artifacts changes.
  lemma {:induction false} DeletedForever(registryVersion: int, steps: seq<Step>, later: seq<Step>, d: Id)
    requires d in Run(Init(registryVersion), steps).admin.tombstones
    ensures var s := Run(Init(registryVersion), steps); var u := Run(Init(registryVersion), steps + later);
      && DialogSettled(s, d) && d in u.admin.tombstones && Frozen(s, u, d)
  {
    hide Init, Next, Base, Frozen, DialogSettled, Parked, ParkedRequests;
    var s := Run(Init(registryVersion), steps);
    RunKeepsTombstones(registryVersion, steps);
    SettledIsBuried(s, d);
    if later == [] {
      assert steps + later == steps;
      FrozenNow(s, d);
    } else {
      var shorter := later[..|later| - 1];
      var all := steps + later;
      assert all[..|all| - 1] == steps + shorter && all[|all| - 1] == later[|later| - 1];
      var t := Run(Init(registryVersion), steps + shorter);
      DeletedForever(registryVersion, steps, shorter, d);
      RunKeepsTombstones(registryVersion, steps + shorter);
      RunKeepsBase(registryVersion, steps + shorter);
      NextKeepsTombstones(t, later[|later| - 1]);
      NextFreezes(t, later[|later| - 1], d);
      FrozenThenFrozen(s, t, Run(Init(registryVersion), all), d);
    }
  }

  lemma FrozenNow(s: State, d: Id)
    ensures Frozen(s, s, d)
  {
  }
}
