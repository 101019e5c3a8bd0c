// The administrative tables over whole runs: holds, scope revisions and command outcomes.
module HarnessHoldHistory {
  import opened Common
  import opened HarnessState
  import opened HarnessObserve
  import opened HarnessFrame
  import opened HarnessAdmission
  import opened HarnessHold
  import opened HarnessActions
  import opened HarnessStep
  import opened HarnessInvariant

  // ----- which steps write the administrative tables -----

  predicate Administrative(step: Step) {
    step.Submit? || step.Install? || step.Release? || step.Delete?
  }

  ghost predicate SameHolds(s: State, t: State) {
    && t.admin.holds == s.admin.holds && t.admin.holdOutcomes == s.admin.holdOutcomes && t.admin.revisions == s.admin.revisions
    && t.admin.holdClock == s.admin.holdClock && t.admin.deletions == s.admin.deletions
    && t.node.epoch == s.node.epoch && t.node.registryVersion == s.node.registryVersion
  }

  lemma OtherStepsKeepAdmin(s: State, step: Step)
    requires !Administrative(step)
    ensures Next(s, step).admin == s.admin && SameHolds(s, Next(s, step))
  {
    hide Observed, Dispatch, NextInQueue, HasEnded, Claimable, Settle, ObserveAdapterEvent, LoseStream, StoreArtifact, Reconcile;
    if Observing(step) {
      ObservingKeepsAdmin(s, step);
    } else if step.Commit? {
      SettleKeepsAdmin(s, step.action, step.commit);
    } else if step.DispatchNext? {
      DispatchKeepsAdmin(s, step.attempt, step.generation);
    }
  }

  lemma ObservingKeepsAdmin(s: State, step: Step)
    requires Observing(step)
    ensures Next(s, step).admin == s.admin && SameHolds(s, Next(s, step))
  {
    hide Next;
    ObservingStep(s, step);
  }

  lemma DispatchKeepsAdmin(s: State, attempt: Id, generation: int)
    ensures var t := DispatchCandidate(s, attempt, generation); t.admin == s.admin && SameHolds(s, t)
  {
    hide NextInQueue, NextGeneration;
  }

  lemma SettleKeepsAdmin(s: State, id: Id, commit: bool)
    ensures var t := Settle(s, id, commit); t.admin == s.admin && SameHolds(s, t)
  {
    hide MarkStarted, FinishSteer, FinishResponse, MarkAttemptUnknown, ObserveRejected;
    if id in s.run.workers && id in s.core.actions && s.run.workers[id].Answered? {
      var action := s.core.actions[id];
      AnswersKeepAdmin(s, action);
      SteerKeepsAdmin(s, action, s.run.workers[id].answer);
      ResponseKeepsAdmin(s, action, s.run.workers[id].answer);
    }
  }

  lemma SteerKeepsAdmin(s: State, action: Action, answer: Answer)
    ensures var r := FinishSteer(s, action.reference, action.message, answer); r.Some? ==> r.value.admin == s.admin && SameHolds(s, r.value) && r.value.run == s.run
  {
  }

  lemma ResponseKeepsAdmin(s: State, action: Action, answer: Answer)
    ensures var r := FinishResponse(s, action, answer); r.Some? ==> r.value.admin == s.admin && SameHolds(s, r.value) && r.value.run == s.run
  {
  }

  lemma AnswersKeepAdmin(s: State, action: Action)
    ensures var r := MarkStarted(s, action.reference); r.Some? ==> r.value.admin == s.admin && SameHolds(s, r.value) && r.value.run == s.run
    ensures var t := MarkAttemptUnknown(s, action.reference); t.admin == s.admin && SameHolds(s, t) && t.run == s.run
    ensures var t := ObserveRejected(s, action.reference.attempt, action.reference.generation); t.admin == s.admin && SameHolds(s, t) && t.run == s.run
  {
  }

  // a commit moves its own worker and no other
  lemma SettleMovesOneWorker(s: State, id: Id, commit: bool)
    requires id in s.run.workers && id in s.core.actions && s.run.workers[id].Answered?
    ensures Settle(s, id, commit).run.workers
         == s.run.workers[id := SettleAction(s, id, s.run.workers[id].answer, commit).1]
  {
    hide MarkStarted, FinishSteer, FinishResponse, MarkAttemptUnknown, ObserveRejected;
    var action := s.core.actions[id];
    AnswersKeepAdmin(s, action);
    SteerKeepsAdmin(s, action, s.run.workers[id].answer);
    ResponseKeepsAdmin(s, action, s.run.workers[id].answer);
  }

  lemma CommandKeepsHolds(s: State, id: Id, command: Command, drawn: Drawn)
    requires ApplyCommand(s, id, command, drawn).Some?
    ensures var t := ApplyCommand(s, id, command, drawn).value;
      && SameHolds(s, t) && t.admin.tombstones == s.admin.tombstones
      && t.admin.commands == s.admin.commands && t.admin.rejections == s.admin.rejections
  {
    hide RetryPending;
  }

  lemma SubmitKeepsHolds(s: State, id: Id, command: Command, drawn: Drawn)
    ensures var t := SubmitCommand(s, id, command, drawn).0;
      && SameHolds(s, t) && t.admin.tombstones == s.admin.tombstones
  {
    hide Authorized, CoveredByHold, ApplyCommand, StoredReply, OutcomeDialog, CreatedDialog, CreatedRequest;
    if ApplyCommand(s, id, command, drawn).Some? {
      CommandKeepsHolds(s, id, command, drawn);
    }
  }

  // ----- the rules of holds -----

  ghost predicate HoldsOk(s: State) {
    Disjoint(s) && Versioned(s) && Revised(s)
  }

  // active holds never overlap
  ghost predicate Disjoint(s: State) {
    forall p, q :: Holds(s, p) && Holds(s, q) && Overlap(s.admin.holds[p].scope, s.admin.holds[q].scope) ==> p == q
  }

  // versions are handed out once each, and every hold was bound to this node's epoch and registry
  ghost predicate Versioned(s: State) {
    && (forall p :: p in s.admin.holds ==>
          && s.admin.holds[p].version < s.admin.holdClock
          && s.admin.holds[p].epoch == s.node.epoch && s.admin.holds[p].binding == s.node.registryVersion)
    && (forall p, q :: p in s.admin.holds && q in s.admin.holds && s.admin.holds[p].version == s.admin.holds[q].version ==> p == q)
    && (forall p :: p in s.admin.holdOutcomes ==> p in s.admin.holds)
  }

  // a scope's revision is odd exactly while it is held, and then it is the one its hold recorded
  ghost predicate Revised(s: State) {
    && (forall p :: Holds(s, p) ==> Revision(s, s.admin.holds[p].scope) == s.admin.holds[p].scopeRevision)
    && (forall scope :: Revision(s, scope) % 2 == 1 <==> ScopeHeld(s, scope))
  }

  ghost predicate ScopeHeld(s: State, scope: Scope) {
    exists p :: Holds(s, p) && s.admin.holds[p].scope == scope
  }

  lemma SameHoldsKeep(s: State, t: State)
    requires HoldsOk(s) && SameHolds(s, t)
    ensures HoldsOk(t)
  {
    assert forall p :: Holds(t, p) == Holds(s, p);
    assert forall scope :: Revision(t, scope) == Revision(s, scope) && ScopeHeld(t, scope) == ScopeHeld(s, scope);
  }

  lemma InstallKeepsRules(s: State, operation: Id, request: InstallRequest)
    requires HoldsOk(s)
    ensures HoldsOk(InstallHold(s, operation, request).0)
  {
    hide PreStart;
    var t := InstallHold(s, operation, request).0;
    if t != s {
      var scope := request.scope;
      assert forall p :: Holds(t, p) <==> p == operation || Holds(s, p);
      assert !ScopeHeld(s, scope) by {
        assert forall p :: Holds(s, p) ==> !Overlap(s.admin.holds[p].scope, scope);
      }
      forall other ensures Revision(t, other) % 2 == 1 <==> ScopeHeld(t, other) {
        if other == scope {
          assert Holds(t, operation);
        } else {
          assert Revision(t, other) == Revision(s, other);
          assert ScopeHeld(t, other) <==> ScopeHeld(s, other) by {
            if ScopeHeld(s, other) {
              var p :| Holds(s, p) && s.admin.holds[p].scope == other;
              assert Holds(t, p);
            }
          }
        }
      }
    }
  }

  lemma EndKeepsRules(s: State, operation: Id, digest: Id, t: State)
    requires HoldsOk(s) && Holds(s, operation)
    requires t.admin.holds == s.admin.holds && t.admin.holdClock == s.admin.holdClock
    requires t.node.epoch == s.node.epoch && t.node.registryVersion == s.node.registryVersion
    requires t.admin.holdOutcomes == s.admin.holdOutcomes[operation := digest]
    requires var scope := s.admin.holds[operation].scope; t.admin.revisions == s.admin.revisions[scope := Revision(s, scope) + 1]
    ensures HoldsOk(t)
  {
    var scope := s.admin.holds[operation].scope;
    assert forall p :: Holds(t, p) <==> p != operation && Holds(s, p);
    forall other ensures Revision(t, other) % 2 == 1 <==> ScopeHeld(t, other) {
      if other == scope {
        assert ScopeHeld(s, scope);
        assert !ScopeHeld(t, scope);
      } else {
        assert Revision(t, other) == Revision(s, other);
        assert ScopeHeld(t, other) <==> ScopeHeld(s, other) by {
          if ScopeHeld(s, other) {
            var p :| Holds(s, p) && s.admin.holds[p].scope == other;
            assert Holds(t, p);
          }
        }
      }
    }
    forall p | Holds(t, p) ensures Revision(t, t.admin.holds[p].scope) == t.admin.holds[p].scopeRevision {
      assert Holds(s, p) && Holds(s, operation);
    }
  }

  lemma NextKeepsRules(s: State, step: Step)
    requires HoldsOk(s)
    ensures HoldsOk(Next(s, step))
  {
    hide HoldsOk, SubmitCommand, InstallHold, DeleteLogicalDialog;
    match step
    case Submit(id, command, drawn) =>
      SubmitKeepsHolds(s, id, command, drawn);
      SameHoldsKeep(s, Next(s, step));
    case Install(operation, request) => InstallKeepsRules(s, operation, request);
    case Release(operation, request) =>
      if Next(s, step) != s {
        EndKeepsRules(s, operation, request.digest, Next(s, step));
      }
    case Delete(operation, request) => DeleteKeepsRules(s, operation, request);
    case _ =>
      OtherStepsKeepAdmin(s, step);
      SameHoldsKeep(s, Next(s, step));
  }

  lemma DeleteKeepsRules(s: State, operation: Id, request: DeleteRequest)
    requires HoldsOk(s)
    ensures HoldsOk(DeleteLogicalDialog(s, operation, request).0)
  {
    hide HoldsOk, DialogSettled;
    if DeleteLogicalDialog(s, operation, request).0 != s {
      EndKeepsRules(s, operation, request.digest, DeleteLogicalDialog(s, operation, request).0);
    }
  }

  lemma {:induction false} RunKeepsRules(registryVersion: int, steps: seq<Step>)
    ensures HoldsOk(Run(Init(registryVersion), steps))
  {
    hide HoldsOk, Next;
    if steps == [] {
      InitKeepsRules(registryVersion);
    } else {
      RunKeepsRules(registryVersion, steps[..|steps| - 1]);
      NextKeepsRules(Run(Init(registryVersion), steps[..|steps| - 1]), steps[|steps| - 1]);
    }
  }

  lemma InitKeepsRules(registryVersion: int)
    ensures HoldsOk(Init(registryVersion))
  {
  }

  // hold rows stay, and a new one takes the version on the clock, which then moves on
  ghost predicate VersionsRise(s: State, t: State) {
    && s.admin.holdClock <= t.admin.holdClock
    && (forall p :: p in s.admin.holds ==> p in t.admin.holds && t.admin.holds[p] == s.admin.holds[p])
    && (forall p :: p in t.admin.holds && p !in s.admin.holds ==> s.admin.holdClock <= t.admin.holds[p].version)
  }

  lemma NextVersionsRise(s: State, step: Step)
    ensures VersionsRise(s, Next(s, step))
  {
    hide SubmitCommand, ApplyDialogDelete, PreStart, ScopeTaken;
    if step.Submit? {
      SubmitKeepsHolds(s, step.id, step.command, step.drawn);
    } else if step.Delete? {
      DeletionKeepsClock(s, step.delete.dialog, step.delete.dialogVersion);
    } else if !Administrative(step) {
      OtherStepsKeepAdmin(s, step);
    }
  }

  lemma DeletionKeepsClock(s: State, dialog: Id, dialogVersion: int)
    ensures var r := ApplyDialogDelete(s, dialog, dialogVersion);
      r.Some? ==> r.value.admin.holdClock == s.admin.holdClock && r.value.admin.holds == s.admin.holds
  {
    hide DialogSettled;
  }

  lemma {:induction false} RunVersionsRise(s: State, later: seq<Step>)
    ensures VersionsRise(s, Run(s, later))
  {
    hide Next;
    if later != [] {
      RunVersionsRise(s, later[..|later| - 1]);
      NextVersionsRise(Run(s, later[..|later| - 1]), later[|later| - 1]);
    }
  }

  // In every run a hold that is installed later has a larger version than every hold before it.
  lemma LaterHoldsAreNewer(registryVersion: int, steps: seq<Step>, later: seq<Step>, earlier: Id, operation: Id)
    requires earlier in Run(Init(registryVersion), steps).admin.holds
    requires operation !in Run(Init(registryVersion), steps).admin.holds
    requires operation in Run(Run(Init(registryVersion), steps), later).admin.holds
    ensures var u := Run(Run(Init(registryVersion), steps), later);
      earlier in u.admin.holds && u.admin.holds[earlier].version < u.admin.holds[operation].version
  {
    hide Init, Next, Run;
    RunKeepsRules(registryVersion, steps);
    RunVersionsRise(Run(Init(registryVersion), steps), later);
  }

  // A hold ends at most once, by a release or delete that names it, and stays ended; holds are
  // never rewritten.
  lemma HoldsEndOnce(s: State, step: Step, operation: Id)
    requires operation in s.admin.holds
    ensures var t := Next(s, step);
      && operation in t.admin.holds && t.admin.holds[operation] == s.admin.holds[operation]
      && (operation in s.admin.holdOutcomes ==>
            operation in t.admin.holdOutcomes && t.admin.holdOutcomes[operation] == s.admin.holdOutcomes[operation])
      && (Holds(s, operation) && !Holds(t, operation) ==>
            (step.Release? || step.Delete?) && step.operation == operation
            && (forall other :: other != operation ==> Holds(t, other) == Holds(s, other)))
  {
    hide SubmitCommand, InstallHold, ReleaseHold, DeleteLogicalDialog;
    if step.Submit? {
      SubmitKeepsHolds(s, step.id, step.command, step.drawn);
    } else if step.Install? {
      InstallEndsNone(s, step.operation, step.install);
    } else if step.Release? {
      ReleaseEndsOne(s, step.operation, step.release);
    } else if step.Delete? {
      DeleteEndsOne(s, step.operation, step.delete);
    } else {
      OtherStepsKeepAdmin(s, step);
    }
  }

  lemma InstallEndsNone(s: State, operation: Id, request: InstallRequest)
    ensures var t := InstallHold(s, operation, request).0;
      && t.admin.holdOutcomes == s.admin.holdOutcomes
      && forall p :: p in s.admin.holds ==> p in t.admin.holds && t.admin.holds[p] == s.admin.holds[p]
  {
    hide PreStart, ScopeTaken;
  }

  // all that a release or deletion does to the holds
  ghost predicate EndsOne(s: State, t: State, operation: Id) {
    && t.admin.holds == s.admin.holds
    && (t.admin.holdOutcomes == s.admin.holdOutcomes
        || (operation !in s.admin.holdOutcomes && operation in t.admin.holdOutcomes
            && t.admin.holdOutcomes == s.admin.holdOutcomes[operation := t.admin.holdOutcomes[operation]]))
  }

  lemma ReleaseEndsOne(s: State, operation: Id, request: ReleaseRequest)
    ensures EndsOne(s, ReleaseHold(s, operation, request).0, operation)
  {
  }

  lemma DeleteEndsOne(s: State, operation: Id, request: DeleteRequest)
    ensures EndsOne(s, DeleteLogicalDialog(s, operation, request).0, operation)
  {
    hide ApplyDialogDelete;
    DialogDeleteKeepsOutcomes(s, request.dialog, request.dialogVersion);
  }

  // ----- command outcomes -----

  predicate OutcomesOk(s: State) {
    s.admin.commands.Keys !! s.admin.rejections.Keys
  }

  // an outcome, once there, is never rewritten, and tombstones and deletion records stay
  ghost predicate OutcomesGrow(s: State, t: State) {
    && (forall id :: id in s.admin.commands ==> id in t.admin.commands && t.admin.commands[id] == s.admin.commands[id])
    && (forall id :: id in s.admin.rejections ==> id in t.admin.rejections && t.admin.rejections[id] == s.admin.rejections[id])
    && s.admin.tombstones <= t.admin.tombstones
    && (forall op :: op in s.admin.deletions ==> op in t.admin.deletions && t.admin.deletions[op] == s.admin.deletions[op])
  }

  lemma SubmitKeepsOutcomes(s: State, id: Id, command: Command, drawn: Drawn)
    requires OutcomesOk(s)
    ensures var t := SubmitCommand(s, id, command, drawn).0; OutcomesOk(t) && OutcomesGrow(s, t)
  {
    hide ApplyCommand, Authorized, CoveredByHold, StoredReply, OutcomeDialog, CreatedDialog, CreatedRequest;
    if ApplyCommand(s, id, command, drawn).Some? {
      CommandKeepsHolds(s, id, command, drawn);
    }
  }

  lemma DeleteKeepsOutcomes(s: State, operation: Id, request: DeleteRequest)
    requires OutcomesOk(s)
    ensures var t := DeleteLogicalDialog(s, operation, request).0; OutcomesOk(t) && OutcomesGrow(s, t)
  {
    hide DialogSettled, ApplyDialogDelete;
    DialogDeleteKeepsOutcomes(s, request.dialog, request.dialogVersion);
  }

  lemma DialogDeleteKeepsOutcomes(s: State, dialog: Id, dialogVersion: int)
    ensures var r := ApplyDialogDelete(s, dialog, dialogVersion);
      r.Some? ==> r.value.admin.commands == s.admin.commands && r.value.admin.rejections == s.admin.rejections
                  && s.admin.tombstones <= r.value.admin.tombstones
                  && r.value.admin.holds == s.admin.holds && r.value.admin.holdOutcomes == s.admin.holdOutcomes
                  && r.value.admin.deletions == s.admin.deletions
  {
    hide DialogSettled;
  }

  lemma NextKeepsOutcomes(s: State, step: Step)
    requires OutcomesOk(s)
    ensures OutcomesOk(Next(s, step)) && OutcomesGrow(s, Next(s, step))
  {
    hide SubmitCommand, DeleteLogicalDialog, PreStart, ScopeTaken;
    if step.Submit? {
      SubmitKeepsOutcomes(s, step.id, step.command, step.drawn);
    } else if step.Delete? {
      DeleteKeepsOutcomes(s, step.operation, step.delete);
    } else if !Administrative(step) {
      OtherStepsKeepAdmin(s, step);
    }
  }

  lemma {:induction false} RunKeepsOutcomes(s: State, steps: seq<Step>)
    requires OutcomesOk(s)
    ensures OutcomesOk(Run(s, steps)) && OutcomesGrow(s, Run(s, steps))
  {
    hide Next;
    if steps != [] {
      RunKeepsOutcomes(s, steps[..|steps| - 1]);
      NextKeepsOutcomes(Run(s, steps[..|steps| - 1]), steps[|steps| - 1]);
    }
  }

  // Whatever happens after a command got its outcome, the same bytes under its identity change
  // nothing and get that outcome back, or not-found once its dialog is deleted; other bytes are
  // refused.
  lemma OutcomeForever(s: State, id: Id, command: Command, drawn: Drawn, steps: seq<Step>, again: Command, redrawn: Drawn)
    requires OutcomesOk(s) && !HasOutcome(s, id) && !again.DeleteDialog?
    requires var reply := SubmitCommand(s, id, command, drawn).1; reply.Admitted? || reply.HeldBack?
    ensures var (t, first) := SubmitCommand(s, id, command, drawn);
      var u := Run(t, steps);
      var (v, later) := SubmitCommand(u, id, again, redrawn);
      var dialog := OutcomeDialog(u, command, if first.Admitted? then CreatedDialog(command, drawn) else None);
      && v == u
      && later == (if again != command then CommandReply.IdConflict
                   else if dialog.Some? && IsDeleted(u, dialog.value) then CommandReply.NotFound
                   else if first.Admitted? then StoredReceipt else StoredRejection)
  {
    hide ApplyCommand, Authorized, CoveredByHold, Next, Run;
    var step := Submit(id, command, drawn);
    NextKeepsOutcomes(s, step);
    var t := SubmitCommand(s, id, command, drawn).0;
    assert Next(s, step) == t by {
      NextSubmit(s, id, command, drawn);
    }
    RunKeepsOutcomes(t, steps);
  }

  lemma NextSubmit(s: State, id: Id, command: Command, drawn: Drawn)
    ensures Next(s, Submit(id, command, drawn)) == SubmitCommand(s, id, command, drawn).0
  {
    hide SubmitCommand;
  }

  // The same for a deletion: whatever happens after it, its receipt and its record stay, a command under its
  // id changes nothing and is refused, and the deletion repeated changes nothing and finds its record.
  lemma DeletionForever(s: State, operation: Id, request: DeleteRequest, steps: seq<Step>, again: Command, drawn: Drawn, other: DeleteRequest)
    requires OutcomesOk(s) && DeleteLogicalDialog(s, operation, request).1.Deleted?
    ensures var u := Run(DeleteLogicalDialog(s, operation, request).0, steps);
      && request.command in u.admin.commands && request.dialog in u.admin.tombstones
      && u.admin.commands[request.command] == Receipt(Command.DeleteDialog(request.dialog, request.dialogVersion), Some(request.dialog), None)
      && SubmitCommand(u, request.command, again, drawn)
         == (u, if again.DeleteDialog? then CommandReply.Forbidden else CommandReply.IdConflict)
      && DeleteLogicalDialog(u, operation, other)
         == (u, if u.run.gate.Some? then GateBusy
                else if other.epoch != u.node.epoch || other.registryVersion != u.node.registryVersion then Stale
                else if other.digest == request.digest then Stored else HoldReply.IdConflict)
  {
    hide ApplyCommand, Authorized, CoveredByHold, Next, Run, OutcomesGrow, DialogSettled, ApplyDialogDelete;
    var t := DeleteLogicalDialog(s, operation, request).0;
    DeletionWrites(s, operation, request);
    DeleteKeepsOutcomes(s, operation, request);
    RunKeepsOutcomes(t, steps);
    OutcomesAreKept(t, Run(t, steps), operation, request.command, request.dialog);
  }

  lemma DeletionWrites(s: State, operation: Id, request: DeleteRequest)
    requires DeleteLogicalDialog(s, operation, request).1.Deleted?
    ensures var t := DeleteLogicalDialog(s, operation, request).0;
      && request.command in t.admin.commands && request.dialog in t.admin.tombstones
      && t.admin.commands[request.command] == Receipt(Command.DeleteDialog(request.dialog, request.dialogVersion), Some(request.dialog), None)
      && operation in t.admin.deletions && t.admin.deletions[operation] == request.digest
  {
    hide DialogSettled;
  }

  lemma OutcomesAreKept(t: State, u: State, operation: Id, command: Id, dialog: Id)
    requires OutcomesGrow(t, u) && command in t.admin.commands && dialog in t.admin.tombstones && operation in t.admin.deletions
    ensures command in u.admin.commands && u.admin.commands[command] == t.admin.commands[command] && dialog in u.admin.tombstones
    ensures operation in u.admin.deletions && u.admin.deletions[operation] == t.admin.deletions[operation]
  {
  }
}
