// What installing, releasing and deleting under a hold ask of the store, and what they leave.
module HarnessHolding {
  import opened Common
  import opened HarnessState
  import opened HarnessAdmission
  import opened HarnessHold

  predicate Within(scope: Scope, dialog: Id) {
    scope == WholeNode || scope == OneDialog(dialog)
  }

  predicate Meet(left: Scope, right: Scope) {
    left == WholeNode || right == WholeNode || left == right
  }

  // a start in the scope that is waiting or under way, of an attempt that has not started
  predicate StartAhead(s: State, scope: Scope) {
    exists c :: c in s.core.actions && s.core.actions[c].kind.DispatchStart?
      && s.core.actions[c].status in {ActionStatus.Pending, ActionStatus.Inflight}
      && s.core.actions[c].reference.attempt in s.core.attempts
      && var a := s.core.attempts[s.core.actions[c].reference.attempt]; a.state.Dispatching? && !a.started && Within(scope, a.dialog)
  }

  predicate MetByActive(s: State, scope: Scope) {
    exists op :: op in s.admin.holds && op !in s.admin.holdOutcomes && Meet(s.admin.holds[op].scope, scope)
  }

  predicate AtRevision(s: State, scope: Scope, revision: int) {
    if scope in s.admin.revisions then s.admin.revisions[scope] == revision else revision == 0
  }

  // the request was made for this node and its present registry
  predicate Meant(s: State, epoch: int, binding: int) {
    epoch == s.node.epoch && binding == s.node.registryVersion
  }

  predicate MayHold(s: State, operation: Id, request: InstallRequest) {
    && s.run.gate.None? && operation !in s.admin.holds && Meant(s, request.epoch, request.binding)
    && (request.scope.OneDialog? ==> request.scope.dialog in s.admin.dialogs && request.scope.dialog !in s.admin.tombstones)
    && !StartAhead(s, request.scope) && !MetByActive(s, request.scope) && AtRevision(s, request.scope, request.scopeRevision)
  }

  // A hold is installed when no start of its scope is ahead or being called and no active hold meets it. It gets the
  // next version of the node and the next revision of its scope. A repeated request finds what it installed.
  lemma InstallMeans(s: State, operation: Id, request: InstallRequest)
    ensures var (t, reply) := InstallHold(s, operation, request);
      && (reply.Installed? <==> MayHold(s, operation, request))
      && (reply.GateBusy? <==> s.run.gate.Some?)
      && (reply.Stored? <==> s.run.gate.None? && operation in s.admin.holds && s.admin.holds[operation].digest == request.digest)
      && (reply.IdConflict? <==> s.run.gate.None? && operation in s.admin.holds && s.admin.holds[operation].digest != request.digest)
      && (!reply.Installed? ==> t == s)
      && (reply.Installed? ==>
            var revision := request.scopeRevision + 1;
            t == s.(admin := s.admin.(
              holds := s.admin.holds[operation := Hold(request.scope, s.admin.holdClock, revision, request.epoch, request.binding, request.digest)],
              revisions := s.admin.revisions[request.scope := revision], holdClock := s.admin.holdClock + 1)))
  {
    assert PreStart(s, request.scope) <==> StartAhead(s, request.scope);
    assert ScopeTaken(s, request.scope) <==> MetByActive(s, request.scope);
  }

  // the hold is the one the caller means, and its scope has not moved since
  predicate MeansHold(s: State, operation: Id, scope: Scope, version: int, scopeRevision: int, epoch: int, binding: int) {
    && operation in s.admin.holds && operation !in s.admin.holdOutcomes && Meant(s, epoch, binding)
    && var h := s.admin.holds[operation];
      && h.scope == scope && h.version == version && h.scopeRevision == scopeRevision && h.epoch == epoch && h.binding == binding
      && AtRevision(s, scope, scopeRevision)
  }

  // A hold ends once, by the request that describes it exactly; the revision of its scope moves on.
  lemma ReleaseMeans(s: State, operation: Id, request: ReleaseRequest)
    ensures var (t, reply) := ReleaseHold(s, operation, request);
      && (reply.Released? <==>
            s.run.gate.None?
            && MeansHold(s, operation, request.scope, request.holdVersion, request.scopeRevision, request.epoch, request.binding))
      && (reply.GateBusy? <==> s.run.gate.Some?)
      && (reply.Stored? <==> s.run.gate.None? && operation in s.admin.holdOutcomes && s.admin.holdOutcomes[operation] == request.digest)
      && (!reply.Released? ==> t == s)
      && (reply.Released? ==>
            t == s.(admin := s.admin.(holdOutcomes := s.admin.holdOutcomes[operation := request.digest],
                                      revisions := s.admin.revisions[request.scope := request.scopeRevision + 1])))
  {
  }

  predicate AttemptWithin(s: State, a: Id, scope: Scope) {
    a in s.core.attempts && Within(scope, s.core.attempts[a].dialog)
  }

  // Everything the scope began has a known end: attempts and their effects, the actions sent to them, their tool
  // calls, questions and the effects those reported. Requests may wait.
  predicate AtRest(s: State, scope: Scope) {
    && (forall r :: r in s.core.requests && Within(scope, s.core.requests[r].dialog) ==>
          s.core.requests[r].status in {RequestStatus.Queued, RequestStatus.Completed, RequestStatus.Failed, RequestStatus.Interrupted, RequestStatus.Cancelled})
    && (forall a :: a in s.core.attempts && AttemptWithin(s, a, scope) ==>
          s.core.attempts[a].state in {AttemptState.Completed, AttemptState.Failed, AttemptState.Interrupted}
          && s.core.attempts[a].effects in {Effects.Nothing, Effects.Known})
    && (forall c :: c in s.core.actions && AttemptWithin(s, s.core.actions[c].reference.attempt, scope) ==>
          s.core.actions[c].status in {ActionStatus.Acknowledged, ActionStatus.Rejected})
    && (forall t :: t in s.rows.tools && AttemptWithin(s, s.rows.tools[t].attempt, scope) ==>
          s.rows.tools[t].status in {ToolStatus.Succeeded, ToolStatus.Failed})
    && (forall p :: p in s.rows.approvals && AttemptWithin(s, s.rows.approvals[p].attempt, scope) ==> s.rows.approvals[p].status == AnswerStatus.Resolved)
    && (forall i :: i in s.rows.inputs && AttemptWithin(s, s.rows.inputs[i].attempt, scope) ==> s.rows.inputs[i].status == AnswerStatus.Resolved)
    && (forall k :: k in s.log.projected && AttemptWithin(s, k.0, scope) && k.1.ToolCompleted? && s.log.projected[k].OfEvent? ==>
          var e := s.log.projected[k].event; e.ToolCompleted? ==> e.effects in {Effects.Nothing, Effects.Known})
  }

  predicate NoneWaits(s: State, dialog: Id) {
    forall r :: r in s.core.requests && s.core.requests[r].dialog == dialog ==> s.core.requests[r].status != RequestStatus.Queued
  }

  // The proof of quiescence is given for an active hold made for this node and registry, at the present revision of
  // its scope, when the scope is at rest.
  lemma QuiescenceMeans(s: State, operation: Id)
    ensures QuiescenceProved(s, operation) <==>
      && operation in s.admin.holds && operation !in s.admin.holdOutcomes
      && var h := s.admin.holds[operation];
        Meant(s, h.epoch, h.binding) && AtRevision(s, h.scope, h.scopeRevision) && AtRest(s, h.scope)
  {
    if operation in s.admin.holds {
      RestMeans(s, s.admin.holds[operation].scope);
    }
  }

  lemma RestMeans(s: State, scope: Scope)
    ensures Parked(s, scope) <==> AtRest(s, scope)
  {
    assert forall a :: InScope(s, a, scope) <==> AttemptWithin(s, a, scope);
  }

  lemma SettledMeans(s: State, dialog: Id)
    ensures DialogSettled(s, dialog) <==> AtRest(s, OneDialog(dialog)) && NoneWaits(s, dialog)
  {
    assert forall a :: OfDialog(s, a, dialog) <==> AttemptWithin(s, a, OneDialog(dialog));
    assert forall a :: a in s.core.attempts && s.core.attempts[a].dialog == dialog ==> AttemptWithin(s, a, OneDialog(dialog));
    if AtRest(s, OneDialog(dialog)) && NoneWaits(s, dialog) {
      forall k | k in s.log.projected && OfDialog(s, k.0, dialog) ensures !EffectUnproved(s, k) {
      }
    }
  }

  predicate MayDelete(s: State, operation: Id, request: DeleteRequest) {
    && s.run.gate.None? && operation !in s.admin.deletions
    && MeansHold(s, operation, OneDialog(request.dialog), request.holdVersion, request.scopeRevision, request.epoch, request.registryVersion)
    && request.command !in s.admin.commands && request.command !in s.admin.rejections
    && request.dialog in s.admin.dialogs && request.dialog !in s.admin.tombstones && s.admin.dialogs[request.dialog].version == request.dialogVersion
    && AtRest(s, OneDialog(request.dialog)) && NoneWaits(s, request.dialog)
  }

  // A dialog is deleted under its own hold, when it is at rest with nothing waiting. In one commit it gets its
  // tombstone and event, the command its receipt, the hold its end and the operation its record.
  lemma DeleteMeans(s: State, operation: Id, request: DeleteRequest)
    ensures var (t, reply) := DeleteLogicalDialog(s, operation, request);
      && (reply.Deleted? <==> MayDelete(s, operation, request))
      && (reply.GateBusy? <==> s.run.gate.Some?)
      && (reply.Stored? <==> s.run.gate.None? && Meant(s, request.epoch, request.registryVersion)
                             && operation in s.admin.deletions && s.admin.deletions[operation] == request.digest)
      && (!reply.Deleted? ==> t == s)
      && (reply.Deleted? ==> Deleted(s, t, operation, request))
  {
    hide DialogSettled, AtRest, NoneWaits;
    SettledMeans(s, request.dialog);
  }

  ghost predicate Deleted(s: State, t: State, operation: Id, request: DeleteRequest) {
    var scope := OneDialog(request.dialog);
    && t.core == s.core && t.rows == s.rows && t.run == s.run && t.node == s.node.(stateVersion := s.node.stateVersion + 1)
    && t.admin == s.admin.(
         dialogs := s.admin.dialogs[request.dialog := Dialog(request.dialogVersion + 1)],
         tombstones := s.admin.tombstones + {request.dialog},
         commands := s.admin.commands[request.command := Receipt(Command.DeleteDialog(request.dialog, request.dialogVersion), Some(request.dialog), None)],
         holdOutcomes := s.admin.holdOutcomes[operation := request.digest],
         revisions := s.admin.revisions[scope := request.scopeRevision + 1],
         deletions := s.admin.deletions[operation := request.digest])
    && t.log == s.log.(events := s.log.events
         + [EventRow(EventKind.DialogDeleted, request.dialog, request.dialogVersion + 1, None, Some(request.dialog), false)])
  }
}
