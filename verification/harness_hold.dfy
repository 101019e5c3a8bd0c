// Administrative holds: install, release, the quiescence proof (harness/node/hold.go) and the
// logical delete that releases its hold in the same transaction (harness/node/logical_delete.go).
module HarnessHold {
  import opened Common
  import opened HarnessState
  import opened HarnessAdmission

  datatype HoldReply = Installed | Released | Deleted | Stored | IdConflict | NotFound | Stale | GateBusy

  function Revision(s: State, scope: Scope): int {
    if scope in s.admin.revisions then s.admin.revisions[scope] else 0
  }

  // an attempt in scope whose start is still ahead of it
  predicate PreStart(s: State, scope: Scope) {
    exists c :: c in s.core.actions && s.core.actions[c].kind.DispatchStart? && (s.core.actions[c].status.Pending? || s.core.actions[c].status.Inflight?)
      && s.core.actions[c].reference.attempt in s.core.attempts
      && s.core.attempts[s.core.actions[c].reference.attempt].state.Dispatching? && !s.core.attempts[s.core.actions[c].reference.attempt].started
      && Covers(scope, s.core.attempts[s.core.actions[c].reference.attempt].dialog)
  }

  predicate ScopeTaken(s: State, scope: Scope) {
    exists op :: op in s.admin.holds && op !in s.admin.holdOutcomes && Overlap(s.admin.holds[op].scope, scope)
  }

  datatype InstallRequest = InstallRequest(scope: Scope, scopeRevision: int, epoch: int, binding: int, digest: Id)

  // both locks are taken first, so the step waits while a start call holds the gate
  function InstallHold(s: State, operation: Id, request: InstallRequest): (State, HoldReply) {
    var scope := request.scope;
    if s.run.gate.Some? then (s, GateBusy)
    else if operation in s.admin.holds then (s, if s.admin.holds[operation].digest == request.digest then Stored else HoldReply.IdConflict)
    else if request.epoch != s.node.epoch || request.binding != s.node.registryVersion then (s, Stale)
    else if scope.OneDialog? && !Visible(s, scope.dialog) then (s, HoldReply.NotFound)
    else if PreStart(s, scope) || ScopeTaken(s, scope) || request.scopeRevision != Revision(s, scope) then (s, Stale)
    else
      (s.(admin := s.admin.(
         holds := s.admin.holds[operation := Hold(scope, s.admin.holdClock, Revision(s, scope) + 1, s.node.epoch,
                                                  s.node.registryVersion, request.digest)],
         revisions := s.admin.revisions[scope := Revision(s, scope) + 1],
         holdClock := s.admin.holdClock + 1)), Installed)
  }

  datatype ReleaseRequest = ReleaseRequest(scope: Scope, holdVersion: int, scopeRevision: int, epoch: int, binding: int, digest: Id)

  function EndHold(s: State, operation: Id, digest: Id): State
    requires operation in s.admin.holds
  {
    var scope := s.admin.holds[operation].scope;
    s.(admin := s.admin.(revisions := s.admin.revisions[scope := Revision(s, scope) + 1], holdOutcomes := s.admin.holdOutcomes[operation := digest]))
  }

  function ReleaseHold(s: State, operation: Id, request: ReleaseRequest): (State, HoldReply) {
    if s.run.gate.Some? then (s, GateBusy)
    else if operation in s.admin.holdOutcomes then
      (s, if s.admin.holdOutcomes[operation] == request.digest then Stored else HoldReply.IdConflict)
    else if operation !in s.admin.holds then (s, HoldReply.NotFound)
    else
      var h := s.admin.holds[operation];
      if request.epoch != s.node.epoch || request.epoch != h.epoch || request.binding != s.node.registryVersion
         || request.binding != h.binding || request.scope != h.scope || request.holdVersion != h.version
         || request.scopeRevision != h.scopeRevision || Revision(s, h.scope) != h.scopeRevision then (s, Stale)
      else (EndHold(s, operation, request.digest), Released)
  }

  datatype DeleteRequest = DeleteRequest(command: Id, dialog: Id, dialogVersion: int, holdVersion: int, scopeRevision: int,
                                         epoch: int, registryVersion: int, digest: Id)

  // DeleteLogicalDialog: tombstone, command, release and receipt in one transaction
  function DeleteLogicalDialog(s: State, operation: Id, request: DeleteRequest): (State, HoldReply) {
    if s.run.gate.Some? then (s, GateBusy)
    else if request.epoch != s.node.epoch || request.registryVersion != s.node.registryVersion then (s, Stale)
    else if operation in s.admin.deletions then
      (s, if s.admin.deletions[operation] == request.digest then Stored else HoldReply.IdConflict)
    else if !Holds(s, operation) then (s, Stale)
    else
      var h := s.admin.holds[operation];
      var command := Command.DeleteDialog(request.dialog, request.dialogVersion);
      if h.scope != OneDialog(request.dialog) || h.version != request.holdVersion || h.scopeRevision != request.scopeRevision
         || h.epoch != request.epoch || h.binding != request.registryVersion || Revision(s, h.scope) != h.scopeRevision then (s, Stale)
      else if HasOutcome(s, request.command) then
        (s, if OutcomeCommand(s, request.command) != command then HoldReply.IdConflict else Stale)
      else
        match ApplyDialogDelete(s, request.dialog, request.dialogVersion)
        case None => (s, Stale)
        case Some(t) =>
          var t1 := EndHold(t.(admin := t.admin.(commands := t.admin.commands[request.command := Receipt(command, Some(request.dialog), None)])),
                            operation, request.digest);
          (t1.(admin := t1.admin.(deletions := t1.admin.deletions[operation := request.digest])), HoldReply.Deleted)
  }

  // ----- QuiescenceProof -----

  predicate InScope(s: State, attempt: Id, scope: Scope) {
    attempt in s.core.attempts && Covers(scope, s.core.attempts[attempt].dialog)
  }

  // no live attempt, and nothing in the scope is unsettled
  predicate Parked(s: State, scope: Scope) {
    && (forall a :: a in s.core.attempts && InScope(s, a, scope) ==> !IsLive(s.core.attempts[a].state) && !s.core.attempts[a].effects.Unknown?)
    && (forall r :: r in s.core.requests && Covers(scope, s.core.requests[r].dialog) ==>
          !s.core.requests[r].status.Dispatching? && !s.core.requests[r].status.Active? && !s.core.requests[r].status.Unknown?)
    && (forall c :: c in s.core.actions && InScope(s, s.core.actions[c].reference.attempt, scope) ==> !Owed(s.core.actions[c].status))
    && (forall t :: t in s.rows.tools && InScope(s, s.rows.tools[t].attempt, scope) ==>
          s.rows.tools[t].status.Succeeded? || s.rows.tools[t].status.Failed?)
    && (forall p :: p in s.rows.approvals && InScope(s, s.rows.approvals[p].attempt, scope) ==> s.rows.approvals[p].status.Resolved?)
    && (forall i :: i in s.rows.inputs && InScope(s, s.rows.inputs[i].attempt, scope) ==> s.rows.inputs[i].status.Resolved?)
    && (forall k :: k in s.log.projected && InScope(s, k.0, scope) ==> !EffectUnproved(s, k))
  }

  // the proof is given exactly in these states
  predicate QuiescenceProved(s: State, operation: Id) {
    && Holds(s, operation)
    && s.admin.holds[operation].epoch == s.node.epoch
    && s.admin.holds[operation].binding == s.node.registryVersion
    && Revision(s, s.admin.holds[operation].scope) == s.admin.holds[operation].scopeRevision
    && Parked(s, s.admin.holds[operation].scope)
  }

  function ParkedRequests(s: State, scope: Scope): set<Id> {
    set r | r in s.core.requests && s.core.requests[r].status.Queued? && Covers(scope, s.core.requests[r].dialog)
  }
}
