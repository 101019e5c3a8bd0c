// What dispatch, the action workers, their answers and a restart make of the store, step by step.
module HarnessWorkers {
  import opened Common
  import opened HarnessState
  import opened HarnessObserve
  import opened HarnessCommands
  import opened HarnessActions
  import opened HarnessStep
  import opened HarnessInvariant

  // ----- dispatch -----

  // queued, in a dialog that nothing holds, and before every other such request
  predicate Foremost(s: State, q: Id) {
    && q in s.core.requests && s.core.requests[q].status.Queued? && !Held(s, s.core.requests[q].dialog)
    && forall r :: r in s.core.requests && s.core.requests[r].status.Queued? && !Held(s, s.core.requests[r].dialog) ==>
         s.core.requests[q].queueSequence <= s.core.requests[r].queueSequence
  }

  // A candidate is taken only from an open queue, when nothing runs and nothing is unknown; nothing durable changes.
  lemma PeekMeans(s: State, q: Id)
    ensures var t := Next(s, PeekDispatch(q));
      t == if !s.node.queuePaused && s.node.slot.None? && s.node.pendingCount != 0 && ExecutionUnknown !in s.node.blocked && Foremost(s, q)
           then s.(run := s.run.(peeked := Some(Candidate(q, s.core.requests[q].dialog, s.core.requests[q].message,
                                                          s.core.requests[q].queueSequence, s.node.stateVersion))))
           else s
  {
  }

  // the attempts made for the message of the request have lower generations, the one before exists
  predicate FollowsEarlier(s: State, q: Id, generation: int)
    requires q in s.core.requests
  {
    && (forall a :: a in s.core.attempts && SameWork(s, a, q) ==> s.core.attempts[a].generation < generation)
    && (generation == 1 || exists a :: a in s.core.attempts && SameWork(s, a, q) && s.core.attempts[a].generation == generation - 1)
  }

  predicate SameWork(s: State, a: Id, q: Id)
    requires q in s.core.requests
  {
    a in s.core.attempts && s.core.attempts[a].request in s.core.requests
    && s.core.requests[s.core.attempts[a].request].message == s.core.requests[q].message
  }

  // The candidate as it was peeked, nothing else having happened, becomes an attempt: dispatching, in the slot,
  // with a start action under its own id; its request leaves the queue.
  lemma DispatchMeans(s: State, a: Id, generation: int)
    ensures var t := Next(s, DispatchNext(a, generation));
      && t.run == s.run.(peeked := None) && t.rows == s.rows && t.admin == s.admin
      && if s.run.peeked.Some? && MayDispatch(s, s.run.peeked.value, a, generation)
         then Dispatched(s, t, s.run.peeked.value, a, generation)
         else t == s.(run := t.run)
  {
    hide Dispatch, Dispatched, MayDispatch;
    if s.run.peeked.Some? {
      DispatchesIff(s, s.run.peeked.value, a, generation);
      if Dispatch(s, s.run.peeked.value, a, generation).Some? {
        DispatchLeaves(s, s.run.peeked.value, a, generation);
        SameButPeeked(s, Dispatch(s, s.run.peeked.value, a, generation).value, Next(s, DispatchNext(a, generation)), s.run.peeked.value, a, generation);
      }
    }
  }

  lemma DispatchesIff(s: State, c: Candidate, a: Id, generation: int)
    ensures Dispatch(s, c, a, generation).Some? <==> MayDispatch(s, c, a, generation)
  {
  }

  lemma DispatchLeaves(s: State, c: Candidate, a: Id, generation: int)
    requires Dispatch(s, c, a, generation).Some? && MayDispatch(s, c, a, generation)
    ensures var t := Dispatch(s, c, a, generation).value;
      Dispatched(s, t, c, a, generation) && t.run == s.run && t.rows == s.rows && t.admin == s.admin
  {
    hide NextInQueue, NextGeneration, OtherLive, FollowsEarlier;
    RemovedReasons(s.node.blocked, PolicyUnavailable);
  }

  lemma SameButPeeked(s: State, t: State, u: State, c: Candidate, a: Id, generation: int)
    requires MayDispatch(s, c, a, generation) && Dispatched(s, t, c, a, generation) && u == t.(run := u.run)
    ensures Dispatched(s, u, c, a, generation)
  {
  }

  predicate MayDispatch(s: State, c: Candidate, a: Id, generation: int) {
    && s.node.stateVersion == c.stateVersion && !s.node.queuePaused && s.node.slot.None? && s.node.pendingCount != 0
    && Foremost(s, c.request)
    && var q := s.core.requests[c.request];
      && q.dialog == c.dialog && q.message == c.message && q.queueSequence == c.queueSequence && q.message in s.core.messages
      && a !in s.core.attempts && a !in s.core.actions && (forall b :: b in s.core.attempts && b != a ==> !IsLive(s.core.attempts[b].state))
      && FollowsEarlier(s, c.request, generation)
  }

  ghost predicate Dispatched(s: State, t: State, c: Candidate, a: Id, generation: int)
    requires c.request in s.core.requests && s.core.requests[c.request].message in s.core.messages
  {
    var q := s.core.requests[c.request]; var m := s.core.messages[q.message];
    && t.core.attempts == s.core.attempts[a := Attempt(q.dialog, c.request, generation, 1, AttemptState.Dispatching, Effects.Nothing, false, 0)]
    && t.core.requests == s.core.requests[c.request := q.(version := q.version + 1, status := RequestStatus.Dispatching)]
    && t.core.messages == (if m.disposition.Queued? then
                             s.core.messages[q.message := m.(version := m.version + 1, disposition := Disposition.Applied, attempt := Some(a))]
                           else s.core.messages)
    && t.core.actions == s.core.actions[a := Action(|s.core.actions|, ActionKind.DispatchStart, AttemptRef(q.dialog, c.request, a, generation),
                                                    0, 0, 0, ActionStatus.Pending)]
    && t.log == s.log.(events := s.log.events
         + (if m.disposition.Queued? then [EventRow(DispositionChanged, q.message, m.version + 1, None, None, false)] else [])
         + [EventRow(AttemptDispatching, a, 1, Some(a), Some(q.dialog), false), QueueEvent(t), NodeEvent(t)])
    && t.node.slot == Some(a) && t.node.occupancy.Active? && t.node.readiness.Ready? && PolicyUnavailable !in t.node.blocked
    && t.node.pendingCount == s.node.pendingCount - 1 && t.node.queueVersion == s.node.queueVersion + 1
    && t.node.queuePaused == s.node.queuePaused && t.node.nextQueueSequence == s.node.nextQueueSequence
  }

  // ----- workers -----

  // A waiting action is taken up if it is the first of its lane that may be: the row is inflight and has a worker.
  lemma ClaimMeans(s: State, lane: Lane, c: Id)
    ensures var t := Next(s, ClaimAction(lane, c));
      if MayClaim(s, c) && LaneIs(s.core.actions[c].kind, lane) && c !in s.run.workers
         && forall d :: d in s.core.actions && MayClaim(s, d) && LaneIs(s.core.actions[d].kind, lane) ==> s.core.actions[c].row <= s.core.actions[d].row
      then t == s.(core := s.core.(actions := s.core.actions[c := s.core.actions[c].(status := ActionStatus.Inflight)]),
                   run := s.run.(workers := s.run.workers[c := Claimed]))
      else t == s
  {
  }

  predicate LaneIs(kind: ActionKind, lane: Lane) {
    (lane.StopLane? <==> kind.Stop?) && (lane.DispatchLane? <==> kind.DispatchStart?)
  }

  // it waits, and if it is a start nothing holds its dialog
  predicate MayClaim(s: State, c: Id) {
    && c in s.core.actions && s.core.actions[c].status.Pending?
    && (s.core.actions[c].kind.DispatchStart? ==>
          var a := s.core.actions[c].reference.attempt; a in s.core.attempts && !Held(s, s.core.attempts[a].dialog))
  }

  // The way of a start: the gate when it is free, the read under it, the call. The call resumes if an attempt of the
  // dialog has ended before, and is made only for an attempt that still dispatches, with a sound policy.
  lemma StartMoves(s: State, c: Id, sound: bool)
    requires c in s.core.actions && c in s.run.workers && s.core.actions[c].kind.DispatchStart?
    ensures var a := s.core.actions[c].reference.attempt;
      && (s.run.workers[c].Claimed? ==>
            Next(s, Gate(c)) == if s.run.gate.None? then s.(run := s.run.(gate := Some(c), workers := s.run.workers[c := Gated])) else s)
      && (s.run.workers[c].Gated? ==>
            Next(s, Read(c, sound)) == s.(run := s.run.(workers := s.run.workers[c :=
              if a in s.core.attempts && s.core.attempts[a].state.Dispatching? && sound then Phase.Ready(EndedBefore(s, a))
              else Answered(Answer.Error)])))
      && (forall resume :: s.run.workers[c] == Phase.Ready(resume) ==>
            Next(s, Begin(c)) == s.(run := s.run.(workers := s.run.workers[c := Calling(resume)])))
      && (!s.run.workers[c].Claimed? ==> Next(s, Gate(c)) == s)
      && (!s.run.workers[c].Gated? ==> Next(s, Read(c, sound)) == s)
      && (!s.run.workers[c].Ready? ==> Next(s, Begin(c)) == s)
  {
  }

  predicate EndedBefore(s: State, a: Id) {
    a in s.core.attempts
    && exists b :: b in s.core.attempts && b != a && s.core.attempts[b].dialog == s.core.attempts[a].dialog && IsTerminal(s.core.attempts[b].state)
  }

  // The adapter answers a start that is being called, and any other action once it is claimed. The gate opens
  // again when the worker that took it is gone.
  lemma AnswerMoves(s: State, c: Id, answer: Answer)
    ensures Next(s, Reply(c, answer)) ==
      if c in s.core.actions && c in s.run.workers
         && (if s.core.actions[c].kind.DispatchStart? then s.run.workers[c].Calling? else s.run.workers[c].Claimed? || s.run.workers[c].Calling?)
      then s.(run := s.run.(workers := s.run.workers[c := Answered(answer)])) else s
    ensures Next(s, Ungate) == if s.run.gate.Some? && s.run.gate.value !in s.run.workers then s.(run := s.run.(gate := None)) else s
  {
  }

  // A policy that cannot be read blocks the node and is announced, unless the node is blocked for it already.
  lemma BlockMeans(s: State)
    ensures var t := Next(s, Block);
      if s.node.readiness.Blocked? && PolicyUnavailable in s.node.blocked then t == s
      else
        && t.core == s.core && t.rows == s.rows && t.admin == s.admin && t.run == s.run
        && t.log == s.log.(events := s.log.events + [NodeEvent(t)])
        && t.node == s.node.(readiness := Readiness.Blocked, stateVersion := s.node.stateVersion + 1, blocked := t.node.blocked)
        && forall r :: r in t.node.blocked <==> r in s.node.blocked || r == PolicyUnavailable
  {
  }

  // ----- what an answer leaves -----

  // the attempt is unknown, holds the slot, and its request follows; both events say so
  ghost predicate BecameUnknown(s: State, t: State, x: AttemptRef, effects: Effects)
    requires x.attempt in s.core.attempts
  {
    var row := s.core.attempts[x.attempt];
    && t.core.attempts == s.core.attempts[x.attempt := row.(version := row.version + 1, state := AttemptState.Unknown, effects := effects)]
    && t.core.requests == (if x.request in s.core.requests then
                             s.core.requests[x.request := s.core.requests[x.request].(version := s.core.requests[x.request].version + 1,
                                                                                     status := RequestStatus.Unknown)]
                           else s.core.requests)
    && t.core.messages == s.core.messages && t.core.actions == s.core.actions && t.rows == s.rows && t.admin == s.admin && t.run == s.run
    && t.node.slot == Some(x.attempt) && t.node.readiness.Unknown? && t.node.occupancy.Unknown? && ExecutionUnknown in t.node.blocked
    && t.node.stateVersion == s.node.stateVersion + 1 && t.node.pendingCount == s.node.pendingCount && t.node.queuePaused == s.node.queuePaused
    && t.log == s.log.(events := s.log.events + [EventRow(AttemptUnknown, x.attempt, row.version + 1, Some(x.attempt), Some(x.dialog), false), NodeEvent(t)])
  }

  // An attempt of that generation that is not yet unknown becomes unknown, unless another one is live.
  lemma UnknownMeans(s: State, x: AttemptRef, effects: Effects)
    ensures var r := SetAttemptUnknown(s, x, effects);
      && (r.Some? <==>
            && x.attempt in s.core.attempts && s.core.attempts[x.attempt].generation == x.generation
            && (s.core.attempts[x.attempt].state.Unknown?
                || forall b :: b in s.core.attempts && b != x.attempt ==> !IsLive(s.core.attempts[b].state)))
      && (r.Some? && s.core.attempts[x.attempt].state.Unknown? ==> r.value == s)
      && (r.Some? && !s.core.attempts[x.attempt].state.Unknown? ==> BecameUnknown(s, r.value, x, effects))
  {
  }

  // marked: unknown if it has the slot and can be, and otherwise as it was
  ghost predicate MarkedUnknown(s: State, t: State, x: AttemptRef) {
    if s.node.slot == Some(x.attempt) && x.attempt in s.core.attempts && s.core.attempts[x.attempt].generation == x.generation
       && !s.core.attempts[x.attempt].state.Unknown? && (forall b :: b in s.core.attempts && b != x.attempt ==> !IsLive(s.core.attempts[b].state))
    then BecameUnknown(s, t, x, Effects.Unknown)
    else t == s
  }

  lemma MarkMeans(s: State, x: AttemptRef)
    ensures MarkedUnknown(s, MarkAttemptUnknown(s, x), x)
  {
    hide SetAttemptUnknown, BecameUnknown;
    UnknownMeans(s, x, Effects.Unknown);
  }

  // the worker goes on to this phase
  ghost predicate GoesTo(s: State, t: State, c: Id, phase: Phase) {
    t.run == s.run.(workers := s.run.workers[c := phase])
  }

  // The answer to a start. Accepted, the attempt runs and its request is active; rejected, it has failed without
  // effects; anything else leaves it unknown. An acceptance that cannot be committed is an uncertain start.
  lemma StartAnswerMeans(s: State, c: Id, commit: bool)
    requires c in s.run.workers && c in s.core.actions && s.core.actions[c].kind.DispatchStart? && s.run.workers[c].Answered?
    ensures var t := Next(s, Commit(c, commit)); var x := s.core.actions[c].reference; var answer := s.run.workers[c].answer;
      && (answer.Accepted? && commit && MayStart(s, x) ==> StartedNow(s, t.(run := s.run), x) && GoesTo(s, t, c, Finishing(ActionStatus.Acknowledged)))
      && (answer.Accepted? && !(commit && MayStart(s, x)) ==>
            t == s.(run := t.run) && GoesTo(s, t, c, Answered(Answer.Error)))
      && (answer.Rejected? ==>
            GoesTo(s, t, c, Finishing(ActionStatus.Rejected)) && if commit then RejectedNow(s, t.(run := s.run), x) else t == s.(run := t.run))
      && (!answer.Accepted? && !answer.Rejected? ==>
            GoesTo(s, t, c, Finishing(ActionStatus.Unknown)) && if commit then MarkedUnknown(s, t.(run := s.run), x) else t == s.(run := t.run))
  {
    hide MarkStarted, ObserveRejected, MarkAttemptUnknown, FinishSteer, FinishResponse, StartedNow, RejectedNow, MarkedUnknown, MayStart;
    var x := s.core.actions[c].reference;
    StartedMeans(s, x);
    RejectedMeans(s, x);
    MarkMeans(s, x);
    OnlyThePhase(s, c, commit);
  }

  predicate MayStart(s: State, x: AttemptRef) {
    && s.node.slot == Some(x.attempt) && x.attempt in s.core.attempts && s.core.attempts[x.attempt].state.Dispatching?
    && (x.attempt, Key.Started) !in s.log.projected
  }

  ghost predicate StartedNow(s: State, t: State, x: AttemptRef)
    requires MayStart(s, x)
  {
    var row := s.core.attempts[x.attempt];
    && t.core.attempts == s.core.attempts[x.attempt := row.(version := row.version + 1, state := AttemptState.Running, started := true)]
    && t.core.requests == (if x.request in s.core.requests then
                             s.core.requests[x.request := s.core.requests[x.request].(version := s.core.requests[x.request].version + 1,
                                                                                     status := RequestStatus.Active)]
                           else s.core.requests)
    && t.core.messages == s.core.messages && t.core.actions == s.core.actions && t.rows == s.rows && t.admin == s.admin
    && t.node == s.node.(stateVersion := s.node.stateVersion + 1)
    && t.log == s.log.(events := s.log.events + [EventRow(AttemptStarted, x.attempt, row.version + 1, Some(x.attempt), Some(x.dialog), false), NodeEvent(t)],
                       projected := s.log.projected[(x.attempt, Key.Started) := OfEvent(AdapterEvent.Started)])
  }

  lemma StartedMeans(s: State, x: AttemptRef)
    ensures MarkStarted(s, x).Some? <==> MayStart(s, x)
    ensures MarkStarted(s, x).Some? ==> StartedNow(s, MarkStarted(s, x).value, x) && MarkStarted(s, x).value.run == s.run
  {
  }

  // a rejected start: the end of the attempt while it has the slot, a late note when it has lost it
  ghost predicate RejectedNow(s: State, t: State, x: AttemptRef) {
    if x.attempt !in s.core.attempts || s.core.attempts[x.attempt].dialog in s.admin.tombstones then t == s.(run := t.run)
    else
      var row := s.core.attempts[x.attempt];
      && t.rows == s.rows && t.admin == s.admin && t.core.messages == s.core.messages && t.core.actions == s.core.actions
      && if s.node.slot == Some(x.attempt) && row.generation == x.generation then
           && t.core.attempts == s.core.attempts[x.attempt := row.(version := row.version + 1, state := AttemptState.Failed, effects := Effects.Nothing)]
           && t.core.requests == (if row.request in s.core.requests then
                                    s.core.requests[row.request := s.core.requests[row.request].(version := s.core.requests[row.request].version + 1,
                                                                                                status := RequestStatus.Failed)]
                                  else s.core.requests)
           && t.node.slot.None? && t.node.occupancy.Idle? && t.node.pendingCount == s.node.pendingCount && t.node.blocked == s.node.blocked
           && t.node.readiness == (if s.node.readiness.Unknown? then Readiness.Blocked else s.node.readiness)
           && t.log == s.log.(events := s.log.events
                                + [EventRow(AttemptFailed, x.attempt, row.version + 1, Some(x.attempt), Some(row.dialog), false), NodeEvent(t)])
         else
           && t.core == s.core && t.node == s.node && t.log.projected == s.log.projected
           && t.log.events == s.log.events + [EventRow(AttemptFailed, x.attempt, row.version, Some(x.attempt), Some(row.dialog), true)]
           && t.log.late == s.log.late + [LateRow(x.attempt, None, None, 0)]
  }

  lemma RejectedMeans(s: State, x: AttemptRef)
    ensures var t := ObserveRejected(s, x.attempt, x.generation); RejectedNow(s, t, x) && t.run == s.run
  {
  }

  // whatever a commit does to the tables, of the workers it moves its own
  lemma OnlyThePhase(s: State, c: Id, commit: bool)
    requires c in s.run.workers && c in s.core.actions && s.run.workers[c].Answered?
    ensures var (u, phase) := SettleAction(s, c, s.run.workers[c].answer, commit);
      u.run == s.run && Next(s, Commit(c, commit)) == u.(run := u.run.(workers := u.run.workers[c := phase]))
  {
    hide MarkStarted, ObserveRejected, MarkAttemptUnknown, FinishSteer, FinishResponse;
    var action := s.core.actions[c];
    SettledKeepsRun(s, c, s.run.workers[c].answer);
  }

  // The answer to a stop says how the action ended; only an uncertain one touches the attempt.
  lemma StopAnswerMeans(s: State, c: Id, commit: bool)
    requires c in s.run.workers && c in s.core.actions && s.core.actions[c].kind.Stop? && s.run.workers[c].Answered?
    ensures var t := Next(s, Commit(c, commit)); var x := s.core.actions[c].reference; var answer := s.run.workers[c].answer;
      && (answer.Accepted? ==> t == s.(run := t.run) && GoesTo(s, t, c, Finishing(ActionStatus.Acknowledged)))
      && (answer.Rejected? ==> t == s.(run := t.run) && GoesTo(s, t, c, Finishing(ActionStatus.Rejected)))
      && (!answer.Accepted? && !answer.Rejected? ==>
            GoesTo(s, t, c, Finishing(ActionStatus.Unknown)) && if commit then MarkedUnknown(s, t.(run := s.run), x) else t == s.(run := t.run))
  {
    hide MarkStarted, ObserveRejected, MarkAttemptUnknown, FinishSteer, FinishResponse, MarkedUnknown;
    MarkMeans(s, s.core.actions[c].reference);
    OnlyThePhase(s, c, commit);
  }

  // The answer to a steer, while the message waits for it: accepted, the message is applied and its request done;
  // rejected or left to the fallback, it waits in the queue again; unknown, message, request and attempt are.
  lemma SteerAnswerMeans(s: State, c: Id, commit: bool)
    requires c in s.run.workers && c in s.core.actions && s.core.actions[c].kind.Steer? && s.run.workers[c].Answered?
    ensures var t := Next(s, Commit(c, commit)); var x := s.core.actions[c]; var answer := s.run.workers[c].answer;
      && (answer.Undeclared? ==>
            GoesTo(s, t, c, Answered(Answer.Uncertain)) && if commit then MarkedUnknown(s, t.(run := s.run), x.reference) else t == s.(run := t.run))
      && (!answer.Undeclared? ==>
            && GoesTo(s, t, c, Finishing(if answer.Accepted? || answer.Fallback? then ActionStatus.Acknowledged
                                         else if answer.Rejected? then ActionStatus.Rejected else ActionStatus.Unknown))
            && (if commit && SteerAwaited(s, x) && !(answer.Uncertain? || answer.Error?) then SteeredNow(s, t.(run := s.run), x, answer)
                else if commit && SteerAwaited(s, x) && MayBeUnknown(s, x.reference) then SteerLost(s, t.(run := s.run), x)
                else t == s.(run := t.run)))
  {
    hide MarkStarted, ObserveRejected, MarkAttemptUnknown, FinishSteer, FinishResponse, MarkedUnknown, SteeredNow, SteerLost, MayBeUnknown;
    MarkMeans(s, s.core.actions[c].reference);
    SteeredMeans(s, s.core.actions[c], s.run.workers[c].answer);
    OnlyThePhase(s, c, commit);
  }

  predicate SteerAwaited(s: State, x: Action) {
    && x.message in s.core.messages && s.core.messages[x.message].disposition.SteerPending?
    && s.core.messages[x.message].request.Some?
  }

  predicate MayBeUnknown(s: State, x: AttemptRef) {
    && x.attempt in s.core.attempts && s.core.attempts[x.attempt].generation == x.generation
    && (s.core.attempts[x.attempt].state.Unknown? || forall b :: b in s.core.attempts && b != x.attempt ==> !IsLive(s.core.attempts[b].state))
  }

  ghost predicate SteeredNow(s: State, t: State, x: Action, answer: Answer)
    requires SteerAwaited(s, x)
  {
    var m := s.core.messages[x.message]; var q := m.request.value;
    && t.rows == s.rows && t.admin == s.admin && t.core.attempts == s.core.attempts && t.core.actions == s.core.actions
    && t.core.messages == s.core.messages[x.message := m.(version := m.version + 1,
                                                           disposition := if answer.Accepted? then Disposition.Applied else Disposition.Queued)]
    && t.core.requests == (if answer.Accepted? && q in s.core.requests then
                             s.core.requests[q := s.core.requests[q].(version := s.core.requests[q].version + 1, status := RequestStatus.Completed)]
                           else s.core.requests)
    && t.node == s.node.(pendingCount := s.node.pendingCount - (if answer.Accepted? then 1 else 0), queueVersion := s.node.queueVersion + 1,
                         stateVersion := s.node.stateVersion + 1)
    && t.log == s.log.(events := s.log.events + [EventRow(DispositionChanged, x.message, m.version + 1, None, None, false), QueueEvent(t)])
  }

  ghost predicate SteerLost(s: State, t: State, x: Action)
    requires SteerAwaited(s, x)
  {
    var m := s.core.messages[x.message]; var q := m.request.value; var a := x.reference.attempt;
    && t.rows == s.rows && t.admin == s.admin && t.core.actions == s.core.actions
    && t.core.messages == s.core.messages[x.message := m.(version := m.version + 1, disposition := Disposition.Unknown)]
    && t.node.pendingCount == s.node.pendingCount - 1 && t.node.queueVersion == s.node.queueVersion + 1
    && (forall r :: r in t.core.requests <==> r in s.core.requests)
    && (forall r :: r in s.core.requests ==>
          if r == q || (r == x.reference.request && a in s.core.attempts && !s.core.attempts[a].state.Unknown?)
          then t.core.requests[r].status.Unknown? else t.core.requests[r] == s.core.requests[r])
    && a in s.core.attempts && a in t.core.attempts && t.core.attempts[a].state.Unknown?
    && t.log == s.log.(events := s.log.events + [EventRow(DispositionChanged, x.message, m.version + 1, None, None, false)]
         + (if s.core.attempts[a].state.Unknown? then []
            else [EventRow(AttemptUnknown, a, s.core.attempts[a].version + 1, Some(a), Some(x.reference.dialog), false), NodeEvent(t)])
         + [QueueEvent(t)])
    && (s.core.attempts[a].state.Unknown? ==> t.core.attempts == s.core.attempts && t.node.slot == s.node.slot)
    && (!s.core.attempts[a].state.Unknown? ==>
          && t.node.slot == Some(a) && ExecutionUnknown in t.node.blocked && t.node.readiness.Unknown?
          && t.core.attempts == s.core.attempts[a := s.core.attempts[a].(version := s.core.attempts[a].version + 1,
                                                                         state := AttemptState.Unknown, effects := Effects.Unknown)])
  }

  lemma SteeredMeans(s: State, x: Action, answer: Answer)
    ensures var r := FinishSteer(s, x.reference, x.message, answer); var lost := !(answer.Accepted? || answer.Fallback? || answer.Rejected?);
      && (r.Some? <==> SteerAwaited(s, x) && (lost ==> MayBeUnknown(s, x.reference)))
      && (r.Some? ==> r.value.run == s.run && if lost then SteerLost(s, r.value, x) else SteeredNow(s, r.value, x, answer))
  {
    if SteerAwaited(s, x) {
      hide FinishSteer, SteeredNow, SteerLost;
      if answer.Accepted? || answer.Fallback? || answer.Rejected? {
        SteerEnds(s, x, answer);
      } else {
        SteerIsLost(s, x, answer);
      }
    }
  }

  lemma SteerEnds(s: State, x: Action, answer: Answer)
    requires SteerAwaited(s, x) && (answer.Accepted? || answer.Fallback? || answer.Rejected?)
    ensures var r := FinishSteer(s, x.reference, x.message, answer); r.Some? && r.value.run == s.run && SteeredNow(s, r.value, x, answer)
  {
  }

  lemma SteerIsLost(s: State, x: Action, answer: Answer)
    requires SteerAwaited(s, x) && !answer.Accepted? && !answer.Fallback? && !answer.Rejected?
    ensures var r := FinishSteer(s, x.reference, x.message, answer);
      (r.Some? <==> MayBeUnknown(s, x.reference)) && (r.Some? ==> r.value.run == s.run && SteerLost(s, r.value, x))
  {
    hide SetAttemptUnknown, BecameUnknown, SteerRows;
    var s1 := SteerRows(s, x.message, Disposition.Unknown);
    RowsLost(s, x);
    UnknownMeans(s1, x.reference, Effects.Unknown);
    UnknownFields(s1, x.reference);
  }

  lemma RowsLost(s: State, x: Action)
    requires SteerAwaited(s, x)
    ensures var s1 := SteerRows(s, x.message, Disposition.Unknown); var m := s.core.messages[x.message]; var q := m.request.value;
      && s1.rows == s.rows && s1.admin == s.admin && s1.run == s.run && s1.core.actions == s.core.actions && s1.core.attempts == s.core.attempts
      && s1.core.messages == s.core.messages[x.message := m.(version := m.version + 1, disposition := Disposition.Unknown)]
      && s1.log == s.log.(events := s.log.events + [EventRow(DispositionChanged, x.message, m.version + 1, None, None, false)])
      && s1.node == s.node.(pendingCount := s.node.pendingCount - 1, queueVersion := s.node.queueVersion + 1, stateVersion := s.node.stateVersion + 1)
      && (forall r :: r in s1.core.requests <==> r in s.core.requests)
      && (forall r :: r in s.core.requests ==> if r == q then s1.core.requests[r].status.Unknown? else s1.core.requests[r] == s.core.requests[r])
  {
  }

  lemma UnknownFields(s: State, x: AttemptRef)
    ensures var r := SetAttemptUnknown(s, x, Effects.Unknown);
      r.Some? && !s.core.attempts[x.attempt].state.Unknown? ==>
        && r.value.core.attempts == s.core.attempts[x.attempt := s.core.attempts[x.attempt].(version := s.core.attempts[x.attempt].version + 1,
                                                                                            state := AttemptState.Unknown, effects := Effects.Unknown)]
        && r.value.core.messages == s.core.messages && r.value.core.actions == s.core.actions && r.value.rows == s.rows
        && r.value.admin == s.admin && r.value.run == s.run && r.value.node.slot == Some(x.attempt)
        && ExecutionUnknown in r.value.node.blocked && r.value.node.readiness.Unknown?
        && r.value.log == s.log.(events := s.log.events
             + [EventRow(AttemptUnknown, x.attempt, s.core.attempts[x.attempt].version + 1, Some(x.attempt), Some(x.dialog), false), NodeEvent(r.value)])
        && r.value.node.pendingCount == s.node.pendingCount && r.value.node.queueVersion == s.node.queueVersion
        && (forall q :: q in r.value.core.requests <==> q in s.core.requests)
        && (forall q :: q in s.core.requests ==>
              if q == x.request then r.value.core.requests[q].status.Unknown? else r.value.core.requests[q] == s.core.requests[q])
  {
  }

  // The answer to an approval or input response: accepted, the row is resolved and announced; rejected, it waits for
  // another answer; unknown, row and attempt are. A row that moved on to another version is left.
  lemma ResponseAnswerMeans(s: State, c: Id, commit: bool)
    requires c in s.run.workers && c in s.core.actions && (s.core.actions[c].kind.Approval? || s.core.actions[c].kind.Input?)
    requires s.run.workers[c].Answered?
    ensures var t := Next(s, Commit(c, commit)); var x := s.core.actions[c]; var answer := s.run.workers[c].answer;
      && (answer.Undeclared? || answer.Fallback? ==>
            GoesTo(s, t, c, Answered(Answer.Uncertain)) && if commit then MarkedUnknown(s, t.(run := s.run), x.reference) else t == s.(run := t.run))
      && (answer.Accepted? ==>
            && GoesTo(s, t, c, Finishing(ActionStatus.Acknowledged))
            && if commit then RowAnswered(s, t.(run := s.run), x, AnswerStatus.Resolved) && t.core == s.core && t.node == s.node
                              && t.log == s.log.(events := s.log.events + [EventRow(if x.kind.Approval? then ApprovalResolved else InputResolved, x.subject,
                                                                                    x.subjectVersion, Some(x.reference.attempt),
                                                                                    Some(x.reference.dialog), false)])
               else t == s.(run := t.run))
      && (answer.Rejected? ==>
            && GoesTo(s, t, c, Finishing(ActionStatus.Rejected))
            && if commit then RowAnswered(s, t.(run := s.run), x, AnswerStatus.Pending) && t.core == s.core && t.node == s.node && t.log == s.log
               else t == s.(run := t.run))
      && (answer.Uncertain? || answer.Error? ==>
            && GoesTo(s, t, c, Finishing(ActionStatus.Unknown))
            && if commit && MayBeUnknown(s, x.reference) then
                 && RowAnswered(s, t.(run := s.run), x, AnswerStatus.Unknown)
                 && (if s.core.attempts[x.reference.attempt].state.Unknown? then t.core == s.core && t.node == s.node
                     else BecameUnknown(s, t.(rows := s.rows, run := s.run), x.reference, Effects.Unknown))
               else t == s.(run := t.run))
  {
    hide MarkStarted, ObserveRejected, MarkAttemptUnknown, FinishSteer, FinishResponse, MarkedUnknown, RowAnswered, BecameUnknown, MayBeUnknown;
    var x := s.core.actions[c];
    MarkMeans(s, x.reference);
    RespondedMeans(s, x, s.run.workers[c].answer);
    OnlyThePhase(s, c, commit);
  }

  ghost predicate RowAnswered(s: State, t: State, x: Action, status: AnswerStatus) {
    && t.rows.tools == s.rows.tools && t.rows.artifacts == s.rows.artifacts && t.admin == s.admin
    && (x.kind.Approval? ==>
          && t.rows.inputs == s.rows.inputs
          && t.rows.approvals == if x.subject in s.rows.approvals && s.rows.approvals[x.subject].version == x.subjectVersion
                                 then s.rows.approvals[x.subject := s.rows.approvals[x.subject].(status := status)] else s.rows.approvals)
    && (x.kind.Input? ==>
          && t.rows.approvals == s.rows.approvals
          && t.rows.inputs == if x.subject in s.rows.inputs && s.rows.inputs[x.subject].version == x.subjectVersion
                              then s.rows.inputs[x.subject := s.rows.inputs[x.subject].(status := status)] else s.rows.inputs)
  }

  lemma RespondedMeans(s: State, x: Action, answer: Answer)
    requires x.kind.Approval? || x.kind.Input?
    ensures var r := FinishResponse(s, x, answer); var lost := !(answer.Accepted? || answer.Rejected?);
      && (r.Some? <==> (lost ==> MayBeUnknown(s, x.reference)))
      && (r.Some? ==>
            && r.value.run == s.run
            && RowAnswered(s, r.value, x, if answer.Accepted? then AnswerStatus.Resolved else if answer.Rejected? then AnswerStatus.Pending else AnswerStatus.Unknown))
      && (r.Some? && !lost ==> r.value.core == s.core && r.value.node == s.node)
      && (answer.Rejected? ==> r.value.log == s.log)
      && (answer.Accepted? ==>
            r.value.log == s.log.(events := s.log.events + [EventRow(if x.kind.Approval? then ApprovalResolved else InputResolved, x.subject,
                                                                     x.subjectVersion, Some(x.reference.attempt), Some(x.reference.dialog), false)]))
      && (r.Some? && lost && s.core.attempts[x.reference.attempt].state.Unknown? ==> r.value.core == s.core && r.value.node == s.node)
      && (r.Some? && lost && !s.core.attempts[x.reference.attempt].state.Unknown? ==>
            BecameUnknown(s, r.value.(rows := s.rows), x.reference, Effects.Unknown))
  {
    hide SetAttemptUnknown;
    var s1 := AnswerRows(s, x, AnswerRow(answer));
    UnknownMeans(s1, x.reference, Effects.Unknown);
  }

  // ----- the end of an action, and a restart -----

  // An inflight row gets the status its worker ended with, and the worker is gone either way.
  lemma FinishMeans(s: State, c: Id, commit: bool)
    ensures var t := Next(s, Finish(c, commit));
      if c in s.run.workers && c in s.core.actions && s.run.workers[c].Finishing? then
        && t.run == s.run.(workers := s.run.workers - {c}) && t == s.(core := t.core, run := t.run)
        && t.core == (if commit && s.core.actions[c].status.Inflight?
                      then s.core.(actions := s.core.actions[c := s.core.actions[c].(status := s.run.workers[c].status)]) else s.core)
      else t == s
  {
  }

  // After a crash every unfinished action is unknown, no worker and no gate is left, and the slot holder is unknown.
  lemma RestartMeans(s: State)
    requires SlotOk(s)
    ensures var t := Next(s, CrashAndRestart);
      || (t == s && s.node.slot.Some?)
      || (&& t.run == Volatile(None, map[], None) && t.rows == s.rows && t.admin == s.admin && t.core.messages == s.core.messages
          && t.core.actions.Keys == s.core.actions.Keys
          && (forall c :: c in s.core.actions ==>
                t.core.actions[c] == if s.core.actions[c].status.Pending? || s.core.actions[c].status.Inflight?
                                     then s.core.actions[c].(status := ActionStatus.Unknown) else s.core.actions[c])
          && (s.node.slot.None? ==> t.core.attempts == s.core.attempts && t.core.requests == s.core.requests && t.node == s.node && t.log == s.log)
          && (s.node.slot.Some? ==>
                && t.node.slot == s.node.slot
                && if s.core.attempts[s.node.slot.value].state.Unknown? then t.core.attempts == s.core.attempts && t.log == s.log
                   else BecameUnknown(s.(core := s.core.(actions := t.core.actions), run := t.run), t, Reference(s, s.node.slot.value), Effects.Unknown)))
  {
    hide SetAttemptUnknown;
    var s1 := s.(core := s.core.(actions := AbandonAll(s.core.actions)), run := s.run.(workers := map[], gate := None, peeked := None));
    if s.node.slot.Some? {
      UnknownMeans(s1, Reference(s1, s.node.slot.value), Effects.Unknown);
    }
  }

  // and where the slot names the live attempts, a restart always recovers the store
  lemma RestartRecovers(s: State)
    requires SlotOk(s) && forall a :: a in s.core.attempts && IsLive(s.core.attempts[a].state) ==> s.node.slot == Some(a)
    ensures Next(s, CrashAndRestart).run == Volatile(None, map[], None)
    ensures forall c :: c in Next(s, CrashAndRestart).core.actions ==> !Next(s, CrashAndRestart).core.actions[c].status.Inflight?
  {
  }
}
