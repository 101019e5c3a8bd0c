// Terminal reports that are delivered again: when one that ended its attempt is recorded a second time.
module HarnessEndings {
  import opened Common
  import opened OutputBudget
  import opened HarnessState
  import opened HarnessObserve
  import opened HarnessFrame
  import opened HarnessAdmission
  import opened HarnessActions
  import opened HarnessStep
  import opened HarnessInvariant
  import opened HarnessPersistence
  import opened HarnessHistory
  import opened HarnessSlot
  import opened HarnessLedger
  import opened HarnessBlocked
  import opened HarnessDelivery

  // ----- assistant messages -----

  // the assistant messages of the attempt are the same ones
  ghost predicate SameAssistants(s: State, t: State, a: Id) {
    && (forall m :: AssistantOf(s, m, a) <==> AssistantOf(t, m, a))
    && (forall m :: AssistantOf(s, m, a) ==> t.core.messages[m] == s.core.messages[m])
  }

  lemma SameNewest(s: State, t: State, a: Id)
    requires SameAssistants(s, t, a)
    ensures Newest(t, a) == Newest(s, a)
  {
  }

  // no assistant message appears
  predicate Silent(s: State, t: State) {
    forall m :: m in t.core.messages && m !in s.core.messages ==> t.core.messages[m].content.None?
  }

  lemma SubmitIsSilent(s: State, id: Id, command: Command, drawn: Drawn)
    ensures Silent(s, SubmitCommand(s, id, command, drawn).0)
  {
    hide RetryPending, Authorized, CoveredByHold, OutcomeCommand;
  }

  lemma UnknownIsSilent(s: State, reference: AttemptRef)
    ensures Else(SetAttemptUnknown(s, reference, Effects.Unknown), s).core.messages == s.core.messages
    ensures MarkAttemptUnknown(s, reference).core.messages == s.core.messages
  {
  }

  lemma SettleIsSilent(s: State, id: Id, commit: bool)
    ensures Silent(s, Settle(s, id, commit))
  {
    hide FinishSteer, FinishResponse, MarkAttemptUnknown, MarkStarted, ObserveRejected;
    if id in s.run.workers && id in s.core.actions && s.run.workers[id].Answered? {
      var action := s.core.actions[id];
      UnknownIsSilent(s, action.reference);
      DispatchIsSilent(s, action.reference);
      SteerIsSilent(s, action.reference, action.message, s.run.workers[id].answer);
      ResponseIsSilent(s, action, s.run.workers[id].answer);
    }
  }

  lemma DispatchIsSilent(s: State, reference: AttemptRef)
    ensures Else(MarkStarted(s, reference), s).core.messages == s.core.messages
    ensures ObserveRejected(s, reference.attempt, reference.generation).core.messages == s.core.messages
  {
  }

  lemma SteerIsSilent(s: State, reference: AttemptRef, message: Id, answer: Answer)
    ensures Silent(s, Else(FinishSteer(s, reference, message, answer), s))
  {
  }

  lemma ResponseIsSilent(s: State, action: Action, answer: Answer)
    ensures Else(FinishResponse(s, action, answer), s).core.messages == s.core.messages
  {
    hide SetAttemptUnknown;
    UnknownIsSilent(AnswerRows(s, action, AnswerRow(answer)), action.reference);
  }

  // only what an adapter or the artifact ingress delivers writes assistant messages
  lemma OthersAreSilent(s: State, step: Step)
    requires !Observing(step)
    ensures Silent(s, Next(s, step))
  {
    hide SubmitCommand, Settle, Silent;
    match step
    case Submit(id, command, drawn) => SubmitIsSilent(s, id, command, drawn);
    case Commit(action, commit) => SettleIsSilent(s, action, commit);
    case _ => MovesAreSilent(s, step);
  }

  lemma MovesAreSilent(s: State, step: Step)
    requires !Observing(step) && !step.Submit? && !step.Commit?
    ensures Silent(s, Next(s, step))
  {
    hide Next, NextInQueue, NextGeneration;
    if Still(step) {
      StillTables(s, step);
    } else if step.CrashAndRestart? {
      RestartIsSilent(s);
    } else {
      QueueMovesAreSilent(s, step);
    }
  }

  lemma RestartIsSilent(s: State)
    ensures Next(s, CrashAndRestart).core.messages == s.core.messages
  {
  }

  lemma QueueMovesAreSilent(s: State, step: Step)
    requires step.DispatchNext? || step.ClaimAction? || step.Finish?
    ensures Silent(s, Next(s, step))
  {
    hide NextInQueue, NextGeneration, OtherLive;
  }

  // While an attempt is over and out of the slot its newest assistant message stays, unless an artifact
  // passes the budget and leaves the marker.
  lemma NewestStays(s: State, step: Step, a: Id)
    requires Base(s) && HistoryOk(s) && LateOk(s) && a in s.core.attempts && s.node.slot != Some(a)
    ensures var t := Next(s, step); a in t.core.attempts && (Newest(t, a) == Newest(s, a) || OutputLedger(t, a).Exceeded())
  {
    hide Next, Base, HistoryOk, LateOk, Extends, Newest, Silent, StepCharges;
    var t := Next(s, step);
    NextExtends(s, step);
    StepIsCharged(s, step, a);
    if Observing(step) {
      ObservingWrites(s, step, a);
    } else {
      OthersAreSilent(s, step);
      SilentIsSame(s, t, a);
      SameNewest(s, t, a);
    }
  }

  lemma SilentIsSame(s: State, t: State, a: Id)
    requires Extends(s, t) && Silent(s, t)
    ensures SameAssistants(s, t, a)
  {
  }

  lemma ObservingWrites(s: State, step: Step, a: Id)
    requires Observing(step) && Extends(s, Next(s, step)) && LateOk(s) && a in s.core.attempts && s.node.slot != Some(a)
    requires a in Next(s, step).core.attempts
    ensures Newest(Next(s, step), a) == Newest(s, a) || OutputLedger(Next(s, step), a).Exceeded()
  {
    hide Next, Extends, LateOk, Newest, WritesLimit, Observed;
    var t := Next(s, step);
    if step.reference.attempt != a {
      ObservingStep(s, step);
      if t != s {
        OthersWrite(s, t, step.reference.attempt, step.reference.request, a);
        SameNewest(s, t, a);
      }
    } else if step.Ingest? {
      if !WritesLimit(s, step, a) {
        IngestWrites(s, step, a);
        SilentIsSame(s, t, a);
        SameNewest(s, t, a);
      } else {
        LimitMeansCrossing(s, step, a);
      }
    } else {
      LateWritesNothing(s, step, a);
      SilentIsSame(s, t, a);
      SameNewest(s, t, a);
    }
  }

  lemma OthersWrite(s: State, t: State, b: Id, q: Id, a: Id)
    requires Observed(s, t, b, q) == true && a != b
    ensures SameAssistants(s, t, a)
  {
  }

  lemma IngestWrites(s: State, step: Step, a: Id)
    requires step.Ingest? && step.reference.attempt == a && !WritesLimit(s, step, a)
    ensures Silent(s, Next(s, step))
  {
  }

  lemma LateWritesNothing(s: State, step: Step, a: Id)
    requires Observing(step) && !step.Ingest? && step.reference.attempt == a && s.node.slot != Some(a)
    ensures Silent(s, Next(s, step))
  {
    hide ProjectEvent, Archivable, FindArchived, EffectsUnresolved, StoredOutput;
  }

  // ----- what becomes of an ended attempt -----

  predicate IsOut(s: State, a: Id) {
    a in s.core.attempts && IsTerminal(s.core.attempts[a].state) && s.node.slot != Some(a)
  }

  lemma {:induction false} RunKeepsHistory(registryVersion: int, steps: seq<Step>)
    ensures HistoryOk(Run(Init(registryVersion), steps))
  {
    hide Next, Base, HistoryOk;
    if steps == [] {
      InitHasHistory(registryVersion);
    } else {
      var shorter := steps[..|steps| - 1];
      RunKeepsHistory(registryVersion, shorter);
      RunKeepsBase(registryVersion, shorter);
      NextKeepsHistory(Run(Init(registryVersion), shorter), steps[|steps| - 1]);
    }
  }

  lemma InitHasHistory(registryVersion: int)
    ensures HistoryOk(Init(registryVersion))
  {
  }

  // In every continuation an ended attempt either is out of the slot with the newest message it had, or
  // its budget is spent, or it is back for good.
  lemma {:induction false} EndOrReturn(registryVersion: int, steps: seq<Step>, later: seq<Step>, a: Id) returns (c: Id)
    requires IsOut(Run(Init(registryVersion), steps), a)
    ensures var s := Run(Init(registryVersion), steps); var u := Run(Init(registryVersion), steps + later);
      || Stuck(u, c, a)
      || (IsOut(u, a) && (Newest(u, a) == Newest(s, a) || OutputLedger(u, a).Exceeded()))
  {
    hide Init, Next, Newest, Stuck, Base, HistoryOk, LateOk;
    c := 0;
    if later == [] {
      assert steps + later == steps;
    } else {
      var shorter, step := later[..|later| - 1], later[|later| - 1];
      var all := steps + later;
      assert all[..|all| - 1] == steps + shorter && all[|all| - 1] == step;
      assert steps + shorter + [step] == all;
      c := EndOrReturn(registryVersion, steps, shorter, a);
      var r := Run(Init(registryVersion), steps + shorter);
      OneLiveAttempt(registryVersion, steps + shorter);
      RunKeepsBase(registryVersion, steps + shorter);
      RunKeepsHistory(registryVersion, steps + shorter);
      LedgerIsCharged(registryVersion, steps + shorter, a);
      if Stuck(r, c, a) {
        NextStaysStuck(r, step, c, a);
      } else {
        if OutputLedger(r, a).Exceeded() {
          ExceededStays(registryVersion, steps + shorter, [step], a);
        }
        c := StepFromEnd(r, step, a);
      }
    }
  }

  lemma StepFromEnd(s: State, step: Step, a: Id) returns (c: Id)
    requires Base(s) && Slotted(s) && HistoryOk(s) && LateOk(s) && IsOut(s, a)
    ensures var t := Next(s, step);
      || Stuck(t, c, a)
      || (IsOut(t, a) && (Newest(t, a) == Newest(s, a) || OutputLedger(t, a).Exceeded()))
  {
    hide Next, Newest, Base, HistoryOk, LateOk, Stuck, SteersLive;
    NewestStays(s, step, a);
    c := 0;
    if Resurrects(s, step, a) {
      ReturnIsStuck(s, step, a);
      c := step.action;
    } else {
      EndedStays(s, step, a);
      NextKeepsBase(s, step);
      BaseSlot(Next(s, step));
      StaysOut(s, Next(s, step), a);
    }
  }

  lemma BaseSlot(s: State)
    requires Base(s)
    ensures SlotOk(s)
  {
  }

  lemma StaysOut(s: State, t: State, a: Id)
    requires IsOut(s, a) && SameEnd(s, t, a) && SlotOk(t)
    ensures IsOut(t, a)
  {
  }

  lemma ExceededStays(registryVersion: int, steps: seq<Step>, later: seq<Step>, a: Id)
    requires a in Run(Init(registryVersion), steps).core.attempts && OutputLedger(Run(Init(registryVersion), steps), a).Exceeded()
    ensures var u := Run(Init(registryVersion), steps + later); a in u.core.attempts && OutputLedger(u, a).Exceeded()
  {
    hide Init, Next, Run, StepCharges;
    LedgerIsCharged(registryVersion, steps, a);
    LedgerIsCharged(registryVersion, steps + later, a);
    AttemptsStay(Init(registryVersion), steps, later, a);
    var more := ChargesGrow(Init(registryVersion), steps, later, a);
    OverflowIsSticky(Charges(Init(registryVersion), steps, a), more);
  }

  // ----- a terminal report that comes again -----

  // the step ended the attempt
  predicate Ends(s: State, t: State, a: Id) {
    a in s.core.attempts && a in t.core.attempts && !IsTerminal(s.core.attempts[a].state) && IsTerminal(t.core.attempts[a].state)
  }

  // what a terminal report that ended its attempt was like, and what it left
  predicate EndedBy(t: State, reference: AttemptRef, event: AdapterEvent) {
    var a := reference.attempt;
    && event.Terminal? && event.terminalEffects.Some? && !event.terminalEffects.value.Unknown?
    && (event.outcome.Completed? || event.outcome.Interrupted? || (event.outcome.Failed? && event.failure.Some?))
    && a in t.core.attempts && IsTerminal(t.core.attempts[a].state) && t.core.attempts[a].started && Reference(t, a) == reference
    && (a, Key.Terminal) in t.log.projected && t.log.projected[(a, Key.Terminal)] == TerminalDigest(t, a, event)
    && (event.outcome.Completed? && event.output.Some? ==> OutputMatches(t, a, event.output.value))
  }

  // the report, or another terminal one, is in the archive
  predicate TerminalArchived(s: State, a: Id, event: AdapterEvent) {
    || ProjectedAs(s, a, OfEvent(event))
    || (a, Key.Archive(Key.Terminal)) in s.log.projected
    || ArchivedUnder(s, a, Key.Archive(Key.Terminal))
  }

  // Nothing tells the report apart from the one that ended the attempt at t, or nothing may be recorded.
  predicate Recognized(t: State, u: State, a: Id, event: AdapterEvent)
    requires event.Terminal? && a in u.core.attempts
  {
    || !event.outcome.Completed?
    || Newest(u, a) == Newest(t, a)
    || TerminalArchived(u, a, event)
    || OutputLedger(u, a).Exceeded()
    || OutputBytes(event) > MAXIMUM_ATTEMPT_OUTPUT_BYTES
  }

  lemma TakenEnd(s: State, reference: AttemptRef, event: AdapterEvent, ids: Ids, t: State)
    requires event.Terminal? && t == ObserveAdapterEvent(s, reference, event, ids) && Ends(s, t, reference.attempt)
    ensures EndedBy(t, reference, event)
  {
    hide ArchiveEvent, ProjectTerminal, EndedBy;
    forall suppressed ensures !Ends(s, Else(ArchiveEvent(s, reference, event, suppressed, ids), s), reference.attempt) {
      ArchiveEndsNothing(s, reference, event, suppressed, ids);
    }
    assert ProjectEvent(s, reference, event, ids) == ProjectTerminal(s, reference, event, ids);
    TerminalTaken(s, reference, event, ids, t);
  }

  lemma ArchiveEndsNothing(s: State, reference: AttemptRef, event: AdapterEvent, suppressed: bool, ids: Ids)
    requires reference.attempt in s.core.attempts
    ensures !Ends(s, Else(ArchiveEvent(s, reference, event, suppressed, ids), s), reference.attempt)
  {
    hide Archivable, FindArchived, EmitLate;
    LateKeepsTables(s, reference, event, ids.marker);
  }

  lemma LateKeepsTables(s: State, reference: AttemptRef, event: AdapterEvent, marker: Id)
    ensures forall version, limited :: EmitLate(s, reference, event, version, limited, marker).core == s.core
    ensures forall version, limited :: EmitLate(s, reference, event, version, limited, marker).node == s.node
    ensures forall version, limited :: EmitLate(s, reference, event, version, limited, marker).log.late == s.log.late
  {
  }

  lemma TerminalTaken(s: State, reference: AttemptRef, event: AdapterEvent, ids: Ids, t: State)
    requires reference.attempt in s.core.attempts && event.Terminal?
    requires s.core.attempts[reference.attempt].started && Reference(s, reference.attempt) == reference
    requires ProjectTerminal(s, reference, event, ids) == Some(t) && Ends(s, t, reference.attempt)
    ensures EndedBy(t, reference, event)
  {
    hide ArchiveEvent, OutputMatches, ControlOwed, Newest;
    if ControlOwed(s, reference.attempt) || (event.terminalEffects.Some? && event.terminalEffects.value.Unknown?) {
      var s1 := SetAttemptUnknown(s, reference, Effects.Unknown).value;
      assert IsOver(s1.core.attempts[reference.attempt].state) && !IsTerminal(s1.core.attempts[reference.attempt].state);
      ArchiveEndsNothing(s1, reference, event, true, ids);
      assert false;
    } else {
      EndKeepsOutput(s, reference, event, t);
    }
  }

  lemma EndKeepsOutput(s: State, reference: AttemptRef, event: AdapterEvent, t: State)
    requires reference.attempt in s.core.attempts && event.Terminal? && event.terminalEffects.Some?
    requires EndAttempt(s, reference, event) == Some(t)
    ensures reference.attempt in t.core.attempts && Newest(t, reference.attempt) == Newest(s, reference.attempt)
    ensures event.output.Some? ==> OutputMatches(t, reference.attempt, event.output.value) == OutputMatches(s, reference.attempt, event.output.value)
  {
    hide Newest;
    assert t.core.messages == s.core.messages && t.log.late == s.log.late;
    SameNewest(s, t, reference.attempt);
  }

  // whether the archive finds what it compares with
  lemma EndIsKnown(t: State, u: State, reference: AttemptRef, event: AdapterEvent)
    requires EndedBy(t, reference, event) && Persists(t, u)
    requires OutputLedger(t, reference.attempt).Exceeded() ==> OutputLedger(u, reference.attempt).Exceeded()
    ensures var a := reference.attempt;
      && a in u.core.attempts
      && (EndedAs(u, a, event) ==> !event.outcome.Completed? || Newest(u, a) == Newest(t, a))
      && (!event.outcome.Completed? || Newest(u, a) == Newest(t, a) ==> EndedAs(u, a, event) || OutputLedger(u, a).Exceeded())
  {
    var a: Id := reference.attempt;
    if event.outcome.Completed? && event.output.Some? && Newest(u, a) == Newest(t, a) && !OutputLedger(u, a).Exceeded() {
      var m :| m in Newest(t, a) && t.core.messages[m].content == Some(event.output.value);
      assert m in Newest(u, a) && SameMessage(t.core.messages[m], u.core.messages[m]);
    }
  }

  lemma LookupOfEnd(u: State, a: Id, event: AdapterEvent, version: int)
    requires event.Terminal? && event.terminalEffects.Some?
    ensures FindArchived(u, a, event, version).Absent? <==> !EndedAs(u, a, event) && !TerminalArchived(u, a, event)
  {
    hide EndedAs, ProjectedAs;
  }

  // an event that is not found gets a late row if the budget allows it, here of an attempt that is over
  lemma ArchivedOrNot(u: State, reference: AttemptRef, event: AdapterEvent, suppressed: bool, ids: Ids)
    requires reference.attempt in u.core.attempts && IsOver(u.core.attempts[reference.attempt].state)
    requires Archivable(u, reference.attempt, event)
    ensures var a := reference.attempt; var v := Else(ArchiveEvent(u, reference, event, suppressed, ids), u);
      if FindArchived(u, a, event, u.core.attempts[a].version).Absent?
         && !OutputLedger(u, a).Exceeded() && OutputBytes(event) <= MAXIMUM_ATTEMPT_OUTPUT_BYTES
      then |v.log.late| == |u.log.late| + 1 else v == u
  {
    hide FindArchived, EmitLate, Archivable, OutputBytes;
    LateKeepsTables(u, reference, event, ids.marker);
  }

  lemma ArchivedAgainIff(t: State, u: State, reference: AttemptRef, event: AdapterEvent, suppressed: bool, ids: Ids)
    requires EndedBy(t, reference, event) && Persists(t, u) && reference.attempt in u.core.attempts && IsOver(u.core.attempts[reference.attempt].state)
    requires OutputLedger(t, reference.attempt).Exceeded() ==> OutputLedger(u, reference.attempt).Exceeded()
    ensures var v := Else(ArchiveEvent(u, reference, event, suppressed, ids), u);
      if Recognized(t, u, reference.attempt, event) then v == u else |v.log.late| == |u.log.late| + 1
  {
    hide ArchiveEvent, FindArchived, TerminalArchived, EndedAs, Newest, Persists, OutputMatches, OutputBytes, TerminalDigest;
    EndIsKnown(t, u, reference, event);
    LookupOfEnd(u, reference.attempt, event, u.core.attempts[reference.attempt].version);
    ArchivedOrNot(u, reference, event, suppressed, ids);
  }

  // the report finds its attempt out of the slot, or back in it with a control answer owed
  lemma DeliveredAgain(t: State, u: State, reference: AttemptRef, event: AdapterEvent, ids: Ids, c: Id)
    requires EndedBy(t, reference, event) && Persists(t, u) && (IsOut(u, reference.attempt) || Stuck(u, c, reference.attempt))
    ensures var a := reference.attempt;
      ObserveAdapterEvent(u, reference, event, ids)
      == if u.core.attempts[a].dialog in u.admin.tombstones then u
         else Else(ArchiveEvent(u, reference, event, Stuck(u, c, a), ids), u)
  {
    hide ArchiveEvent, ControlOwed, Unanswered, OutputMatches, TerminalDigest;
    var a: Id := reference.attempt;
    assert SameAttempt(t.core.attempts[a], u.core.attempts[a]);
    if Stuck(u, c, a) {
      UnansweredIsOwed(u, c, a);
    }
  }

  // A terminal report that ended its attempt, delivered again at any later point of any run, changes nothing
  // if the dialog was deleted or the report is recognized: it did not report a completion, or the attempt's
  // newest assistant message is still the one of its end, or a terminal report is archived, or the budget
  // does not allow the row. If not, and only then, it gets a late row.
  lemma EndDeliveredIff(registryVersion: int, steps: seq<Step>, later: seq<Step>, reference: AttemptRef, event: AdapterEvent, ids: Ids, again: Ids)
    requires event.Terminal?
    requires Ends(Run(Init(registryVersion), steps), Run(Init(registryVersion), steps + [Observe(reference, event, ids)]), reference.attempt)
    ensures var ending := steps + [Observe(reference, event, ids)]; var a := reference.attempt;
      var t := Run(Init(registryVersion), ending); var u := Run(Init(registryVersion), ending + later);
      && a in u.core.attempts
      && var v := Next(u, Observe(reference, event, again));
        if u.core.attempts[a].dialog in u.admin.tombstones || Recognized(t, u, a, event) then v == u
        else |v.log.late| == |u.log.late| + 1
  {
    hide Next, Init, Run, ObserveAdapterEvent, Persists, Recognized, Newest, Stuck, EndedBy;
    var ending := steps + [Observe(reference, event, ids)];
    var t, u := Run(Init(registryVersion), ending), Run(Init(registryVersion), ending + later);
    EndingStep(registryVersion, steps, reference, event, ids);
    RunAppends(Init(registryVersion), ending, later);
    RunPersists(t, later);
    StillThere(t, u, reference, event);
    if OutputLedger(t, reference.attempt).Exceeded() {
      ExceededStays(registryVersion, ending, later, reference.attempt);
    }
    var c := EndOrReturn(registryVersion, ending, later, reference.attempt);
    DeliveredAgain(t, u, reference, event, again, c);
    ObserveIs(u, reference, event, again);
    ArchivedAgainIff(t, u, reference, event, Stuck(u, c, reference.attempt), again);
  }

  lemma EndingStep(registryVersion: int, steps: seq<Step>, reference: AttemptRef, event: AdapterEvent, ids: Ids)
    requires event.Terminal?
    requires Ends(Run(Init(registryVersion), steps), Run(Init(registryVersion), steps + [Observe(reference, event, ids)]), reference.attempt)
    ensures var t := Run(Init(registryVersion), steps + [Observe(reference, event, ids)]);
      EndedBy(t, reference, event) && IsOut(t, reference.attempt)
  {
    hide Init, Next, ObserveAdapterEvent, EndedBy;
    var ending := steps + [Observe(reference, event, ids)];
    var s := Run(Init(registryVersion), steps);
    assert ending[..|steps|] == steps;
    ObserveIs(s, reference, event, ids);
    TakenEnd(s, reference, event, ids, Run(Init(registryVersion), ending));
    OneLiveAttempt(registryVersion, ending);
  }

  lemma StillThere(t: State, u: State, reference: AttemptRef, event: AdapterEvent)
    requires EndedBy(t, reference, event) && Persists(t, u)
    ensures reference.attempt in u.core.attempts && IsOver(u.core.attempts[reference.attempt].state)
  {
    var a: Id := reference.attempt;
    assert SameAttempt(t.core.attempts[a], u.core.attempts[a]);
  }

  // Unless the attempt has come back, the report changes nothing.
  lemma EndDeliveredOnce(registryVersion: int, steps: seq<Step>, later: seq<Step>, reference: AttemptRef, event: AdapterEvent, ids: Ids, again: Ids)
    requires event.Terminal?
    requires Ends(Run(Init(registryVersion), steps), Run(Init(registryVersion), steps + [Observe(reference, event, ids)]), reference.attempt)
    requires var u := Run(Init(registryVersion), steps + [Observe(reference, event, ids)] + later);
      reference.attempt in u.core.attempts && IsTerminal(u.core.attempts[reference.attempt].state)
    ensures var u := Run(Init(registryVersion), steps + [Observe(reference, event, ids)] + later);
      Next(u, Observe(reference, event, again)) == u
  {
    hide Next, Init, Run, Newest, EndedBy;
    EndingStep(registryVersion, steps, reference, event, ids);
    var c := EndOrReturn(registryVersion, steps + [Observe(reference, event, ids)], later, reference.attempt);
    EndDeliveredIff(registryVersion, steps, later, reference, event, ids, again);
  }

  // A terminal report that proves its effects ends the unknown holder of the slot if and only if no control
  // answer is owed for it.
  lemma UnknownEndsIff(s: State, reference: AttemptRef, ids: Ids)
    requires Addressed(s, reference) && HoldsUnknown(s, reference.attempt) && (reference.attempt, Key.Terminal) !in s.log.projected
    ensures var report := AdapterEvent.Terminal(Outcome.Interrupted, Some(Effects.Known), None, None, 0);
      var t := Next(s, Observe(reference, report, ids)); var a := reference.attempt;
      && a in t.core.attempts
      && (IsTerminal(t.core.attempts[a].state) <==> !ControlOwed(s, a))
  {
    hide ArchiveEvent, ControlOwed;
    var report := AdapterEvent.Terminal(Outcome.Interrupted, Some(Effects.Known), None, None, 0);
    ObserveIs(s, reference, report, ids);
    if ControlOwed(s, reference.attempt) {
      ArchiveEndsNothing(s, reference, report, true, ids);
      ArchiveKeepsRow(s, reference, report, true, ids);
    }
  }

  lemma ArchiveKeepsRow(s: State, reference: AttemptRef, event: AdapterEvent, suppressed: bool, ids: Ids)
    requires reference.attempt in s.core.attempts
    ensures reference.attempt in Else(ArchiveEvent(s, reference, event, suppressed, ids), s).core.attempts
  {
    hide Archivable, FindArchived, EmitLate;
    LateKeepsTables(s, reference, event, ids.marker);
  }
}
