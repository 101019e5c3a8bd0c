// Adapter events that are delivered again.
module HarnessDelivery {
  import opened Common
  import opened HarnessState
  import opened HarnessObserve
  import opened HarnessFrame
  import opened HarnessActions
  import opened HarnessStep
  import opened HarnessPersistence
  import opened HarnessSlot

  // ----- an adapter event is projected once -----

  // events whose projection key does not depend on the attempt's version
  predicate Keyed(event: AdapterEvent) {
    !event.Terminal? && !event.UnknownReport? && !event.Waiting?
  }

  // A second event under a key that was projected changes nothing, whatever it carries.
  lemma KeyedOnce(s: State, reference: AttemptRef, event: AdapterEvent, ids: Ids)
    requires Keyed(event) && (reference.attempt, LiveKey(event, 0)) in s.log.projected
    ensures ObserveAdapterEvent(s, reference, event, ids) == s
  {
    var key := LiveKey(event, 0);
    assert forall v :: LiveKey(event, v) == key;
    if reference.attempt in s.core.attempts {
      KeyedIsNotArchived(s, reference, event, ids);
      KeyedIsNotProjected(s, reference, event, ids);
    }
  }

  lemma KeyedIsNotArchived(s: State, reference: AttemptRef, event: AdapterEvent, ids: Ids)
    requires reference.attempt in s.core.attempts
    requires Keyed(event) && (reference.attempt, LiveKey(event, 0)) in s.log.projected
    ensures forall suppressed :: Else(ArchiveEvent(s, reference, event, suppressed, ids), s) == s
  {
    var version := s.core.attempts[reference.attempt].version;
    assert LiveKey(event, version) == LiveKey(event, 0);
    assert !FindArchived(s, reference.attempt, event, version).Absent?;
  }

  lemma KeyedIsNotProjected(s: State, reference: AttemptRef, event: AdapterEvent, ids: Ids)
    requires reference.attempt in s.core.attempts
    requires Keyed(event) && (reference.attempt, LiveKey(event, 0)) in s.log.projected
    ensures Else(ProjectEvent(s, reference, event, ids), s) == s
  {
  }

  // an attempt that once waited never runs again, so no later wait is a new one
  ghost predicate WaitsOk(s: State) {
    forall k :: k in s.log.projected && k.1.Waiting? ==> PastStart(s, k.0)
  }

  lemma PersistsKeepsWaits(s: State, t: State)
    requires WaitsOk(s) && Persists(s, t)
    ensures WaitsOk(t)
  {
  }

  lemma WaitedOnce(s: State, reference: AttemptRef, event: AdapterEvent, version: int, ids: Ids)
    requires WaitsOk(s) && event.Waiting?
    requires (reference.attempt, Key.Waiting(version)) in s.log.projected
    requires s.log.projected[(reference.attempt, Key.Waiting(version))] == OfEvent(event)
    ensures ObserveAdapterEvent(s, reference, event, ids) == s
  {
    assert ProjectedAs(s, reference.attempt, OfEvent(event));
  }

  // Delivering again an event that was projected live, at any later point of any run, changes nothing.
  // (Reports of unknown execution have no projection row and follow below; terminal ones have another digest.)
  lemma DeliveredOnce(registryVersion: int, steps: seq<Step>, later: seq<Step>, reference: AttemptRef, event: AdapterEvent, version: int, ids: Ids)
    requires !event.Terminal? && !event.UnknownReport?
    requires var s := Run(Init(registryVersion), steps); var key := (reference.attempt, LiveKey(event, version));
      key in s.log.projected && s.log.projected[key] == OfEvent(event)
    ensures var u := Run(Run(Init(registryVersion), steps), later);
      Next(u, Observe(reference, event, ids)) == u
  {
    hide Next, Init, ObserveAdapterEvent, Run;
    var s := Run(Init(registryVersion), steps);
    var u := Run(s, later);
    RunPersists(s, later);
    RunKeepsWaits(registryVersion, steps);
    PersistsKeepsWaits(s, u);
    ObserveIs(u, reference, event, ids);
    if event.Waiting? {
      WaitedOnce(u, reference, event, version, ids);
    } else {
      KeyedOnce(u, reference, event, ids);
    }
  }

  lemma ObserveIs(s: State, reference: AttemptRef, event: AdapterEvent, ids: Ids)
    ensures Next(s, Observe(reference, event, ids)) == ObserveAdapterEvent(s, reference, event, ids)
  {
    hide ObserveAdapterEvent;
  }

  lemma {:induction false} RunKeepsWaits(registryVersion: int, steps: seq<Step>)
    ensures WaitsOk(Run(Init(registryVersion), steps))
  {
    RunPersists(Init(registryVersion), steps);
    PersistsKeepsWaits(Init(registryVersion), Run(Init(registryVersion), steps));
  }

  // ----- a report of unknown execution -----

  // the event is neither for a deleted dialog nor for another attempt
  predicate Addressed(s: State, reference: AttemptRef) {
    && reference.attempt in s.core.attempts && s.core.attempts[reference.attempt].dialog !in s.admin.tombstones
    && s.core.attempts[reference.attempt].started && Reference(s, reference.attempt) == reference
  }

  predicate HoldsSlot(s: State, a: Id) {
    s.node.slot == Some(a) && a in s.core.attempts && IsLive(s.core.attempts[a].state)
  }

  // the report, or another report of unknown execution, is in the archive
  predicate ReportArchived(s: State, a: Id, effects: Effects) {
    || ProjectedAs(s, a, OfEvent(AdapterEvent.UnknownReport(effects)))
    || (a, Key.Archive(Key.Unknown)) in s.log.projected
    || ArchivedUnder(s, a, Key.Archive(Key.Unknown))
  }

  // In any state a report of unknown execution changes nothing if and only if it is not addressed to an
  // attempt of this node, or finds its attempt unknown in the slot (or refused by another live one), or
  // outside the slot finds itself archived or the budget spent.
  lemma ReportIgnoredIff(s: State, reference: AttemptRef, effects: Effects, ids: Ids)
    ensures var a := reference.attempt;
      Next(s, Observe(reference, AdapterEvent.UnknownReport(effects), ids)) == s <==>
        || !Addressed(s, reference)
        || (if HoldsSlot(s, a) then s.core.attempts[a].state.Unknown? || OtherLive(s, a)
            else ReportArchived(s, a, effects) || OutputLedger(s, a).Exceeded())
  {
    hide SetAttemptUnknown, ArchiveEvent;
    var report := AdapterEvent.UnknownReport(effects);
    ObserveIs(s, reference, report, ids);
    if Addressed(s, reference) {
      if HoldsSlot(s, reference.attempt) {
        LiveReport(s, reference, effects);
      } else {
        LateReport(s, reference, effects, ids);
      }
    }
  }

  lemma LiveReport(s: State, reference: AttemptRef, effects: Effects)
    requires Addressed(s, reference)
    ensures var r := SetAttemptUnknown(s, reference, effects); var a := reference.attempt;
      && (Else(r, s) == s <==> s.core.attempts[a].state.Unknown? || OtherLive(s, a))
      && (Else(r, s) != s ==> a in Else(r, s).core.attempts && Else(r, s).core.attempts[a].state.Unknown?)
  {
    if !s.core.attempts[reference.attempt].state.Unknown? && !OtherLive(s, reference.attempt) {
      assert |SetAttemptUnknown(s, reference, effects).value.log.events| == |s.log.events| + 2;
    }
  }

  lemma LateReport(s: State, reference: AttemptRef, effects: Effects, ids: Ids)
    requires Addressed(s, reference)
    ensures var r := ArchiveEvent(s, reference, AdapterEvent.UnknownReport(effects), false, ids); var a := reference.attempt;
      && (Else(r, s) == s <==> ReportArchived(s, a, effects) || OutputLedger(s, a).Exceeded())
      && (Else(r, s) != s ==> |Else(r, s).log.events| == |s.log.events| + 1 && |Else(r, s).log.late| == |s.log.late| + 1)
  {
    hide ScheduleOutputLimitStop;
  }

  // A report that was taken live, delivered again at any later point of any run, changes nothing if and
  // only if its attempt is still the unknown holder of the slot, or its dialog was deleted, or such a
  // report is archived, or the attempt's budget is spent. Otherwise it is archived as a late event.
  lemma ReportDeliveredAgainIff(registryVersion: int, steps: seq<Step>, later: seq<Step>, reference: AttemptRef, effects: Effects, ids: Ids, again: Ids)
    requires var s := Run(Init(registryVersion), steps); Addressed(s, reference) && HoldsSlot(s, reference.attempt)
    ensures var report := AdapterEvent.UnknownReport(effects); var a := reference.attempt;
      var u := Run(Next(Run(Init(registryVersion), steps), Observe(reference, report, ids)), later);
      && a in u.core.attempts
      && (Next(u, Observe(reference, report, again)) == u <==>
            || (u.node.slot == Some(a) && u.core.attempts[a].state.Unknown?)
            || u.core.attempts[a].dialog in u.admin.tombstones
            || ReportArchived(u, a, effects) || OutputLedger(u, a).Exceeded())
  {
    hide Next, Init, Run, ObserveAdapterEvent, ReportArchived, Persists;
    var s := Run(Init(registryVersion), steps);
    var t := Next(s, Observe(reference, AdapterEvent.UnknownReport(effects), ids));
    var u := Run(t, later);
    OneLiveAttempt(registryVersion, steps);
    TakenReport(s, reference, effects, ids);
    RunPersists(t, later);
    StillAddressed(t, u, reference);
    ReportIgnoredIff(u, reference, effects, again);
  }

  lemma TakenReport(s: State, reference: AttemptRef, effects: Effects, ids: Ids)
    requires Addressed(s, reference) && HoldsSlot(s, reference.attempt) && LiveHoldsSlot(s)
    ensures var t := Next(s, Observe(reference, AdapterEvent.UnknownReport(effects), ids)); var a := reference.attempt;
      && a in t.core.attempts && t.core.attempts[a].state.Unknown? && t.core.attempts[a].started && Reference(t, a) == reference
  {
    hide Next, ArchiveEvent;
    ObserveIs(s, reference, AdapterEvent.UnknownReport(effects), ids);
    assert !OtherLive(s, reference.attempt);
  }

  lemma StillAddressed(t: State, u: State, reference: AttemptRef)
    requires Persists(t, u) && reference.attempt in t.core.attempts && t.core.attempts[reference.attempt].state.Unknown?
    requires t.core.attempts[reference.attempt].started && Reference(t, reference.attempt) == reference
    ensures var a := reference.attempt;
      && a in u.core.attempts && u.core.attempts[a].started && Reference(u, a) == reference && IsOver(u.core.attempts[a].state)
  {
    var a: Id := reference.attempt;
    assert SameAttempt(t.core.attempts[a], u.core.attempts[a]);
  }
}
