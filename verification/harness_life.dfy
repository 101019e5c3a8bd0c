// The lives of a node: whatever is asked of the class, in whatever order, it goes through a run of the
// specification, so what holds in every run holds of the object.
module HarnessLife {
  import opened Common
  import opened OutputBudget
  import opened HarnessState
  import opened HarnessStep
  import opened HarnessInvariant
  import opened HarnessQuiescence
  import opened HarnessHoldHistory
  import opened HarnessSlot
  import opened HarnessPending
  import opened HarnessLedger
  import opened HarnessNode

  // what is true of a node at any moment of its life
  ghost predicate Sane(s: State) {
    && Base(s) && HoldsOk(s) && OutcomesOk(s)
    && (forall a :: a in s.core.attempts ==> (IsLive(s.core.attempts[a].state) <==> s.node.slot == Some(a)))
    && (forall c :: c in s.run.workers && (s.run.workers[c].Ready? || s.run.workers[c].Calling?) ==>
          c in s.core.attempts && !Held(s, s.core.attempts[c].dialog))
  }

  lemma RunIsSane(registryVersion: int, steps: seq<Step>)
    ensures Sane(Run(Init(registryVersion), steps))
  {
    hide Init, Next, Run, Base, HoldsOk;
    var s := Run(Init(registryVersion), steps);
    RunKeepsBase(registryVersion, steps);
    RunKeepsRules(registryVersion, steps);
    InitHasNoOutcomes(registryVersion);
    RunKeepsOutcomes(Init(registryVersion), steps);
    OneLiveAttempt(registryVersion, steps);
    forall c | c in s.run.workers && (s.run.workers[c].Ready? || s.run.workers[c].Calling?)
      ensures c in s.core.attempts && !Held(s, s.core.attempts[c].dialog)
    {
      NoStartUnderHold(registryVersion, steps, c);
    }
  }

  lemma InitHasNoOutcomes(registryVersion: int)
    ensures OutcomesOk(Init(registryVersion))
  {
  }

  // Any schedule of commands, holds, worker moves, adapter events, artifacts, reports and crashes.
  method Live(registryVersion: int, schedule: seq<Step>) returns (node: Node)
    ensures fresh(node) && node.View() == Run(Init(registryVersion), schedule)
    ensures Sane(node.View())
    ensures forall a :: a in node.core.attempts ==>
              OutputLedger(node.View(), a) == Charged(Charges(Init(registryVersion), schedule, a)).ledger
    ensures DeclaredRun(Init(registryVersion), schedule) ==> node.state.pendingCount == |QueuedSet(node.View())|
  {
    hide Init, Next, Sane;
    node := new Node(registryVersion);
    for i := 0 to |schedule|
      invariant fresh(node) && node.View() == Run(Init(registryVersion), schedule[..i])
    {
      node.Take(schedule[i]);
      assert schedule[..i + 1][..i] == schedule[..i];
    }
    assert schedule[..|schedule|] == schedule;
    RunIsSane(registryVersion, schedule);
    forall a | a in node.core.attempts
      ensures OutputLedger(node.View(), a) == Charged(Charges(Init(registryVersion), schedule, a)).ledger
    {
      LedgerIsCharged(registryVersion, schedule, a);
    }
    if DeclaredRun(Init(registryVersion), schedule) {
      PendingCountIsExact(registryVersion, schedule);
    }
  }
}
