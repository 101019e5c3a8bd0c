// The enrolment of a component: files replaced in a fixed order, rolled back in the reverse order, and
// a route activated once all of them are the target's (scripts/enroll_codex_component_cd.py).
module Enrolment {
  import opened Common

  type Digest = int

  // ----- the staircase -----

  // the first k files in the order are the target's, the others the source's
  function Stair(source: seq<Digest>, target: seq<Digest>, k: nat): (r: seq<Digest>)
    requires |source| == |target| && k <= |source|
    ensures |r| == |source|
    ensures forall i :: 0 <= i < |r| ==> r[i] == if i < k then target[i] else source[i]
  {
    target[..k] + source[k..]
  }

  ghost predicate OnStaircase(source: seq<Digest>, target: seq<Digest>, files: seq<Digest>)
    requires |source| == |target|
  {
    exists k: nat :: k <= |source| && files == Stair(source, target, k)
  }

  // the first i + 1 stairs
  function Stairs(source: seq<Digest>, target: seq<Digest>, i: nat): set<seq<Digest>>
    requires |source| == |target| && i <= |source|
  {
    if i == 0 then {Stair(source, target, 0)} else Stairs(source, target, i - 1) + {Stair(source, target, i)}
  }

  lemma {:induction false} StairsUpTo(source: seq<Digest>, target: seq<Digest>, i: nat, files: seq<Digest>)
    requires |source| == |target| && i <= |source|
    ensures files in Stairs(source, target, i) <==> exists k: nat :: k <= i && files == Stair(source, target, k)
  {
    hide Stair;
    if i > 0 {
      StairsUpTo(source, target, i - 1, files);
      if files == Stair(source, target, i) {
        assert i <= i && files == Stair(source, target, i);
      }
    }
  }

  lemma FirstStair(source: seq<Digest>, target: seq<Digest>)
    requires |source| == |target|
    ensures Stair(source, target, 0) == source && Stairs(source, target, 0) == {source}
  {
    assert Stair(source, target, 0) == source;
  }

  lemma NextStair(source: seq<Digest>, target: seq<Digest>, i: nat)
    requires |source| == |target| && i < |source|
    ensures Stair(source, target, i)[i := target[i]] == Stair(source, target, i + 1)
    ensures Stairs(source, target, i + 1) == Stairs(source, target, i) + {Stair(source, target, i + 1)}
  {
  }

  // the whole set is the staircase
  lemma StairsAreTheStaircase(source: seq<Digest>, target: seq<Digest>, files: seq<Digest>)
    requires |source| == |target|
    ensures files in Stairs(source, target, |source|) <==> OnStaircase(source, target, files)
  {
    StairsUpTo(source, target, |source|, files);
  }

  lemma EndsOfStaircase(source: seq<Digest>, target: seq<Digest>)
    requires |source| == |target|
    ensures Stair(source, target, 0) == source && Stair(source, target, |source|) == target
    ensures OnStaircase(source, target, source) && OnStaircase(source, target, target)
  {
    assert source == Stair(source, target, 0);
    assert target == Stair(source, target, |source|);
  }

  // Replacing, in order, the first file that is not the target's goes one step up.
  lemma StepUp(source: seq<Digest>, target: seq<Digest>, files: seq<Digest>, i: nat)
    requires |source| == |target| && OnStaircase(source, target, files) && i < |source|
    requires forall j :: 0 <= j < i ==> files[j] == target[j]
    ensures OnStaircase(source, target, files[i := target[i]])
  {
    var k: nat :| k <= |source| && files == Stair(source, target, k);
    var next := files[i := target[i]];
    if i < k {
      assert next == files;
    } else {
      assert next == Stair(source, target, i + 1);
    }
  }

  // Restoring, in reverse order, the last file that is not the source's goes one step down.
  lemma StepDown(source: seq<Digest>, target: seq<Digest>, files: seq<Digest>, i: nat)
    requires |source| == |target| && OnStaircase(source, target, files) && i < |source|
    requires forall j :: i < j < |source| ==> files[j] == source[j]
    ensures OnStaircase(source, target, files[i := source[i]])
  {
    var k: nat :| k <= |source| && files == Stair(source, target, k);
    var next := files[i := source[i]];
    if k <= i {
      assert next == files;
    } else {
      assert next == Stair(source, target, i);
    }
  }

  // ----- the journal -----

  datatype Direction = Target | Rollback

  datatype Phase = Prepared | Replaced(count: nat) | ActivationPending | Completed

  datatype State = State(direction: Direction, phase: Phase)

  datatype Outcome = Finished | Refused | Interrupted

  class Enrolment {
    const source: seq<Digest>
    const target: seq<Digest>
    var files: seq<Digest>
    var journal: State
    // the component's route has left the sealed state it was planned in; nothing seals it again
    var activated: bool
    // an uninterrupted process: every effect succeeds
    var reliable: bool

    constructor (before: seq<Digest>, after: seq<Digest>)
      requires |before| == |after|
      ensures Inv() && source == before && target == after && files == before && !activated
    {
      source := before;
      target := after;
      files := before;
      journal := State(Target, Prepared);
      activated := false;
      reliable := true;
      new;
      EndsOfStaircase(source, target);
    }

    // Whenever a process may die the files are on the staircase, and an activated component has all
    // its files and a journal that says so.
    ghost predicate Inv()
      reads this
    {
      && |source| == |target| && OnStaircase(source, target, files)
      && (activated ==> files == target && journal.direction.Target? && (journal.phase.ActivationPending? || journal.phase.Completed?))
      && (journal.direction.Target? && journal.phase.Completed? ==> activated)
      && Counted(journal, files)
    }

    // the files a journal counts as replaced are: the first ones of a target run, the last ones of a rollback
    predicate Counted(state: State, files: seq<Digest>)
      requires |source| == |target| == |files|
    {
      state.phase.Replaced? ==>
        && state.phase.count <= |files|
        && (state.direction.Target? ==> forall j :: 0 <= j < state.phase.count ==> files[j] == target[j])
        && (state.direction.Rollback? ==> forall j :: |files| - state.phase.count <= j < |files| ==> files[j] == source[j])
    }

    // require_known_matrix: the set of file states that a run may leave
    method KnownMatrix() returns (known: set<seq<Digest>>)
      requires |source| == |target|
      ensures known == Stairs(source, target, |source|)
    {
      var value := source;
      known := {value};
      hide Stair, Stairs;
      FirstStair(source, target);
      for i := 0 to |target|
        invariant value == Stair(source, target, i) && known == Stairs(source, target, i)
      {
        NextStair(source, target, i);
        value := value[i := target[i]];
        known := known + {value};
      }
    }

    method UpdateState(direction: Direction, phase: Phase) returns (ok: bool)
      requires Inv() && (activated ==> direction.Target? && (phase.ActivationPending? || phase.Completed?))
      requires (direction.Target? && phase.Completed? ==> activated) && Counted(State(direction, phase), files)
      modifies this`journal
      ensures Inv() && (journal == old(journal) || journal == State(direction, phase))
      ensures ok ==> journal == State(direction, phase)
      ensures reliable ==> ok
    {
      ok := Attempted(reliable);
      var landed := *;
      if ok || landed {
        journal := State(direction, phase);
      }
    }

    // replace_file, with the reading back of all the files that follows it
    method ReplaceFile(i: nat, digest: Digest) returns (ok: bool)
      requires Inv() && i < |files| && OnStaircase(source, target, files[i := digest]) && !activated
      requires Counted(journal, files[i := digest])
      modifies this`files
      ensures Inv() && (files == old(files) || files == old(files)[i := digest])
      ensures ok ==> files == old(files)[i := digest]
      ensures reliable ==> ok
    {
      ok := Attempted(reliable);
      var landed := *;
      if ok || landed {
        files := files[i := digest];
      }
      var known := KnownMatrix();
      StairsAreTheStaircase(source, target, files);
      if files !in known {
        assert false;
      }
    }

    // require_known_matrix at the start of execute accepts whatever earlier processes left
    method Guard() returns (ok: bool)
      requires Inv()
      ensures ok
    {
      var known := KnownMatrix();
      StairsAreTheStaircase(source, target, files);
      ok := files in known;
    }

    method Execute(direction: Direction) returns (outcome: Outcome)
      requires Inv()
      modifies this
      ensures Inv() && reliable == old(reliable)
      ensures direction.Target? && outcome.Finished? ==> files == target && activated && journal == State(Target, Completed)
      ensures direction.Rollback? && outcome.Finished? ==> files == source && !activated && journal == State(Rollback, Completed)
      ensures old(activated) ==> activated && files == target
      ensures outcome.Refused? <==> direction.Rollback? && old(activated)
      ensures outcome.Refused? ==> journal == old(journal) && files == old(files)
      ensures direction.Rollback? ==> activated == old(activated)
      ensures old(reliable) && !outcome.Refused? ==> outcome.Finished?
    {
      var known := Guard();
      if !known {
        return Refused;
      }
      var ok: bool;
      if direction.Rollback? {
        // require_sealed_for_rollback
        if activated {
          return Refused;
        }
        ok := Descend();
        return if ok then Finished else Interrupted;
      }
      var resume := journal.direction.Target? && (journal.phase.ActivationPending? || journal.phase.Completed?) && files == target;
      if !resume {
        ok := Ascend();
        if !ok {
          return Interrupted;
        }
      }
      ok := Activate(!resume || journal.phase.ActivationPending?);
      return if ok then Finished else Interrupted;
    }

    // the target run: first to last
    method Ascend() returns (ok: bool)
      requires Inv() && !activated
      modifies this`files, this`journal
      ensures Inv()
      ensures ok ==> files == target && journal == State(Target, if |files| == 0 then Prepared else Replaced(|files|))
      ensures reliable ==> ok
    {
      ok := UpdateState(Target, Prepared);
      var i := 0;
      while ok && i < |files|
        invariant Inv() && 0 <= i <= |files| && (reliable ==> ok)
        invariant ok ==> forall j :: 0 <= j < i ==> files[j] == target[j]
        invariant ok ==> journal == State(Target, if i == 0 then Prepared else Replaced(i))
      {
        ok := Advance(i);
        i := i + 1;
      }
    }

    // the next file of a target run, if it is not the target's yet
    method Advance(i: nat) returns (ok: bool)
      requires Inv() && !activated && i < |files| && forall j :: 0 <= j < i ==> files[j] == target[j]
      requires journal == State(Target, if i == 0 then Prepared else Replaced(i))
      modifies this`files, this`journal
      ensures Inv() && |files| == old(|files|)
      ensures ok ==> (forall j :: 0 <= j <= i ==> files[j] == target[j]) && journal == State(Target, Replaced(i + 1))
      ensures reliable ==> ok
    {
      ok := true;
      if files[i] != target[i] {
        StepUp(source, target, files, i);
        ok := ReplaceFile(i, target[i]);
      }
      if ok {
        ok := UpdateState(Target, Replaced(i + 1));
      }
    }

    // the rollback run: last to first
    method Descend() returns (ok: bool)
      requires Inv() && !activated
      modifies this`files, this`journal
      ensures Inv()
      ensures ok ==> files == source && journal == State(Rollback, Completed)
      ensures reliable ==> ok
    {
      ok := UpdateState(Rollback, Prepared);
      var i := |files|;
      while ok && i > 0
        invariant Inv() && 0 <= i <= |files| && (reliable ==> ok)
        invariant ok ==> forall j :: i <= j < |files| ==> files[j] == source[j]
        invariant ok ==> journal == State(Rollback, if i == |files| then Prepared else Replaced(|files| - i))
      {
        i := i - 1;
        ok := Retreat(i);
      }
      if ok {
        ok := UpdateState(Rollback, Completed);
      }
    }

    // the next file of a rollback, if it is not the source's yet
    method Retreat(i: nat) returns (ok: bool)
      requires Inv() && !activated && i < |files| && forall j :: i < j < |files| ==> files[j] == source[j]
      requires journal == State(Rollback, if i + 1 == |files| then Prepared else Replaced(|files| - i - 1))
      modifies this`files, this`journal
      ensures Inv() && |files| == old(|files|)
      ensures ok ==> (forall j :: i <= j < |files| ==> files[j] == source[j]) && journal == State(Rollback, Replaced(|files| - i))
      ensures reliable ==> ok
    {
      ok := true;
      if files[i] != source[i] {
        StepDown(source, target, files, i);
        ok := ReplaceFile(i, source[i]);
      }
      if ok {
        ok := UpdateState(Rollback, Replaced(|files| - i));
      }
    }

    // activate_codex: only with all files in place, and journalled before the request
    method Activate(persistPending: bool) returns (ok: bool)
      requires Inv() && files == target
      requires !persistPending ==> journal == State(Target, Completed)
      modifies this`journal, this`activated
      ensures Inv() && (old(activated) ==> activated)
      ensures ok ==> activated && journal == State(Target, Completed)
      ensures reliable ==> ok
    {
      ok := true;
      if persistPending {
        ok := UpdateState(Target, ActivationPending);
      }
      if ok && !activated {
        ok := Attempted(reliable);
        var landed := *;
        if ok || landed {
          activated := true;
        }
      }
      if ok {
        ok := UpdateState(Target, Completed);
      }
    }

    // Any sequence of target and rollback runs, each interrupted where it may be, and a last one that
    // is not: it ends exactly at the end it was asked for, unless the component was activated before.
    method Operate(directions: seq<Direction>, last: Direction) returns (outcome: Outcome)
      requires Inv()
      modifies this
      ensures Inv()
      ensures last.Target? ==> outcome.Finished? && files == target && activated
      ensures last.Rollback? ==> if activated then outcome.Refused? && files == target else outcome.Finished? && files == source
    {
      reliable := false;
      for i := 0 to |directions|
        invariant Inv() && !reliable
      {
        outcome := Execute(directions[i]);
      }
      reliable := true;
      outcome := Execute(last);
    }
  }
}
