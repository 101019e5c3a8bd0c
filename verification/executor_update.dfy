// The host executor updater: a journal, the executor's files replaced one by one, and the service that
// runs them (scripts/update-component-executor.py). A process may die at any effect, and whatever it
// leaves has to be accepted by the next one.
module ExecutorUpdate {
  import opened Common

  // a file is its digest; -1 is a file that is missing
  type Digest = int

  datatype Phase =
    Prepared | DefaultDisabled | ServiceStopped | RecoveryComplete | Installing | ReplacePending
    | FilesInstalled | ImportsVerified | DefaultEnabled | Complete

  datatype Record = Record(phase: Phase, index: nat, targets: seq<Digest>, priors: seq<Digest>)

  datatype Machine = Machine(files: seq<Digest>, enabled: bool, running: bool)

  // ----- what the next process checks -----

  predicate Replacing(phase: Phase) {
    phase.Installing? || phase.ReplacePending?
  }

  // validate_record_shape
  predicate Shaped(r: Record, n: nat) {
    && |r.targets| == n && |r.priors| == n
    && (!Replacing(r.phase) ==> r.index == 0)
  }

  // validate_files
  predicate FilesMatch(r: Record, files: seq<Digest>)
    requires Shaped(r, |files|)
  {
    if r.phase.Prepared? || r.phase.DefaultDisabled? || r.phase.ServiceStopped? || r.phase.RecoveryComplete? then files == r.priors
    else if r.phase.FilesInstalled? || r.phase.ImportsVerified? || r.phase.DefaultEnabled? || r.phase.Complete? then files == r.targets
    else
      && r.index < |files|
      && forall i :: 0 <= i < |files| ==>
           if i < r.index then files[i] == r.targets[i]
           else files[i] == r.priors[i] || (r.phase.ReplacePending? && i == r.index && files[i] == r.targets[i])
  }

  // the service check of validate_record
  predicate ServiceMatches(r: Record, enabled: bool) {
    r.phase.Prepared? || r.phase.ImportsVerified? || enabled == (r.phase.DefaultEnabled? || r.phase.Complete?)
  }

  // validate_record for a process that brings these targets
  predicate Validates(r: Record, m: Machine, expected: seq<Digest>) {
    Shaped(r, |m.files|) && r.targets == expected && FilesMatch(r, m.files) && ServiceMatches(r, m.enabled)
  }

  // ----- what holds whenever a process may die -----

  predicate Stopped(phase: Phase) {
    phase.ServiceStopped? || phase.RecoveryComplete? || phase.Installing? || phase.ReplacePending? || phase.FilesInstalled?
  }

  // importable are the sets of files whose modules can be imported
  ghost predicate Sound(journal: Option<Record>, m: Machine, importable: set<seq<Digest>>) {
    journal.Some? ==>
      var r := journal.value;
      && Shaped(r, |m.files|) && FilesMatch(r, m.files)
      && ServiceMatches(r, m.enabled)
      && (Stopped(r.phase) ==> !m.enabled && !m.running)
      && (r.phase.Complete? ==> m.enabled && m.running)
      && (r.phase.ImportsVerified? || r.phase.DefaultEnabled? || r.phase.Complete? ==> r.targets in importable)
  }

  // An enabled or running service always finds a whole set of files, never a mixture: the old ones, or new ones
  // that can be imported.
  lemma ServiceRunsAWholeSet(r: Record, m: Machine, importable: set<seq<Digest>>)
    requires Sound(Some(r), m, importable) && (m.enabled || m.running)
    ensures m.files == r.priors || (m.files == r.targets && r.targets in importable)
  {
  }

  // Every state a process can leave passes the validation of the next one that brings the same files,
  // and, where the journal still allows other files, the checks made before it is retargeted.
  lemma CrashStatesValidate(r: Record, m: Machine, importable: set<seq<Digest>>)
    requires Sound(Some(r), m, importable)
    ensures Validates(r, m, r.targets)
    ensures r.phase.ServiceStopped? ==> !m.enabled && !m.running && m.files == r.priors
  {
  }

  // Nothing weaker would do: a mixture of files passes validation exactly while the service is stopped.
  lemma MixturesAreStopped(r: Record, m: Machine, importable: set<seq<Digest>>)
    requires Sound(Some(r), m, importable) && m.files != r.priors && m.files != r.targets
    ensures Replacing(r.phase) && !m.enabled && !m.running
  {
  }

  datatype Outcome = Updated | Refused | Interrupted

  class Transaction {
    var journal: Option<Record>
    var machine: Machine
    // an uninterrupted process: every command succeeds
    var reliable: bool
    // files that an older executor may not have had
    const optional: set<int>
    // file sets whose modules import
    const importable: set<seq<Digest>>

    constructor (files: seq<Digest>, serviceEnabled: bool, serviceRunning: bool, mayBeMissing: set<int>, sound: set<seq<Digest>>)
      requires |files| > 0
      ensures journal.None? && machine == Machine(files, serviceEnabled, serviceRunning) && Inv()
      ensures optional == mayBeMissing && importable == sound
    {
      journal := None;
      machine := Machine(files, serviceEnabled, serviceRunning);
      reliable := true;
      optional := mayBeMissing;
      importable := sound;
    }

    ghost predicate Inv()
      reads this
    {
      |machine.files| > 0 && Sound(journal, machine, importable)
    }

    // ----- effects: one that fails or is cut short may still have happened -----

    // atomic_json(JOURNAL, record)
    method Persist(record: Record) returns (ok: bool)
      requires Inv() && Sound(Some(record), machine, importable)
      modifies this`journal
      ensures Inv() && (journal == old(journal) || journal == Some(record))
      ensures ok ==> journal == Some(record)
      ensures reliable ==> ok
    {
      ok := Attempted(reliable);
      var landed := *;
      if ok || landed {
        journal := Some(record);
      }
    }

    // a service command: `enabled` and `running` are what it works toward
    method Command(enabled: bool, running: bool) returns (ok: bool)
      requires Inv() && Sound(journal, machine.(enabled := enabled, running := running), importable)
      modifies this`machine
      ensures Inv() && (machine == old(machine) || machine == old(machine).(enabled := enabled, running := running))
      ensures ok ==> machine == old(machine).(enabled := enabled, running := running)
      ensures reliable ==> ok
    {
      ok := Attempted(reliable);
      var landed := *;
      if ok || landed {
        machine := machine.(enabled := enabled, running := running);
      }
    }

    // atomic_file(EXECUTOR / name, content)
    method ReplaceFile(index: nat, digest: Digest) returns (ok: bool)
      requires Inv() && journal.Some? && journal.value.phase.ReplacePending? && journal.value.index == index
      requires index < |machine.files| && digest == journal.value.targets[index]
      modifies this`machine
      ensures Inv()
      ensures machine == old(machine) || machine == old(machine).(files := old(machine).files[index := digest])
      ensures ok ==> machine == old(machine).(files := old(machine).files[index := digest])
      ensures reliable ==> ok
    {
      ok := Attempted(reliable);
      var landed := *;
      if ok || landed {
        machine := machine.(files := machine.files[index := digest]);
      }
    }

    // a new process meets the machine as a reboot may have left it
    method Reboot()
      requires Inv()
      modifies this`machine
      ensures Inv() && machine == old(machine).(running := old(machine).enabled)
    {
      machine := machine.(running := machine.enabled);
    }

    // ----- prepare and retarget -----

    // whether this process can take the journal up: it brings the journalled files, or the journal
    // still allows others, or there is none and the service is in the default runlevel
    predicate Admissible(expected: seq<Digest>)
      reads this
    {
      && |expected| == |machine.files|
      && match journal
         case Some(r) => r.targets == expected || r.phase.ServiceStopped?
         case None => machine.enabled && forall i :: 0 <= i < |machine.files| ==> machine.files[i] != -1 || i in optional
    }

    // no file is replaced yet, and none will be before the ledger is seen idle
    predicate BeforeReplacing()
      reads this
    {
      journal.None? || journal.value.phase.Prepared? || journal.value.phase.DefaultDisabled? || journal.value.phase.ServiceStopped?
      || journal.value.phase.RecoveryComplete?
    }

    method Prepare(expected: seq<Digest>) returns (ok: bool)
      requires Inv() && |expected| == |machine.files|
      modifies this`journal
      ensures Inv()
      ensures ok ==> journal.Some? && journal.value.targets == expected
      ensures BeforeReplacing() == old(BeforeReplacing())
      ensures old(Admissible(expected)) ==> Admissible(expected)
      ensures reliable && old(Admissible(expected)) ==> ok
      ensures !old(Admissible(expected)) ==> !ok && journal == old(journal)
    {
      if journal.Some? {
        var r := journal.value;
        if r.targets != expected {
          if !r.phase.ServiceStopped? || machine.enabled || machine.running {
            return false;
          }
          ok := Persist(r.(targets := expected));
          return;
        }
        return Validates(r, machine, expected);
      }
      if !machine.enabled || exists i :: 0 <= i < |machine.files| && machine.files[i] == -1 && i !in optional {
        return false;
      }
      ok := Persist(Record(Prepared, 0, expected, machine.files));
    }

    // ----- install -----

    method Install() returns (ok: bool)
      requires Inv() && journal.Some?
      requires var phase := journal.value.phase; phase.RecoveryComplete? || Replacing(phase) || phase.FilesInstalled?
      modifies this
      ensures Inv() && reliable == old(reliable)
      ensures journal.Some? && journal.value.targets == old(journal).value.targets && journal.value.priors == old(journal).value.priors
      ensures |machine.files| == old(|machine.files|)
      ensures ok ==> journal.value.phase.FilesInstalled?
      ensures old(reliable) ==> ok
    {
      ghost var targets, priors, n := journal.value.targets, journal.value.priors, |machine.files|;
      if journal.value.phase.RecoveryComplete? {
        if machine.enabled || machine.running {
          return false;
        }
        ok := Persist(journal.value.(phase := Installing, index := 0));
        if !ok {
          return;
        }
      }
      while Replacing(journal.value.phase)
        invariant Inv() && reliable == old(reliable) && |machine.files| == n
        invariant journal.Some? && journal.value.targets == targets && journal.value.priors == priors
        invariant Replacing(journal.value.phase) || journal.value.phase.FilesInstalled?
        decreases if Replacing(journal.value.phase) then n - journal.value.index else 0
      {
        ok := InstallOne();
        if !ok {
          return;
        }
      }
      ok := true;
    }

    // one turn of the loop: the file at the journalled index, then the next index
    method InstallOne() returns (ok: bool)
      requires Inv() && journal.Some? && Replacing(journal.value.phase)
      modifies this
      ensures Inv() && reliable == old(reliable) && |machine.files| == old(|machine.files|)
      ensures journal.Some? && journal.value.targets == old(journal).value.targets && journal.value.priors == old(journal).value.priors
      ensures ok ==>
        || (journal.value.phase.Installing? && journal.value.index == old(journal).value.index + 1)
        || journal.value.phase.FilesInstalled?
      ensures old(reliable) ==> ok
    {
      var index := journal.value.index;
      if index == 0 && (machine.enabled || machine.running) {
        return false;
      }
      if journal.value.phase.Installing? {
        ok := Persist(journal.value.(phase := ReplacePending, index := index));
        if !ok {
          return;
        }
      }
      ok := ReplaceFile(index, journal.value.targets[index]);
      if !ok {
        return;
      }
      if index + 1 == |machine.files| {
        assert machine.files == journal.value.targets;
        ok := Persist(journal.value.(phase := FilesInstalled, index := 0));
      } else {
        ok := Persist(journal.value.(phase := Installing, index := index + 1));
      }
    }

    // ----- run -----

    // idle is the answer of the recovery, or of the check that nothing is pending
    method Run(expected: seq<Digest>, idle: bool) returns (outcome: Outcome)
      requires Inv() && |expected| == |machine.files|
      modifies this
      ensures Inv() && |machine.files| == old(|machine.files|)
      ensures old(BeforeReplacing()) && !idle ==> !outcome.Updated? && machine.files == old(machine.files) && BeforeReplacing()
      ensures outcome.Updated? ==> expected in importable
      ensures outcome.Updated? ==> journal.Some? && journal.value.phase.Complete? && machine == Machine(expected, true, true)
      ensures !old(Admissible(expected)) ==> outcome.Refused? && journal == old(journal) && machine == old(machine)
      ensures old(Admissible(expected)) ==> Admissible(expected)
      ensures old(reliable) && old(Admissible(expected)) && (idle || !old(BeforeReplacing())) && expected in importable ==> outcome.Updated?
    {
      var ok := Prepare(expected);
      if !ok {
        return if Admissible(expected) then Interrupted else Refused;
      }
      if journal.value.phase.Complete? {
        return Updated;
      }
      ok := StopService();
      if !ok {
        return Interrupted;
      }
      if journal.value.phase.ServiceStopped? || journal.value.phase.RecoveryComplete? {
        ok := RequireIdle(idle);
        if !ok {
          return Interrupted;
        }
      }
      if journal.value.phase.RecoveryComplete? || Replacing(journal.value.phase) {
        ok := Install();
        if !ok {
          return Interrupted;
        }
      }
      assert journal.value.targets == expected;
      ok := StartService();
      return if ok then Updated else Interrupted;
    }

    method RequireIdle(idle: bool) returns (ok: bool)
      requires Inv() && journal.Some? && (journal.value.phase.ServiceStopped? || journal.value.phase.RecoveryComplete?)
      modifies this`journal
      ensures Inv() && BeforeReplacing() && journal.Some? && journal.value.targets == old(journal).value.targets
      ensures ok ==> idle && journal.value.phase.RecoveryComplete?
      ensures !idle ==> journal == old(journal)
      ensures reliable && idle ==> ok
    {
      ok := Attempted(reliable);
      if !ok || !idle {
        return false;
      }
      if journal.value.phase.ServiceStopped? {
        ok := Persist(journal.value.(phase := RecoveryComplete));
      }
    }

    method StopService() returns (ok: bool)
      requires Inv() && journal.Some? && !journal.value.phase.Complete?
      modifies this
      ensures Inv() && reliable == old(reliable) && |machine.files| == old(|machine.files|)
      ensures journal.Some? && journal.value.targets == old(journal).value.targets && !journal.value.phase.Complete?
      ensures ok ==> !journal.value.phase.Prepared? && !journal.value.phase.DefaultDisabled?
      ensures machine.files == old(machine.files) && BeforeReplacing() == old(BeforeReplacing())
      ensures old(reliable) ==> ok
    {
      if journal.value.phase.Prepared? {
        ok := Command(false, machine.running);
        if ok {
          ok := Persist(journal.value.(phase := DefaultDisabled));
        }
        if !ok {
          return;
        }
      }
      if journal.value.phase.DefaultDisabled? {
        ok := Command(machine.enabled, false);
        if ok {
          ok := Persist(journal.value.(phase := ServiceStopped));
        }
        if !ok {
          return;
        }
      }
      ok := true;
    }

    method StartService() returns (ok: bool)
      requires Inv() && journal.Some?
      requires var phase := journal.value.phase; phase.FilesInstalled? || phase.ImportsVerified? || phase.DefaultEnabled?
      modifies this
      ensures Inv() && reliable == old(reliable) && |machine.files| == old(|machine.files|)
      ensures journal.Some? && journal.value.targets == old(journal).value.targets
      ensures ok ==> journal.value.phase.Complete? && machine.enabled && machine.running && machine.files in importable
      ensures old(reliable) && old(machine).files in importable ==> ok
    {
      if journal.value.phase.FilesInstalled? {
        // import_installed
        ok := Attempted(reliable);
        if !ok || machine.files !in importable {
          return false;
        }
        ok := Persist(journal.value.(phase := ImportsVerified));
        if !ok {
          return;
        }
      }
      if journal.value.phase.ImportsVerified? {
        ok := Command(true, machine.running);
        if ok {
          ok := Persist(journal.value.(phase := DefaultEnabled));
        }
        if !ok {
          return;
        }
      }
      ok := Command(machine.enabled, true);
      if ok {
        ok := Persist(journal.value.(phase := Complete));
      }
    }

    // Any number of processes, of which any may be interrupted anywhere or find the ledger busy, with reboots between
    // them: every one of them leaves a state the next accepts, and one uninterrupted process that finds it idle
    // finishes, if the new files can be imported.
    method Update(expected: seq<Digest>, idle: seq<bool>) returns (outcome: Outcome)
      requires Inv() && Admissible(expected)
      modifies this
      ensures Inv()
      ensures expected in importable ==> outcome.Updated? && machine == Machine(expected, true, true)
      ensures expected !in importable ==> !outcome.Updated?
    {
      ghost var n := |machine.files|;
      for i := 0 to |idle|
        invariant Inv() && Admissible(expected) && |machine.files| == n
      {
        reliable := false;
        outcome := Run(expected, idle[i]);
        var rebooted := *;
        if rebooted {
          Reboot();
        }
      }
      reliable := true;
      outcome := Run(expected, true);
    }
  }
}
