// The files behind artifact rows: published, committed and cleaned up by concurrent calls, and
// reconciled with the rows before a node starts (harness/node/artifact.go,
// harness/node/artifact_recovery.go). A machine can stop between any two effects.
module ArtifactFiles {
  import opened Common
  import RowSets

  type Id = int
  type Content = int

  // a name under artifacts/: a UUID, a UUID as ".<uuid>.tmp", or anything else
  datatype Name = Final(id: Id) | Temporary(id: Id) | Other(text: int)

  // plain: a regular private file of the owner, the only kind that is ever removed
  datatype File = File(bytes: Content, plain: bool)

  datatype Stage = Opened | Written | Synced | Renamed | Published | Leaving

  // a call of StoreArtifact under way
  datatype Call = Call(bytes: Content, stage: Stage)

  const EMPTY: Content := 0

  // failing are the removals the file system refuses, synced says whether the directory can be synced
  datatype Step =
    | Create(id: Id, bytes: Content) | Write(id: Id) | SyncFile(id: Id) | Rename(id: Id) | SyncDirectory(id: Id)
    | CommitRow(id: Id, took: bool) | CommitMarker(id: Id, acknowledged: bool) | Fail(id: Id)
    | RemoveTemporary(id: Id) | RemoveFinal(id: Id) | Leave(id: Id, synced: bool)
    | PowerLoss(survivors: map<Name, File>) | Kill | Start(failing: set<Name>, synced: bool)

  // files is the directory as the running system sees it; what is in the two sets may not survive a power loss.
  // rows are the committed rows, a row's size and digest standing for its bytes; issued is every id handed out;
  // bound says that the ingress is bound to a node that has reconciled its files.
  datatype Disk = Disk(files: map<Name, File>, unsyncedBytes: set<Name>, unsyncedNames: set<Name>,
                       rows: map<Id, Content>, calls: map<Id, Call>, issued: set<Id>, bound: bool)

  const NEW_DISK := Disk(map[], {}, {}, map[], map[], {}, false)

  // ----- what holds at any moment -----

  predicate Durable(d: Disk, name: Name) {
    name in d.files && name !in d.unsyncedBytes && name !in d.unsyncedNames
  }

  // a committed row names a durable file with its exact bytes
  predicate RowHolds(d: Disk, id: Id)
    requires id in d.rows
  {
    id in d.issued && id !in d.calls && Durable(d, Final(id)) && d.files[Final(id)] == File(d.rows[id], true)
  }

  predicate CallHolds(d: Disk, id: Id)
    requires id in d.calls
  {
    var call := d.calls[id];
    && id in d.issued && id !in d.rows
    && (call.stage.Written? || call.stage.Synced? ==>
          Temporary(id) in d.files && d.files[Temporary(id)] == File(call.bytes, true))
    && (call.stage.Opened? ==> Temporary(id) in d.files && d.files[Temporary(id)].plain)
    && (call.stage.Synced? ==> Temporary(id) !in d.unsyncedBytes)
    && (call.stage.Renamed? || call.stage.Published? ==>
          Final(id) in d.files && d.files[Final(id)] == File(call.bytes, true) && Final(id) !in d.unsyncedBytes)
    && (call.stage.Published? ==> Final(id) !in d.unsyncedNames)
  }

  ghost predicate Sound(d: Disk) {
    && (forall id :: id in d.rows ==> RowHolds(d, id))
    && (forall id :: id in d.calls ==> CallHolds(d, id))
    && (d.calls != map[] ==> d.bound)
  }

  // ----- the steps -----

  predicate At(d: Disk, id: Id, stage: Stage) {
    id in d.calls && d.calls[id].stage == stage
  }

  function Moved(d: Disk, id: Id, stage: Stage): map<Id, Call>
    requires id in d.calls
  {
    d.calls[id := Call(d.calls[id].bytes, stage)]
  }

  // what was not synced is left to chance
  predicate MaySurvive(d: Disk, survivors: map<Name, File>) {
    && (forall name :: name in d.files && name !in d.unsyncedNames ==> name in survivors)
    && (forall name :: name in survivors ==> name in d.files || name in d.unsyncedNames)
    && (forall name :: name in survivors && Durable(d, name) ==> survivors[name] == d.files[name])
  }

  // a name the reconciliation removes: a UUID no row names, or a temporary
  predicate Orphan(d: Disk, name: Name) {
    (name.Final? && name.id !in d.rows) || name.Temporary?
  }

  // every orphan can be removed, and the directory synced if there was one
  predicate Recovers(d: Disk, failing: set<Name>, synced: bool) {
    && (forall name :: name in d.files && Orphan(d, name) ==> d.files[name].plain && name !in failing)
    && ((exists name :: name in d.files && Orphan(d, name)) ==> synced)
  }

  // A reconciliation removes plain orphans and nothing else. One that comes to its end leaves none and opens the
  // ingress; any other leaves it shut.
  ghost predicate Reconciled(d: Disk, failing: set<Name>, synced: bool, e: Disk) {
    && e == d.(files := e.files, unsyncedNames := e.unsyncedNames, bound := Recovers(d, failing, synced))
    && (forall name :: name in e.files ==> name in d.files && e.files[name] == d.files[name])
    && (forall name :: name in d.files && name !in e.files ==> Orphan(d, name) && d.files[name].plain && name !in failing)
    && (Recovers(d, failing, synced) ==>
          && (forall name :: name in e.files ==> !Orphan(d, name))
          && e.unsyncedNames == if exists name :: name in d.files && Orphan(d, name) then {} else d.unsyncedNames)
    && (!Recovers(d, failing, synced) ==>
          forall name :: name in e.unsyncedNames <==> name in d.unsyncedNames || (name in d.files && name !in e.files))
  }

  // One step of any call, or of the machine; a step that cannot be taken changes nothing.
  ghost predicate Stepped(d: Disk, step: Step, e: Disk) {
    match step
    case Create(id, bytes) =>
      if d.bound && id !in d.issued && Temporary(id) !in d.files then
        e == d.(files := d.files[Temporary(id) := File(EMPTY, true)], unsyncedBytes := d.unsyncedBytes + {Temporary(id)},
                unsyncedNames := d.unsyncedNames + {Temporary(id)}, calls := d.calls[id := Call(bytes, Opened)], issued := d.issued + {id})
      else e == d
    case Write(id) =>
      if At(d, id, Opened) then
        e == d.(files := d.files[Temporary(id) := File(d.calls[id].bytes, true)], unsyncedBytes := d.unsyncedBytes + {Temporary(id)},
                calls := Moved(d, id, Written))
      else e == d
    case SyncFile(id) =>
      if At(d, id, Written) then e == d.(unsyncedBytes := d.unsyncedBytes - {Temporary(id)}, calls := Moved(d, id, Synced)) else e == d
    // the bytes were synced under the old name and come along
    case Rename(id) =>
      if At(d, id, Synced) && Temporary(id) in d.files then
        e == d.(files := (d.files - {Temporary(id)})[Final(id) := d.files[Temporary(id)]], unsyncedBytes := d.unsyncedBytes - {Final(id)},
                unsyncedNames := d.unsyncedNames + {Temporary(id), Final(id)}, calls := Moved(d, id, Renamed))
      else e == d
    case SyncDirectory(id) => if At(d, id, Renamed) then e == d.(unsyncedNames := {}, calls := Moved(d, id, Published)) else e == d
    // the outcome may be unknown, so the files stay whatever the commit answers
    case CommitRow(id, took) =>
      if At(d, id, Published) then e == d.(calls := d.calls - {id}, rows := if took then d.rows[id := d.calls[id].bytes] else d.rows) else e == d
    // a transaction that only marks the exceeded ledger: acknowledged, its bytes are cleaned up
    case CommitMarker(id, acknowledged) =>
      if At(d, id, Published) then e == d.(calls := if acknowledged then Moved(d, id, Leaving) else d.calls - {id}) else e == d
    case Fail(id) => if id in d.calls then e == d.(calls := Moved(d, id, Leaving)) else e == d
    case RemoveTemporary(id) => if At(d, id, Leaving) then Removed(d, Temporary(id), e) else e == d
    case RemoveFinal(id) => if At(d, id, Leaving) then Removed(d, Final(id), e) else e == d
    case Leave(id, synced) =>
      if At(d, id, Leaving) then e == d.(calls := d.calls - {id}, unsyncedNames := if synced then {} else d.unsyncedNames) else e == d
    case PowerLoss(survivors) =>
      if MaySurvive(d, survivors) then e == d.(files := survivors, unsyncedBytes := {}, unsyncedNames := {}, calls := map[], bound := false)
      else e == d
    case Kill => e == d.(calls := map[], bound := false)
    case Start(failing, synced) => if d.bound then e == d else Reconciled(d, failing, synced, e)
  }

  ghost predicate Removed(d: Disk, name: Name, e: Disk) {
    e == if name in d.files then d.(files := d.files - {name}, unsyncedNames := d.unsyncedNames + {name}) else d
  }

  // the call a step belongs to
  predicate BelongsTo(step: Step, id: Id) {
    !step.PowerLoss? && !step.Kill? && !step.Start? && step.id == id
  }

  predicate MachineStops(step: Step) {
    step.PowerLoss? || step.Kill?
  }

  predicate Grows(before: map<Id, Content>, after: map<Id, Content>) {
    forall id :: id in before ==> id in after && after[id] == before[id]
  }

  lemma IsSound(d: Disk, id: Id)
    requires Sound(d)
    ensures id in d.calls ==> CallHolds(d, id)
    ensures id in d.rows ==> RowHolds(d, id)
  {
  }

  // Every step keeps the rows, each on durable bytes.
  lemma StepKeeps(d: Disk, step: Step, e: Disk)
    requires Sound(d) && Stepped(d, step, e)
    ensures Sound(e) && Grows(d.rows, e.rows) && d.issued <= e.issued
  {
    if step.PowerLoss? || step.Kill? || step.Start? {
      MachineKeeps(d, step, e);
    } else if step.Create? || step.Write? || step.SyncFile? || step.Rename? || step.SyncDirectory? {
      PublishingKeeps(d, step, e);
    } else {
      EndingKeeps(d, step, e);
    }
  }

  lemma MachineKeeps(d: Disk, step: Step, e: Disk)
    requires Sound(d) && Stepped(d, step, e) && (step.PowerLoss? || step.Kill? || step.Start?)
    ensures Sound(e) && Grows(d.rows, e.rows) && d.issued <= e.issued
  {
  }

  lemma PublishingKeeps(d: Disk, step: Step, e: Disk)
    requires Sound(d) && Stepped(d, step, e) && (step.Create? || step.Write? || step.SyncFile? || step.Rename? || step.SyncDirectory?)
    ensures Sound(e) && Grows(d.rows, e.rows) && d.issued <= e.issued
  {
  }

  lemma EndingKeeps(d: Disk, step: Step, e: Disk)
    requires Sound(d) && Stepped(d, step, e)
    requires step.CommitRow? || step.CommitMarker? || step.Fail? || step.RemoveTemporary? || step.RemoveFinal? || step.Leave?
    ensures Sound(e) && Grows(d.rows, e.rows) && d.issued <= e.issued
  {
  }

  // What the others do to a call and its names: nothing, unless the machine stops, which ends the call.
  lemma StepLeavesOthers(d: Disk, step: Step, e: Disk, id: Id)
    requires Sound(d) && Stepped(d, step, e) && id in d.issued && !BelongsTo(step, id)
    ensures id in e.rows <==> id in d.rows
    ensures id in e.calls ==> id in d.calls && e.calls[id] == d.calls[id] && SameNames(d, e, id)
    ensures id in d.calls && !MachineStops(step) ==> id in e.calls
  {
  }

  predicate SameNames(d: Disk, e: Disk, id: Id) {
    (Temporary(id) in e.files <==> Temporary(id) in d.files) && (Final(id) in e.files <==> Final(id) in d.files)
  }

  // Once a reconciliation is through, the names of the directory are the committed ids and foreign names.
  lemma ReconciledNames(d: Disk, failing: set<Name>, synced: bool, e: Disk, id: Id)
    requires Sound(d) && Reconciled(d, failing, synced, e) && e.bound
    ensures (Final(id) in e.files <==> id in e.rows) && Temporary(id) !in e.files
  {
    if id in d.rows {
      assert RowHolds(d, id);
    }
  }

  lemma OneMoreGone(d: Disk, gone: set<Name>, name: Name)
    ensures (d.files - gone) - {name} == d.files - (gone + {name})
    ensures (d.unsyncedNames + gone) + {name} == d.unsyncedNames + (gone + {name})
  {
  }

  predicate Removable(d: Disk, name: Name, failing: set<Name>) {
    name in d.files && Orphan(d, name) && d.files[name].plain && name !in failing
  }

  // a reconciliation that met an orphan it could not remove
  lemma PartlyReconciled(d: Disk, failing: set<Name>, synced: bool, gone: set<Name>, name: Name)
    requires !d.bound && (forall n :: n in gone ==> Removable(d, n, failing))
    requires name in d.files && Orphan(d, name) && !Removable(d, name, failing)
    ensures !Recovers(d, failing, synced)
    ensures Reconciled(d, failing, synced, d.(files := d.files - gone, unsyncedNames := d.unsyncedNames + gone))
  {
  }

  // one that removed them all
  lemma WhollyReconciled(d: Disk, failing: set<Name>, synced: bool, gone: set<Name>)
    requires !d.bound && (forall n :: n in gone ==> Removable(d, n, failing))
    requires forall n :: n in d.files && n !in gone ==> !Orphan(d, n)
    ensures Recovers(d, failing, synced) <==> (gone != {} ==> synced)
    ensures var e := d.(files := d.files - gone, unsyncedNames := d.unsyncedNames + gone);
      Reconciled(d, failing, synced, if !Recovers(d, failing, synced) then e
                                     else if gone == {} then e.(bound := true) else e.(unsyncedNames := {}, bound := true))
  {
    if gone != {} {
      var n :| n in gone;
      assert Removable(d, n, failing);
    }
  }

  // the states of a run, one more than its steps
  ghost predicate Ran(trace: seq<Disk>, schedule: seq<Step>) {
    |trace| == |schedule| + 1 && forall i :: 0 <= i < |schedule| ==> Stepped(trace[i], schedule[i], trace[i + 1])
  }

  // In every state of a run the rows so far are there, each on durable bytes.
  lemma {:induction false} RunKeeps(trace: seq<Disk>, schedule: seq<Step>, i: nat, j: nat)
    requires Ran(trace, schedule) && i <= j < |trace| && Sound(trace[i])
    ensures Sound(trace[j]) && Grows(trace[i].rows, trace[j].rows) && trace[i].issued <= trace[j].issued
  {
    hide Stepped, Sound;
    if i < j {
      RunKeeps(trace, schedule, i, j - 1);
      StepKeeps(trace[j - 1], schedule[j - 1], trace[j]);
    }
  }

  // And a call that has begun, with its names, is left alone by a run of the others; a machine that does not stop
  // leaves it under way.
  lemma {:induction false} RunLeavesOthers(trace: seq<Disk>, schedule: seq<Step>, id: Id, j: nat)
    requires Ran(trace, schedule) && j < |trace| && Sound(trace[0]) && id in trace[0].issued
    requires forall k :: 0 <= k < |schedule| ==> !BelongsTo(schedule[k], id)
    ensures id in trace[j].rows <==> id in trace[0].rows
    ensures id in trace[j].calls ==> id in trace[0].calls && trace[j].calls[id] == trace[0].calls[id] && SameNames(trace[0], trace[j], id)
    ensures id in trace[0].calls && (forall k :: 0 <= k < |schedule| ==> !MachineStops(schedule[k])) ==> id in trace[j].calls
  {
    hide Stepped, Sound;
    if j > 0 {
      RunLeavesOthers(trace, schedule, id, j - 1);
      RunKeeps(trace, schedule, 0, j - 1);
      StepLeavesOthers(trace[j - 1], schedule[j - 1], trace[j], id);
    }
  }

  // ----- the volume and the calls -----

  datatype Outcome = Stored | Refused | Unknown | Interrupted

  // what goes wrong for one call: the effects that fail, then the transaction, and the removals of its cleanup
  datatype Luck = Luck(failing: set<nat>, refused: bool, exceeded: bool, marked: bool, took: bool, acknowledged: bool,
                       removal: Removal)

  datatype Removal = Removal(temporary: bool, final: bool, synced: bool)

  // how a call that is not interrupted ends
  function Expected(luck: Luck): Outcome {
    if (exists effect :: effect in luck.failing && effect < 4) || luck.refused || luck.exceeded then Refused
    else if luck.acknowledged then Stored else Unknown
  }

  // it is refused, and not because a marker's commit went unanswered
  predicate CleansUp(luck: Luck) {
    || (exists effect :: effect in luck.failing && effect < 4) || luck.refused
    || (luck.exceeded && (luck.marked ==> luck.acknowledged))
  }

  // what the others do between its effects, and between the steps of its cleanup
  predicate ByOthers(schedules: seq<seq<Step>>, id: Id) {
    forall k :: 0 <= k < |schedules| ==> NotOf(schedules[k], id)
  }

  predicate NotOf(schedule: seq<Step>, id: Id) {
    forall i :: 0 <= i < |schedule| ==> !BelongsTo(schedule[i], id)
  }

  predicate Uninterrupted(schedules: seq<seq<Step>>) {
    forall k :: 0 <= k < |schedules| ==> KeepsRunning(schedules[k])
  }

  predicate KeepsRunning(schedule: seq<Step>) {
    forall i :: 0 <= i < |schedule| ==> !MachineStops(schedule[i])
  }

  class Volume {
    var files: map<Name, File>
    var unsyncedBytes: set<Name>
    var unsyncedNames: set<Name>
    var rows: map<Id, Content>
    var calls: map<Id, Call>
    var issued: set<Id>
    var bound: bool

    function View(): Disk
      reads this
    {
      Disk(files, unsyncedBytes, unsyncedNames, rows, calls, issued, bound)
    }

    ghost predicate Valid()
      reads this
    {
      Sound(View())
    }

    constructor ()
      ensures Valid() && View() == NEW_DISK
    {
      files, rows, calls := map[], map[], map[];
      unsyncedBytes, unsyncedNames, issued := {}, {}, {};
      bound := false;
    }

    // ----- the effects of one call -----

    method DoCreate(id: Id, bytes: Content)
      requires bound && id !in issued && Temporary(id) !in files
      modifies this
      ensures Stepped(old(View()), Create(id, bytes), View())
    {
      files := files[Temporary(id) := File(EMPTY, true)];
      unsyncedBytes, unsyncedNames := unsyncedBytes + {Temporary(id)}, unsyncedNames + {Temporary(id)};
      calls, issued := calls[id := Call(bytes, Opened)], issued + {id};
    }

    method DoWrite(id: Id)
      requires id in calls && calls[id].stage.Opened?
      modifies this
      ensures Stepped(old(View()), Write(id), View())
    {
      files := files[Temporary(id) := File(calls[id].bytes, true)];
      unsyncedBytes := unsyncedBytes + {Temporary(id)};
      calls := calls[id := calls[id].(stage := Written)];
    }

    method DoSyncFile(id: Id)
      requires id in calls && calls[id].stage.Written?
      modifies this
      ensures Stepped(old(View()), SyncFile(id), View())
    {
      unsyncedBytes := unsyncedBytes - {Temporary(id)};
      calls := calls[id := calls[id].(stage := Synced)];
    }

    method DoRename(id: Id)
      requires Valid() && id in calls && calls[id].stage.Synced?
      modifies this
      ensures Stepped(old(View()), Rename(id), View())
    {
      assert CallHolds(View(), id);
      files := (files - {Temporary(id)})[Final(id) := files[Temporary(id)]];
      unsyncedBytes := unsyncedBytes - {Final(id)};
      unsyncedNames := unsyncedNames + {Temporary(id), Final(id)};
      calls := calls[id := calls[id].(stage := Renamed)];
    }

    method DoSyncDirectory(id: Id)
      requires id in calls && calls[id].stage.Renamed?
      modifies this
      ensures Stepped(old(View()), SyncDirectory(id), View())
    {
      unsyncedNames := {};
      calls := calls[id := calls[id].(stage := Published)];
    }

    method DoCommitRow(id: Id, took: bool)
      requires id in calls && calls[id].stage.Published?
      modifies this
      ensures Stepped(old(View()), CommitRow(id, took), View())
    {
      if took {
        rows := rows[id := calls[id].bytes];
      }
      calls := calls - {id};
    }

    method DoCommitMarker(id: Id, acknowledged: bool)
      requires id in calls && calls[id].stage.Published?
      modifies this
      ensures Stepped(old(View()), CommitMarker(id, acknowledged), View())
    {
      calls := if acknowledged then calls[id := calls[id].(stage := Leaving)] else calls - {id};
    }

    method DoFail(id: Id)
      requires id in calls
      modifies this
      ensures Stepped(old(View()), Fail(id), View())
    {
      calls := calls[id := calls[id].(stage := Leaving)];
    }

    method DoRemove(id: Id, name: Name)
      requires id in calls && calls[id].stage.Leaving?
      modifies this
      ensures Removed(old(View()), name, View())
    {
      if name in files {
        files, unsyncedNames := files - {name}, unsyncedNames + {name};
      }
    }

    // the directory is synced if it can be
    method DoLeave(id: Id, synced: bool)
      requires id in calls && calls[id].stage.Leaving?
      modifies this
      ensures Stepped(old(View()), Leave(id, synced), View())
    {
      if synced {
        unsyncedNames := {};
      }
      calls := calls - {id};
    }

    // ----- the machine stops -----

    method DoPowerLoss(survivors: map<Name, File>)
      requires MaySurvive(View(), survivors)
      modifies this
      ensures Stepped(old(View()), PowerLoss(survivors), View())
    {
      files, calls, bound := survivors, map[], false;
      unsyncedBytes, unsyncedNames := {}, {};
    }

    method DoKill()
      modifies this
      ensures Stepped(old(View()), Kill, View())
    {
      calls, bound := map[], false;
    }

    // ----- reconcileArtifactFiles -----

    method CommittedIds() returns (committed: set<Id>)
      ensures committed == rows.Keys
    {
      committed := {};
      var left := rows.Keys;
      while left != {}
        invariant left <= rows.Keys && committed == rows.Keys - left
        decreases |left|
      {
        var id := RowSets.AnyOf(left);
        committed, left := committed + {id}, left - {id};
      }
    }

    // Orphans are removed one by one; the first that is unsafe or cannot be removed ends it, and so does a
    // directory that cannot be synced.
    method Reconcile(failing: set<Name>, synced: bool) returns (done: bool)
      requires !bound
      modifies this`files, this`unsyncedNames
      ensures done == Recovers(old(View()), failing, synced)
      ensures Reconciled(old(View()), failing, synced, View().(bound := done))
    {
      hide Reconciled, Recovers;
      var safe, removed, gone, left := RemoveOrphans(failing);
      if !safe {
        PartlyReconciled(old(View()), failing, synced, gone, left);
        return false;
      }
      WhollyReconciled(old(View()), failing, synced, gone);
      done := !removed || synced;
      if removed && synced {
        unsyncedNames := {};
      }
    }

    method DropOrphan(name: Name)
      modifies this`files, this`unsyncedNames
      ensures files == old(files) - {name} && unsyncedNames == old(unsyncedNames) + {name}
    {
      files, unsyncedNames := files - {name}, unsyncedNames + {name};
    }

    // gone are the names it removed, left the one it could not remove if it is not safe
    method RemoveOrphans(failing: set<Name>) returns (safe: bool, removed: bool, ghost gone: set<Name>, ghost left: Name)
      modifies this`files, this`unsyncedNames
      ensures files == old(files) - gone && unsyncedNames == old(unsyncedNames) + gone && (removed <==> gone != {})
      ensures forall name :: name in gone ==> Removable(old(View()), name, failing)
      ensures safe ==> forall name :: name in old(files) && name !in gone ==> !Orphan(old(View()), name)
      ensures !safe ==> left in old(files) && Orphan(old(View()), left) && !Removable(old(View()), left, failing)
    {
      ghost var d := View();
      var committed := CommittedIds();
      var entries := files.Keys;
      safe, removed, gone, left := true, false, {}, Other(0);
      while entries != {} && safe
        invariant entries <= d.files.Keys && entries !! gone
        invariant files == d.files - gone && unsyncedNames == d.unsyncedNames + gone
        invariant forall name :: name in gone ==> Removable(d, name, failing)
        invariant safe ==> forall name :: name in d.files && name !in gone && name !in entries ==> !Orphan(d, name)
        invariant !safe ==> left in d.files && Orphan(d, left) && !Removable(d, left, failing)
        invariant removed <==> gone != {}
        decreases |entries|
      {
        var name := RowSets.AnyOf(entries);
        entries := entries - {name};
        if !(name.Final? && name.id in committed) && !name.Other? {
          if !files[name].plain || name in failing {
            safe, left := false, name;
          } else {
            OneMoreGone(d, gone, name);
            DropOrphan(name);
            gone, removed := gone + {name}, true;
          }
        }
      }
    }

    method DoStart(failing: set<Name>, synced: bool) returns (started: bool)
      requires Valid() && !bound
      modifies this`files, this`unsyncedNames, this`bound
      ensures Stepped(old(View()), Start(failing, synced), View()) && bound == started == Recovers(old(View()), failing, synced)
      ensures started ==> forall id :: (Final(id) in files <==> id in rows) && Temporary(id) !in files
    {
      started := Reconcile(failing, synced);
      bound := started;
      if started {
        forall id ensures (Final(id) in files <==> id in rows) && Temporary(id) !in files {
          ReconciledNames(old(View()), failing, synced, View(), id);
        }
      }
    }

    // ----- any interleaving -----

    // One step of any call, or of the machine.
    method Take(step: Step)
      requires Valid()
      modifies this
      ensures Valid() && Stepped(old(View()), step, View())
    {
      hide Sound, Reconciled, Recovers, MaySurvive;
      match step {
        case Create(id, bytes) => if bound && id !in issued && Temporary(id) !in files { DoCreate(id, bytes); }
        case Write(id) => if id in calls && calls[id].stage.Opened? { DoWrite(id); }
        case SyncFile(id) => if id in calls && calls[id].stage.Written? { DoSyncFile(id); }
        case Rename(id) => if id in calls && calls[id].stage.Synced? { DoRename(id); }
        case SyncDirectory(id) => if id in calls && calls[id].stage.Renamed? { DoSyncDirectory(id); }
        case CommitRow(id, took) => if id in calls && calls[id].stage.Published? { DoCommitRow(id, took); }
        case CommitMarker(id, acknowledged) => if id in calls && calls[id].stage.Published? { DoCommitMarker(id, acknowledged); }
        case Fail(id) => if id in calls { DoFail(id); }
        case RemoveTemporary(id) => if id in calls && calls[id].stage.Leaving? { DoRemove(id, Temporary(id)); }
        case RemoveFinal(id) => if id in calls && calls[id].stage.Leaving? { DoRemove(id, Final(id)); }
        case Leave(id, synced) => if id in calls && calls[id].stage.Leaving? { DoLeave(id, synced); }
        case PowerLoss(survivors) => if MaySurvive(View(), survivors) { DoPowerLoss(survivors); }
        case Kill => DoKill();
        case Start(failing, synced) => if !bound { var _ := DoStart(failing, synced); }
      }
      StepKeeps(old(View()), step, View());
    }

    // Any schedule of steps, in its order.
    method TakeAll(schedule: seq<Step>) returns (ghost trace: seq<Disk>)
      requires Valid()
      modifies this
      ensures Valid() && Ran(trace, schedule) && trace[0] == old(View()) && trace[|schedule|] == View()
    {
      trace := [View()];
      for i := 0 to |schedule|
        invariant Valid() && Ran(trace, schedule[..i]) && trace[0] == old(View()) && trace[i] == View()
      {
        Take(schedule[i]);
        assert schedule[..i + 1][..i] == schedule[..i];
        trace := trace + [View()];
      }
      assert schedule[..|schedule|] == schedule;
    }

    // Whatever the others do while a call is between two of its effects.
    method Others(schedule: seq<Step>, mine: Id)
      requires Valid() && mine in issued && NotOf(schedule, mine)
      modifies this
      ensures Valid() && Grows(old(rows), rows) && old(issued) <= issued
      ensures mine in rows <==> mine in old(rows)
      ensures mine in calls ==> mine in old(calls) && calls[mine] == old(calls)[mine] && SameNames(old(View()), View(), mine)
      ensures mine in old(calls) && KeepsRunning(schedule) ==> mine in calls
    {
      ghost var trace := TakeAll(schedule);
      RunKeeps(trace, schedule, 0, |schedule|);
      RunLeavesOthers(trace, schedule, mine, |schedule|);
    }

    // ----- StoreArtifact -----

    // The cleanup of a call that does not keep its files; errors of the removals are ignored.
    method CleanUp(id: Id, removal: Removal, schedules: seq<seq<Step>>)
      requires Valid() && id in calls && |schedules| == 3 && ByOthers(schedules, id)
      modifies this
      ensures Valid() && Grows(old(rows), rows) && (id in rows <==> id in old(rows)) && id !in calls && old(issued) <= issued
      ensures Uninterrupted(schedules) ==> (removal.temporary ==> Temporary(id) !in files) && (removal.final ==> Final(id) !in files)
    {
      hide Sound, NotOf, KeepsRunning, Stepped;
      IsSound(View(), id);
      FailOwn(id);
      Others(schedules[0], id);
      RemoveOwn(id, Temporary(id), removal.temporary);
      Others(schedules[1], id);
      RemoveOwn(id, Final(id), removal.final);
      Others(schedules[2], id);
      LeaveOwn(id, removal.synced);
    }

    method FailOwn(id: Id)
      requires Valid() && id in calls
      modifies this
      ensures Valid() && rows == old(rows) && issued == old(issued) && id in calls && calls[id].stage == Leaving
    {
      hide Sound;
      Own(Fail(id));
    }

    // one of the two names goes, if the call is still under way and the file system lets it
    method RemoveOwn(id: Id, name: Name, removes: bool)
      requires Valid() && (id in calls ==> calls[id].stage == Leaving) && (name == Temporary(id) || name == Final(id))
      modifies this
      ensures Valid() && rows == old(rows) && issued == old(issued) && calls == old(calls)
      ensures files == if id in calls && removes then old(files) - {name} else old(files)
    {
      hide Sound;
      if id in calls && removes {
        Own(if name.Temporary? then RemoveTemporary(id) else RemoveFinal(id));
      }
    }

    method LeaveOwn(id: Id, synced: bool)
      requires Valid() && (id in calls ==> calls[id].stage == Leaving)
      modifies this
      ensures Valid() && rows == old(rows) && issued == old(issued) && files == old(files) && calls == old(calls) - {id}
    {
      hide Sound;
      if id in calls {
        Own(Leave(id, synced));
      }
    }

    // a step of a call itself
    method Own(step: Step)
      requires Valid() && !step.PowerLoss? && !step.Kill? && !step.Start?
      modifies this
      ensures Valid() && Stepped(old(View()), step, View()) && Grows(old(rows), rows) && old(issued) <= issued
    {
      Take(step);
      StepKeeps(old(View()), step, View());
    }

    // Write, sync, rename and sync the directory, everyone else acting before each and after the last; the first
    // effect that fails ends it.
    method Publish(id: Id, bytes: Content, failing: set<nat>, plan: seq<seq<Step>>) returns (published: bool)
      requires Valid() && id in calls && calls[id] == Call(bytes, Opened) && |plan| == 5 && ByOthers(plan, id)
      modifies this
      ensures Valid() && Grows(old(rows), rows) && old(issued) <= issued && id !in rows
      ensures id in calls && published ==> calls[id] == Call(bytes, Published)
      ensures Uninterrupted(plan) ==> id in calls && (published <==> forall effect :: effect in failing ==> effect >= 4)
    {
      hide Sound, NotOf, KeepsRunning, RowHolds;
      IsSound(View(), id);
      published := false;
      for effect := 0 to 4
        invariant Valid() && Grows(old(rows), rows) && old(issued) <= issued && id in issued && id !in rows
        invariant id in calls && calls[id] == Call(bytes, [Opened, Written, Synced, Renamed, Published][effect])
        invariant forall k :: 0 <= k < effect ==> k !in failing
      {
        Others(plan[effect], id);
        if id !in calls || effect in failing {
          return;
        }
        OwnEffect(id, effect);
      }
      Others(plan[4], id);
      published := true;
    }

    method OwnEffect(id: Id, effect: nat)
      requires Valid() && id in calls && effect < 4 && calls[id].stage == [Opened, Written, Synced, Renamed][effect]
      modifies this
      ensures Valid() && Grows(old(rows), rows) && old(issued) <= issued && (id in rows <==> id in old(rows))
      ensures id in calls && calls[id] == Call(old(calls)[id].bytes, [Written, Synced, Renamed, Published][effect])
      ensures Stepped(old(View()), [Write(id), SyncFile(id), Rename(id), SyncDirectory(id)][effect], View())
    {
      hide Sound;
      IsSound(View(), id);
      match effect
      case 0 => Own(Write(id));
      case 1 => Own(SyncFile(id));
      case 2 => Own(Rename(id));
      case _ => Own(SyncDirectory(id));
    }

    // A stored artifact is committed with its bytes, a refused one is not committed; an unknown commit
    // keeps the files either way. Everyone else may act between any two effects, or the machine stop.
    method StoreArtifact(id: Id, bytes: Content, luck: Luck, plan: seq<seq<Step>>, cleanup: seq<seq<Step>>) returns (outcome: Outcome)
      requires Valid() && bound && id !in issued && Temporary(id) !in files && |plan| == 5 && |cleanup| == 3
      requires ByOthers(plan, id) && ByOthers(cleanup, id)
      modifies this
      ensures Valid() && Grows(old(rows), rows) && id in issued && id !in calls
      ensures outcome.Stored? ==> id in rows && rows[id] == bytes && RowHolds(View(), id)
      ensures outcome.Unknown? ==> (id in rows <==> luck.took) && (id in rows ==> rows[id] == bytes)
      ensures outcome.Refused? || outcome.Interrupted? ==> id !in rows
      ensures Uninterrupted(plan) ==> outcome == Expected(luck)
      ensures Uninterrupted(plan) && Uninterrupted(cleanup) && CleansUp(luck) ==>
                (luck.removal.temporary ==> Temporary(id) !in files) && (luck.removal.final ==> Final(id) !in files)
    {
      hide Sound, ByOthers, Uninterrupted, RowHolds, CallHolds;
      Own(Create(id, bytes));
      var published := Publish(id, bytes, luck.failing, plan);
      if id !in calls {
        outcome := Interrupted;
      } else if !published || luck.refused {
        CleanUp(id, luck.removal, cleanup);
        outcome := Refused;
      } else if luck.exceeded {
        if luck.marked {
          Own(CommitMarker(id, luck.acknowledged));
        }
        if !luck.marked || luck.acknowledged {
          CleanUp(id, luck.removal, cleanup);
        }
        outcome := Refused;
      } else {
        Own(CommitRow(id, luck.took || luck.acknowledged));
        IsSound(View(), id);
        outcome := if luck.acknowledged then Stored else Unknown;
      }
    }

    // readArtifactFile: a committed artifact always reads back
    method Read(id: Id) returns (bytes: Option<Content>)
      requires Valid()
      ensures bytes == if id in rows then Some(rows[id]) else None
    {
      IsSound(View(), id);
      if id !in rows || Final(id) !in files || !files[Final(id)].plain || files[Final(id)].bytes != rows[id] {
        return None;
      }
      bytes := Some(files[Final(id)].bytes);
    }
  }

  // Any life of a volume, with any number of calls, power losses, kills and restarts: at every moment the
  // committed rows are on durable bytes, and no row is ever lost.
  method Live(schedule: seq<Step>) returns (volume: Volume, ghost trace: seq<Disk>)
    ensures fresh(volume) && Ran(trace, schedule) && trace[0] == NEW_DISK && trace[|schedule|] == volume.View()
    ensures forall i, j :: 0 <= i <= j < |trace| ==> Sound(trace[j]) && Grows(trace[i].rows, trace[j].rows)
  {
    volume := new Volume();
    trace := volume.TakeAll(schedule);
    forall i, j | 0 <= i <= j < |trace| ensures Sound(trace[j]) && Grows(trace[i].rows, trace[j].rows) {
      RunKeeps(trace, schedule, 0, i);
      RunKeeps(trace, schedule, i, j);
    }
  }
}
