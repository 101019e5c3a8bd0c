// The history replica of a dialog: an append-only chain of records materialized again and again from
// tables that keep changing (harness/node/history_export.go, internal/historyreplica/types.go).
// Record and chain hashes are the values they are taken of.
module HistoryReplica {
  import opened Common
  import opened HarnessState
  import opened HarnessStep
  import opened HarnessInvariant
  import opened HarnessHoldHistory
  import opened HarnessPersistence
  import opened HarnessHistory

  datatype StreamIdentity = StreamIdentity(owner: Id, logical: Id, dialog: Id, generation: int)

  // ----- records and their chain -----

  datatype RecordId = OfEntry(message: Id) | OfFact(sequence: nat) | OfReceipt(command: Id) | OfManifest(dialog: Id, payload: Payload)

  // author is the position of the event that announced the message
  datatype Payload =
    | Entry(message: Id, sequence: int, request: Option<Id>, content: Option<Content>, attempt: Option<Id>, generation: int,
            author: Option<nat>)
    | Fact(event: EventRow, position: nat, request: Option<Id>)
    | Revision(command: Id, receipt: Receipt, request: Option<Id>, attempt: Option<Id>)
    | Manifest(logical: Id, assets: map<Id, Artifact>)

  datatype Record = Record(id: RecordId, logical: Id, revision: int, payload: Payload)

  datatype Hash = Genesis(stream: StreamIdentity) | Link(stream: StreamIdentity, sequence: nat, previous: Hash, record: Record)

  datatype Sealed = Sealed(record: Record, sequence: nat, previous: Hash, chain: Hash)

  function ChainHead(stream: seq<Sealed>, identity: StreamIdentity): Hash {
    if stream == [] then Genesis(identity) else stream[|stream| - 1].chain
  }

  // SealRecord
  function Seal(stream: seq<Sealed>, identity: StreamIdentity, record: Record): Sealed {
    var sequence := |stream| + 1;
    var previous := ChainHead(stream, identity);
    Sealed(record, sequence, previous, Link(identity, sequence, previous, record))
  }

  function Lookup(stream: seq<Sealed>, id: RecordId): Option<Record> {
    if stream == [] then None
    else
      match Lookup(stream[..|stream| - 1], id)
      case Some(record) => Some(record)
      case None =>
        var last := stream[|stream| - 1].record;
        if last.id == id then Some(last) else None
  }

  // appendReplicaRecord: None is the identity conflict
  function Append(stream: seq<Sealed>, identity: StreamIdentity, candidate: Record): Option<seq<Sealed>> {
    match Lookup(stream, candidate.id)
    case Some(existing) => if existing == candidate then Some(stream) else None
    case None => Some(stream + [Seal(stream, identity, candidate)])
  }

  function AppendAll(stream: seq<Sealed>, identity: StreamIdentity, candidates: seq<Record>): Option<seq<Sealed>> {
    if candidates == [] then Some(stream)
    else
      match AppendAll(stream, identity, candidates[..|candidates| - 1])
      case None => None
      case Some(longer) => Append(longer, identity, candidates[|candidates| - 1])
  }

  ghost predicate WellSealed(stream: seq<Sealed>, identity: StreamIdentity) {
    forall i :: 0 <= i < |stream| ==> stream[i] == Seal(stream[..i], identity, stream[i].record)
  }

  // The chain hash of a stream commits to all of it.
  lemma {:induction false} ChainDeterminesStream(left: seq<Sealed>, right: seq<Sealed>, identity: StreamIdentity)
    requires WellSealed(left, identity) && WellSealed(right, identity) && ChainHead(left, identity) == ChainHead(right, identity)
    ensures left == right
  {
    if left != [] && right != [] {
      var l, r := left[..|left| - 1], right[..|right| - 1];
      assert forall i :: 0 <= i < |l| ==> l[..i] == left[..i];
      assert forall i :: 0 <= i < |r| ==> r[..i] == right[..i];
      assert left[|left| - 1] == Seal(l, identity, left[|left| - 1].record);
      assert right[|right| - 1] == Seal(r, identity, right[|right| - 1].record);
      ChainDeterminesStream(l, r, identity);
      assert left == l + [left[|left| - 1]] && right == r + [right[|right| - 1]];
    } else {
      assert left != [] ==> left[|left| - 1] == Seal(left[..|left| - 1], identity, left[|left| - 1].record);
      assert right != [] ==> right[|right| - 1] == Seal(right[..|right| - 1], identity, right[|right| - 1].record);
    }
  }

  lemma {:induction false} LookupFinds(stream: seq<Sealed>, id: RecordId)
    ensures Lookup(stream, id).None? ==> forall i :: 0 <= i < |stream| ==> stream[i].record.id != id
    ensures Lookup(stream, id).Some? ==>
              exists i :: 0 <= i < |stream| && stream[i].record.id == id && Some(stream[i].record) == Lookup(stream, id)
  {
    if stream != [] {
      var shorter := stream[..|stream| - 1];
      LookupFinds(shorter, id);
      if Lookup(shorter, id).Some? {
        var i :| 0 <= i < |shorter| && shorter[i].record.id == id && Some(shorter[i].record) == Lookup(shorter, id);
        assert stream[i] == shorter[i];
      } else {
        assert forall i :: 0 <= i < |shorter| ==> stream[i] == shorter[i];
        assert Lookup(stream, id).Some? ==> stream[|stream| - 1].record.id == id;
      }
    }
  }

  // ----- what a dialog's tables export -----

  // the first event that names the message
  function Author(events: seq<EventRow>, m: Id): Option<nat> {
    if events == [] then None
    else
      match Author(events[..|events| - 1], m)
      case Some(i) => Some(i)
      case None => if events[|events| - 1].entity == m then Some(|events| - 1) else None
  }

  function GenerationOf(s: State, attempt: Option<Id>): int {
    if attempt.Some? && attempt.value in s.core.attempts then s.core.attempts[attempt.value].generation else 0
  }

  // a user message is exported without its attempt, which it may acquire later
  function EntryRecord(s: State, identity: StreamIdentity, m: Id): Record
    requires m in s.core.messages
  {
    var row := s.core.messages[m];
    var assistant := row.content.Some?;
    Record(OfEntry(m), identity.logical, 1,
           Entry(m, row.sequence, row.request, row.content, if assistant then row.attempt else None,
                 if assistant then GenerationOf(s, row.attempt) else 0, Author(s.log.events, m)))
  }

  predicate FactBelongs(s: State, dialog: Id, i: nat)
    requires i < |s.log.events|
  {
    var e := s.log.events[i];
    || e.dialog == Some(dialog)
    || (e.attempt.Some? && e.attempt.value in s.core.attempts && s.core.attempts[e.attempt.value].dialog == dialog)
    || (e.entity in s.core.messages && s.core.messages[e.entity].dialog == dialog)
    || (e.entity in s.core.requests && s.core.requests[e.entity].dialog == dialog)
  }

  function FactRecord(s: State, identity: StreamIdentity, i: nat): Record
    requires i < |s.log.events|
  {
    var e := s.log.events[i];
    var request := if e.attempt.Some? && e.attempt.value in s.core.attempts then Some(s.core.attempts[e.attempt.value].request) else None;
    Record(OfFact(i), identity.logical, 1, Fact(e, i, request))
  }

  // the identities a command's target and its receipt's references name
  function TargetDialog(command: Command, receipt: Receipt): Option<Id> {
    if receipt.created.Some? then receipt.created
    else
      match command
      case EnqueueMessage(d, _, _) => Some(d)
      case SteerMessage(d, _, _, _, _) => Some(d)
      case DeleteDialog(d, _) => Some(d)
      case _ => None
  }

  function TargetAttempt(command: Command): Option<Id> {
    match command
    case StopAttempt(a, _) => Some(a)
    case RetryAttempt(a, _, _) => Some(a)
    case SteerMessage(_, a, _, _, _) => Some(a)
    case RespondApproval(_, a, _, _, _, _) => Some(a)
    case RespondInput(_, a, _, _, _) => Some(a)
    case _ => None
  }

  // replicaCommandScope: by dialog, then by request, then by attempt
  function ReceiptRecord(s: State, identity: StreamIdentity, c: Id): Option<Record>
    requires c in s.admin.commands
  {
    var receipt := s.admin.commands[c];
    var request := receipt.request;
    var attempt := TargetAttempt(receipt.command);
    if TargetDialog(receipt.command, receipt) == Some(identity.dialog) then
      Some(RevisionRecord(identity, c, receipt, request, attempt))
    else if request.Some? && request.value in s.core.requests && s.core.requests[request.value].dialog == identity.dialog then
      Some(RevisionRecord(identity, c, receipt, request, attempt))
    else if attempt.Some? && attempt.value in s.core.attempts && s.core.attempts[attempt.value].dialog == identity.dialog then
      Some(RevisionRecord(identity, c, receipt, if request.Some? then request else Some(s.core.attempts[attempt.value].request), attempt))
    else None
  }

  function RevisionRecord(identity: StreamIdentity, c: Id, receipt: Receipt, request: Option<Id>, attempt: Option<Id>): Record {
    Record(OfReceipt(c), identity.logical, 1, Revision(c, receipt, request, attempt))
  }

  function Assets(s: State, dialog: Id): map<Id, Artifact> {
    map x | x in s.rows.artifacts && s.rows.artifacts[x].dialog == dialog :: s.rows.artifacts[x]
  }

  function ManifestRecord(s: State, identity: StreamIdentity, revision: int): Record {
    var payload := Manifest(identity.logical, Assets(s, identity.dialog));
    Record(OfManifest(identity.dialog, payload), identity.logical, revision, payload)
  }

  // ----- materialization -----

  // the order in which the queries return their rows
  datatype Plan = Plan(messages: seq<Id>, commands: seq<Id>)

  // all messages of the dialog by their sequence, and all commands, in the order of a time that is left out
  predicate PlanOk(s: State, identity: StreamIdentity, plan: Plan) {
    && (forall i :: 0 <= i < |plan.messages| ==>
          plan.messages[i] in s.core.messages && s.core.messages[plan.messages[i]].dialog == identity.dialog)
    && (forall i :: 0 <= i < |plan.commands| ==> plan.commands[i] in s.admin.commands)
    && (forall m :: m in s.core.messages && s.core.messages[m].dialog == identity.dialog ==> m in plan.messages)
    && (forall c :: c in s.admin.commands ==> c in plan.commands)
    && (forall i, j :: 0 <= i < j < |plan.messages| ==>
          s.core.messages[plan.messages[i]].sequence <= s.core.messages[plan.messages[j]].sequence)
  }

  function Entries(s: State, identity: StreamIdentity, messages: seq<Id>): (r: seq<Record>)
    requires forall i :: 0 <= i < |messages| ==> messages[i] in s.core.messages
    ensures |r| == |messages| && forall i :: 0 <= i < |r| ==> r[i] == EntryRecord(s, identity, messages[i])
  {
    if messages == [] then []
    else Entries(s, identity, messages[..|messages| - 1]) + [EntryRecord(s, identity, messages[|messages| - 1])]
  }

  function Facts(s: State, identity: StreamIdentity, n: nat): (r: seq<Record>)
    requires n <= |s.log.events|
    ensures forall i :: 0 <= i < |r| ==> exists k: nat :: k < n && r[i] == FactRecord(s, identity, k)
    ensures forall k: nat :: k < n && FactBelongs(s, identity.dialog, k) ==> FactRecord(s, identity, k) in r
  {
    if n == 0 then []
    else
      var earlier := Facts(s, identity, n - 1);
      if FactBelongs(s, identity.dialog, n - 1) then
        var all := earlier + [FactRecord(s, identity, n - 1)];
        assert forall i :: 0 <= i < |earlier| ==> all[i] == earlier[i];
        assert all[|earlier|] == FactRecord(s, identity, n - 1);
        all
      else earlier
  }

  function Receipts(s: State, identity: StreamIdentity, commands: seq<Id>): (r: seq<Record>)
    requires forall i :: 0 <= i < |commands| ==> commands[i] in s.admin.commands
    ensures forall i :: 0 <= i < |r| ==> exists k :: 0 <= k < |commands| && Some(r[i]) == ReceiptRecord(s, identity, commands[k])
    ensures forall k :: 0 <= k < |commands| && ReceiptRecord(s, identity, commands[k]).Some? ==>
              ReceiptRecord(s, identity, commands[k]).value in r
  {
    if commands == [] then []
    else
      var last := ReceiptRecord(s, identity, commands[|commands| - 1]);
      Receipts(s, identity, commands[..|commands| - 1]) + (if last.Some? then [last.value] else [])
  }

  function Candidates(s: State, identity: StreamIdentity, plan: Plan, revision: int): seq<Record>
    requires PlanOk(s, identity, plan)
  {
    Entries(s, identity, plan.messages) + Facts(s, identity, |s.log.events|) + Receipts(s, identity, plan.commands)
    + [ManifestRecord(s, identity, revision)]
  }

  type Store = map<StreamIdentity, seq<Sealed>>

  function StreamOf(store: Store, identity: StreamIdentity): seq<Sealed> {
    if identity in store then store[identity] else []
  }

  // a manifest of the dialog with this revision is stored in some stream
  predicate Stored(store: Store, record: Record) {
    exists k :: k in store && exists i :: 0 <= i < |store[k]| && store[k][i].record == record
  }

  predicate StoredId(store: Store, id: RecordId) {
    exists k :: k in store && exists i :: 0 <= i < |store[k]| && store[k][i].record.id == id
  }

  // The revision a manifest gets: the stored one if this very manifest is stored anywhere, else one
  // above the newest of the dialog.
  ghost predicate RevisionFor(s: State, store: Store, identity: StreamIdentity, revision: int) {
    var id := ManifestRecord(s, identity, revision).id;
    if StoredId(store, id) then exists record :: Stored(store, record) && record.id == id && record.revision == revision
    else
      && revision >= 1
      && (forall record :: Stored(store, record) && record.id.OfManifest? && record.id.dialog == identity.dialog ==> record.revision < revision)
      && (revision == 1
          || exists record :: Stored(store, record) && record.id.OfManifest? && record.id.dialog == identity.dialog && record.revision == revision - 1)
  }

  function Materialize(s: State, store: Store, identity: StreamIdentity, plan: Plan, revision: int): Option<Store>
    requires PlanOk(s, identity, plan)
  {
    match AppendAll(StreamOf(store, identity), identity, Candidates(s, identity, plan, revision))
    case None => None
    case Some(stream) => Some(store[identity := stream])
  }

  // ----- what every stored stream keeps -----

  // the tables would still export this very record under its identity
  ghost predicate RecordOk(s: State, identity: StreamIdentity, record: Record) {
    match record.id
    case OfEntry(m) => m in s.core.messages && record == EntryRecord(s, identity, m)
    case OfFact(i) => i < |s.log.events| && record == FactRecord(s, identity, i)
    case OfReceipt(c) => c in s.admin.commands && Some(record) == ReceiptRecord(s, identity, c)
    case OfManifest(d, payload) =>
      && payload.Manifest? && payload.logical == identity.logical && record.logical == identity.logical
      && d == identity.dialog && record.payload == payload
  }

  ghost predicate StreamOk(s: State, identity: StreamIdentity, stream: seq<Sealed>) {
    && WellSealed(stream, identity)
    && (forall i, j :: 0 <= i < j < |stream| ==> stream[i].record.id != stream[j].record.id)
    && (forall i :: 0 <= i < |stream| ==> RecordOk(s, identity, stream[i].record))
  }

  // one manifest, one record, in whatever streams
  ghost predicate ManifestsAgree(store: Store) {
    forall p, q :: Stored(store, p) && Stored(store, q) && p.id.OfManifest? && p.id == q.id ==> p == q
  }

  ghost predicate StoreOk(s: State, store: Store) {
    && (forall k :: k in store ==> StreamOk(s, k, store[k]))
    && ManifestsAgree(store)
  }

  // a candidate that agrees with what is stored under its identity, if anything is
  ghost predicate Fits(stream: seq<Sealed>, record: Record) {
    forall i :: 0 <= i < |stream| && stream[i].record.id == record.id ==> stream[i].record == record
  }

  lemma AppendFits(s: State, identity: StreamIdentity, stream: seq<Sealed>, candidate: Record)
    requires StreamOk(s, identity, stream) && RecordOk(s, identity, candidate) && Fits(stream, candidate)
    ensures var r := Append(stream, identity, candidate);
      && r.Some? && stream <= r.value && StreamOk(s, identity, r.value)
      && (exists i :: 0 <= i < |r.value| && r.value[i].record == candidate)
      && |r.value| <= |stream| + 1
      && (forall i :: |stream| <= i < |r.value| ==> r.value[i].record == candidate)
  {
    LookupFinds(stream, candidate.id);
    if Lookup(stream, candidate.id).None? {
      var longer := stream + [Seal(stream, identity, candidate)];
      assert longer[|stream|].record == candidate;
      forall i | 0 <= i < |longer| ensures longer[i] == Seal(longer[..i], identity, longer[i].record) {
        assert longer[..i] == stream[..i];
      }
    }
  }

  // entries, facts and receipts are determined by their identity
  lemma RecordIsDetermined(s: State, identity: StreamIdentity, p: Record, q: Record)
    requires RecordOk(s, identity, p) && RecordOk(s, identity, q) && p.id == q.id && !p.id.OfManifest?
    ensures p == q
  {
  }

  lemma DeterminedFits(s: State, identity: StreamIdentity, stream: seq<Sealed>, record: Record)
    requires StreamOk(s, identity, stream) && RecordOk(s, identity, record) && !record.id.OfManifest?
    ensures Fits(stream, record)
  {
    forall i | 0 <= i < |stream| && stream[i].record.id == record.id ensures stream[i].record == record {
      RecordIsDetermined(s, identity, stream[i].record, record);
    }
  }

  // everything but the manifest
  ghost predicate AllPlain(s: State, identity: StreamIdentity, rows: seq<Record>) {
    forall i :: 0 <= i < |rows| ==> RecordOk(s, identity, rows[i]) && !rows[i].id.OfManifest?
  }

  lemma {:induction false} AppendAllFits(s: State, identity: StreamIdentity, stream: seq<Sealed>, candidates: seq<Record>)
    requires StreamOk(s, identity, stream) && AllPlain(s, identity, candidates)
    ensures var r := AppendAll(stream, identity, candidates);
      && r.Some? && stream <= r.value && StreamOk(s, identity, r.value)
      && (forall record :: record in candidates ==> Holding(r.value, record))
      && (forall i :: |stream| <= i < |r.value| ==> !r.value[i].record.id.OfManifest?)
  {
    hide RecordOk, StreamOk, Append;
    if candidates != [] {
      var shorter := candidates[..|candidates| - 1];
      var last := candidates[|candidates| - 1];
      AppendAllFits(s, identity, stream, shorter);
      var longer := AppendAll(stream, identity, shorter).value;
      DeterminedFits(s, identity, longer, last);
      AppendFits(s, identity, longer, last);
      var r := Append(longer, identity, last).value;
      forall record | record in candidates ensures Holding(r, record) {
        if record != last {
          assert record in shorter;
          HoldingStays(longer, r, record);
        }
      }
    }
  }

  ghost predicate Holding(stream: seq<Sealed>, record: Record) {
    exists i :: 0 <= i < |stream| && stream[i].record == record
  }

  lemma HoldingStays(stream: seq<Sealed>, longer: seq<Sealed>, record: Record)
    requires Holding(stream, record) && stream <= longer
    ensures Holding(longer, record)
  {
    var i :| 0 <= i < |stream| && stream[i].record == record;
    assert longer[i] == stream[i];
  }

  lemma EntriesArePlain(s: State, identity: StreamIdentity, messages: seq<Id>)
    requires forall i :: 0 <= i < |messages| ==> messages[i] in s.core.messages
    ensures AllPlain(s, identity, Entries(s, identity, messages))
  {
    var rows := Entries(s, identity, messages);
    forall i | 0 <= i < |rows| ensures RecordOk(s, identity, rows[i]) && !rows[i].id.OfManifest? {
      assert rows[i] == EntryRecord(s, identity, messages[i]);
    }
  }

  lemma FactsArePlain(s: State, identity: StreamIdentity)
    ensures AllPlain(s, identity, Facts(s, identity, |s.log.events|))
  {
    var rows := Facts(s, identity, |s.log.events|);
    forall i | 0 <= i < |rows| ensures RecordOk(s, identity, rows[i]) && !rows[i].id.OfManifest? {
      var k: nat :| k < |s.log.events| && rows[i] == FactRecord(s, identity, k);
    }
  }

  lemma ReceiptsArePlain(s: State, identity: StreamIdentity, commands: seq<Id>)
    requires forall i :: 0 <= i < |commands| ==> commands[i] in s.admin.commands
    ensures AllPlain(s, identity, Receipts(s, identity, commands))
  {
    var rows := Receipts(s, identity, commands);
    forall i | 0 <= i < |rows| ensures RecordOk(s, identity, rows[i]) && !rows[i].id.OfManifest? {
      var k :| 0 <= k < |commands| && Some(rows[i]) == ReceiptRecord(s, identity, commands[k]);
    }
  }

  lemma PlainThenPlain(s: State, identity: StreamIdentity, front: seq<Record>, back: seq<Record>)
    requires AllPlain(s, identity, front) && AllPlain(s, identity, back)
    ensures AllPlain(s, identity, front + back)
  {
    hide RecordOk;
  }

  lemma CandidatesArePlain(s: State, identity: StreamIdentity, plan: Plan)
    requires PlanOk(s, identity, plan)
    ensures AllPlain(s, identity,
              Entries(s, identity, plan.messages) + Facts(s, identity, |s.log.events|) + Receipts(s, identity, plan.commands))
  {
    hide AllPlain;
    EntriesArePlain(s, identity, plan.messages);
    FactsArePlain(s, identity);
    ReceiptsArePlain(s, identity, plan.commands);
    PlainThenPlain(s, identity, Entries(s, identity, plan.messages), Facts(s, identity, |s.log.events|));
    PlainThenPlain(s, identity, Entries(s, identity, plan.messages) + Facts(s, identity, |s.log.events|),
                   Receipts(s, identity, plan.commands));
  }

  lemma {:induction false} AppendAllSplits(stream: seq<Sealed>, identity: StreamIdentity, front: seq<Record>, last: Record)
    ensures AppendAll(stream, identity, front + [last])
         == (match AppendAll(stream, identity, front) case None => None case Some(longer) => Append(longer, identity, last))
  {
    assert (front + [last])[..|front|] == front;
  }

  // ----- exporting -----

  // Materializing never contradicts what was exported before: it does not fail, and what the stream
  // held, chain hashes and all, is a prefix of what it holds now.
  lemma ExportExtends(s: State, store: Store, identity: StreamIdentity, plan: Plan, revision: int)
    requires StoreOk(s, store) && PlanOk(s, identity, plan) && RevisionFor(s, store, identity, revision)
    ensures var r := Materialize(s, store, identity, plan, revision);
      && r.Some? && identity in r.value && StreamOf(store, identity) <= r.value[identity]
      && (forall k :: k in store && k != identity ==> k in r.value && r.value[k] == store[k])
      && StoreOk(s, r.value)
      && Covers(s, r.value[identity], identity, plan)
  {
    hide RecordOk, StreamOk, AllPlain, Append, AppendAll;
    var stream := StreamOf(store, identity);
    var rows := Entries(s, identity, plan.messages) + Facts(s, identity, |s.log.events|) + Receipts(s, identity, plan.commands);
    var manifest := ManifestRecord(s, identity, revision);
    CandidatesArePlain(s, identity, plan);
    EmptyStreamOk(s, identity);
    AppendAllFits(s, identity, stream, rows);
    var longer := AppendAll(stream, identity, rows).value;
    ManifestFits(s, store, identity, longer, revision);
    AppendFits(s, identity, longer, manifest);
    var full := Append(longer, identity, manifest).value;
    assert Candidates(s, identity, plan, revision) == rows + [manifest];
    AppendAllSplits(stream, identity, rows, manifest);
    CoverageOf(s, identity, plan, rows, longer, full);
    StoreStaysOk(s, store, identity, longer, full, revision);
  }

  lemma EmptyStreamOk(s: State, identity: StreamIdentity)
    ensures StreamOk(s, identity, [])
  {
  }

  // every row the queries returned has its record in the stream
  ghost predicate Covers(s: State, stream: seq<Sealed>, identity: StreamIdentity, plan: Plan)
    requires PlanOk(s, identity, plan)
  {
    && (forall i :: 0 <= i < |plan.messages| ==> Holding(stream, EntryRecord(s, identity, plan.messages[i])))
    && (forall i: nat :: i < |s.log.events| && FactBelongs(s, identity.dialog, i) ==> Holding(stream, FactRecord(s, identity, i)))
    && (forall i :: 0 <= i < |plan.commands| && ReceiptRecord(s, identity, plan.commands[i]).Some? ==>
          Holding(stream, ReceiptRecord(s, identity, plan.commands[i]).value))
    && (exists revision :: Holding(stream, ManifestRecord(s, identity, revision)))
  }

  lemma CoverageOf(s: State, identity: StreamIdentity, plan: Plan, rows: seq<Record>, longer: seq<Sealed>, full: seq<Sealed>)
    requires PlanOk(s, identity, plan) && longer <= full
    requires rows == Entries(s, identity, plan.messages) + Facts(s, identity, |s.log.events|) + Receipts(s, identity, plan.commands)
    requires forall record :: record in rows ==> Holding(longer, record)
    requires exists revision :: Holding(full, ManifestRecord(s, identity, revision))
    ensures Covers(s, full, identity, plan)
  {
    var entries := Entries(s, identity, plan.messages);
    var facts := Facts(s, identity, |s.log.events|);
    var receipts := Receipts(s, identity, plan.commands);
    forall record | record in rows ensures Holding(full, record) {
      HoldingStays(longer, full, record);
    }
    forall i | 0 <= i < |plan.messages| ensures Holding(full, EntryRecord(s, identity, plan.messages[i])) {
      assert entries[i] in entries && entries[i] in rows;
    }
    forall i: nat | i < |s.log.events| && FactBelongs(s, identity.dialog, i) ensures Holding(full, FactRecord(s, identity, i)) {
      assert FactRecord(s, identity, i) in facts && FactRecord(s, identity, i) in rows;
    }
    forall i | 0 <= i < |plan.commands| && ReceiptRecord(s, identity, plan.commands[i]).Some?
      ensures Holding(full, ReceiptRecord(s, identity, plan.commands[i]).value)
    {
      assert ReceiptRecord(s, identity, plan.commands[i]).value in receipts && ReceiptRecord(s, identity, plan.commands[i]).value in rows;
    }
  }

  lemma ManifestIsOk(s: State, identity: StreamIdentity, revision: int)
    ensures RecordOk(s, identity, ManifestRecord(s, identity, revision))
  {
  }

  lemma StoredManifest(s: State, store: Store, record: Record)
    requires StoreOk(s, store) && Stored(store, record) && record.id.OfManifest?
    ensures record.id.payload.Manifest? && record == Record(record.id, record.id.payload.logical, record.revision, record.id.payload)
  {
    var k :| k in store && exists i :: 0 <= i < |store[k]| && store[k][i].record == record;
    var i :| 0 <= i < |store[k]| && store[k][i].record == record;
    assert RecordOk(s, k, record);
  }

  lemma ManifestFits(s: State, store: Store, identity: StreamIdentity, longer: seq<Sealed>, revision: int)
    requires StoreOk(s, store) && RevisionFor(s, store, identity, revision) && StreamOf(store, identity) <= longer
    requires forall i :: |StreamOf(store, identity)| <= i < |longer| ==> !longer[i].record.id.OfManifest?
    ensures RecordOk(s, identity, ManifestRecord(s, identity, revision))
    ensures Fits(longer, ManifestRecord(s, identity, revision))
  {
    hide StreamOk;
    var manifest := ManifestRecord(s, identity, revision);
    ManifestIsOk(s, identity, revision);
    forall i | 0 <= i < |longer| && longer[i].record.id == manifest.id ensures longer[i].record == manifest {
      assert i < |StreamOf(store, identity)|;
      assert longer[i] == store[identity][i];
      StoredManifestAgrees(s, store, identity, revision, longer[i].record);
    }
  }

  // whatever is stored under the manifest's identity is that very record
  lemma StoredManifestAgrees(s: State, store: Store, identity: StreamIdentity, revision: int, record: Record)
    requires StoreOk(s, store) && RevisionFor(s, store, identity, revision) && Stored(store, record)
    requires record.id == ManifestRecord(s, identity, revision).id
    ensures record == ManifestRecord(s, identity, revision)
  {
    hide StreamOk;
    var k :| k in store && exists i :: 0 <= i < |store[k]| && store[k][i].record == record;
    var i :| 0 <= i < |store[k]| && store[k][i].record == record;
    assert store[k][i].record.id == record.id;
    assert StoredId(store, record.id);
    var same :| Stored(store, same) && same.id == record.id && same.revision == revision;
    StoredManifest(s, store, record);
    StoredManifest(s, store, same);
  }

  lemma StoreStaysOk(s: State, store: Store, identity: StreamIdentity, longer: seq<Sealed>, full: seq<Sealed>, revision: int)
    requires StoreOk(s, store) && RevisionFor(s, store, identity, revision)
    requires StreamOf(store, identity) <= longer && StreamOk(s, identity, full)
    requires forall i :: |StreamOf(store, identity)| <= i < |longer| ==> !longer[i].record.id.OfManifest?
    requires longer <= full && forall i :: |longer| <= i < |full| ==> full[i].record == ManifestRecord(s, identity, revision)
    ensures StoreOk(s, store[identity := full])
  {
    hide StreamOk;
    var next := store[identity := full];
    var manifest := ManifestRecord(s, identity, revision);
    forall record | Stored(next, record) && record.id.OfManifest? ensures Stored(store, record) || record == manifest {
      var k :| k in next && exists i :: 0 <= i < |next[k]| && next[k][i].record == record;
      var i :| 0 <= i < |next[k]| && next[k][i].record == record;
      if k == identity && i < |StreamOf(store, identity)| {
        assert identity in store && store[identity][i].record == record;
      } else if k != identity {
        assert store[k][i].record == record;
      }
    }
    forall p, q | Stored(next, p) && Stored(next, q) && p.id.OfManifest? && p.id == q.id ensures p == q {
      if p == manifest && Stored(store, q) {
        StoredManifestAgrees(s, store, identity, revision, q);
      } else if q == manifest && Stored(store, p) {
        StoredManifestAgrees(s, store, identity, revision, p);
      }
    }
  }

  // ----- the domain moves on -----

  // Identities of different kinds never coincide: an event that names a user message is about it.
  ghost predicate OwnIdentities(s: State, t: State) {
    forall i :: |s.log.events| <= i < |t.log.events| && NamesUser(s, t.log.events[i].entity) ==> t.log.events[i].kind.DispositionChanged?
  }

  predicate NamesUser(s: State, entity: Id) {
    entity in s.core.messages && s.core.messages[entity].content.None?
  }

  lemma {:induction false} AuthorOf(events: seq<EventRow>, m: Id)
    ensures Author(events, m).Some? <==> Announced(events, m)
  {
    if events != [] {
      var shorter := events[..|events| - 1];
      AuthorOf(shorter, m);
      if Announced(shorter, m) {
        StillAnnounced(shorter, events, m);
      }
      if Announced(events, m) {
        var i :| 0 <= i < |events| && events[i].entity == m;
        if i < |shorter| {
          assert shorter[i] == events[i];
        }
      }
    }
  }

  // the first event that names a message stays the first
  lemma {:induction false} AuthorStays(before: seq<EventRow>, after: seq<EventRow>, m: Id)
    requires before <= after
    requires Announced(before, m) || forall i :: |before| <= i < |after| ==> after[i].entity != m
    ensures Author(after, m) == Author(before, m)
  {
    if |after| == |before| {
      assert after == before;
    } else {
      var shorter := after[..|after| - 1];
      AuthorStays(before, shorter, m);
      AuthorOf(before, m);
    }
  }

  lemma EntryStays(s: State, t: State, identity: StreamIdentity, m: Id)
    requires HistoryOk(s) && Extends(s, t) && PersistsCore(s, t) && OwnIdentities(s, t) && m in s.core.messages
    ensures m in t.core.messages && EntryRecord(t, identity, m) == EntryRecord(s, identity, m)
  {
    assert SameMessage(s.core.messages[m], t.core.messages[m]);
    if s.core.messages[m].content.Some? {
      assert AssistantOk(s, m);
      var a: Id := s.core.messages[m].attempt.value;
      assert a in s.core.attempts && SameAttempt(s.core.attempts[a], t.core.attempts[a]);
      AuthorStays(s.log.events, t.log.events, m);
    } else {
      UserIsAnnounced(s, t, m);
      AuthorStays(s.log.events, t.log.events, m);
    }
  }

  // a user message that new events name was announced before
  lemma UserIsAnnounced(s: State, t: State, m: Id)
    requires HistoryOk(s) && Extends(s, t) && OwnIdentities(s, t) && NamesUser(s, m)
    ensures Announced(s.log.events, m) || forall i :: |s.log.events| <= i < |t.log.events| ==> t.log.events[i].entity != m
  {
    if i :| |s.log.events| <= i < |t.log.events| && t.log.events[i].entity == m {
      assert NewEventOk(s, t, i);
      var r :| r in s.core.requests && s.core.requests[r].message == t.log.events[i].entity;
      assert RequestAnnounced(s, r);
    }
  }

  lemma FactStays(s: State, t: State, identity: StreamIdentity, i: nat)
    requires HistoryOk(s) && Persists(s, t) && i < |s.log.events|
    ensures i < |t.log.events| && FactRecord(t, identity, i) == FactRecord(s, identity, i)
  {
    var e := s.log.events[i];
    assert t.log.events[i] == e;
    if e.attempt.Some? {
      var a: Id := e.attempt.value;
      assert Knows(s, a);
      assert SameAttempt(s.core.attempts[a], t.core.attempts[a]);
    }
  }

  lemma ReceiptStays(s: State, t: State, identity: StreamIdentity, c: Id)
    requires PersistsCore(s, t) && OutcomesGrow(s, t) && c in s.admin.commands && ReceiptRecord(s, identity, c).Some?
    ensures c in t.admin.commands && ReceiptRecord(t, identity, c) == ReceiptRecord(s, identity, c)
  {
    var receipt := s.admin.commands[c];
    var attempt := TargetAttempt(receipt.command);
    if attempt.Some? {
      var a: Id := attempt.value;
      assert a in s.core.attempts ==> SameAttempt(s.core.attempts[a], t.core.attempts[a]);
    }
    if receipt.request.Some? {
      var r: Id := receipt.request.value;
      assert r in s.core.requests ==> SameRequest(s.core.requests[r], t.core.requests[r]);
    }
  }

  lemma RecordStays(s: State, t: State, identity: StreamIdentity, record: Record)
    requires HistoryOk(s) && Extends(s, t) && Persists(s, t) && OutcomesGrow(s, t) && OwnIdentities(s, t)
    requires RecordOk(s, identity, record)
    ensures RecordOk(t, identity, record)
  {
    hide HistoryOk, Extends, PersistsCore, PersistsRows, PersistsLog, OutcomesGrow, OwnIdentities;
    match record.id
    case OfEntry(m) => EntryStays(s, t, identity, m);
    case OfFact(i) => FactStays(s, t, identity, i);
    case OfReceipt(c) => ReceiptStays(s, t, identity, c);
    case OfManifest(_, _) =>
  }

  lemma StoreStays(s: State, t: State, store: Store)
    requires HistoryOk(s) && Extends(s, t) && Persists(s, t) && OutcomesGrow(s, t) && OwnIdentities(s, t) && StoreOk(s, store)
    ensures StoreOk(t, store)
  {
    hide HistoryOk, Extends, Persists, OutcomesGrow, OwnIdentities, RecordOk;
    forall k | k in store ensures StreamOk(t, k, store[k]) {
      assert StreamOk(s, k, store[k]);
      forall i | 0 <= i < |store[k]| ensures RecordOk(t, k, store[k][i].record) {
        RecordStays(s, t, k, store[k][i].record);
      }
    }
  }

  // ----- a node that works and exports, in any order -----

  datatype World = World(state: State, store: Store)

  datatype Move = Domain(step: Step) | Export(identity: StreamIdentity, plan: Plan, revision: int)

  ghost predicate Possible(w: World, move: Move) {
    match move
    case Domain(step) => OwnIdentities(w.state, Next(w.state, step))
    case Export(identity, plan, revision) => PlanOk(w.state, identity, plan) && RevisionFor(w.state, w.store, identity, revision)
  }

  // a failed materialization changes nothing
  function After(w: World, move: Move): World
    requires move.Export? ==> PlanOk(w.state, move.identity, move.plan)
  {
    match move
    case Domain(step) => w.(state := Next(w.state, step))
    case Export(identity, plan, revision) =>
      match Materialize(w.state, w.store, identity, plan, revision)
      case None => w
      case Some(store) => w.(store := store)
  }

  // a trace of possible moves from a new node without streams
  ghost predicate Trace(registryVersion: int, worlds: seq<World>, moves: seq<Move>) {
    && |worlds| == |moves| + 1
    && worlds[0] == World(Init(registryVersion), map[])
    && forall i :: 0 <= i < |moves| ==> Possible(worlds[i], moves[i]) && worlds[i + 1] == After(worlds[i], moves[i])
  }

  ghost predicate WorldOk(w: World) {
    Base(w.state) && OutcomesOk(w.state) && HistoryOk(w.state) && StoreOk(w.state, w.store)
  }

  // streams only grow
  ghost predicate StreamsGrow(before: Store, after: Store) {
    forall k :: k in before ==> k in after && before[k] <= after[k]
  }

  lemma MoveKeepsWorld(w: World, move: Move)
    requires WorldOk(w) && Possible(w, move)
    ensures WorldOk(After(w, move)) && StreamsGrow(w.store, After(w, move).store)
    ensures move.Export? ==> Materialize(w.state, w.store, move.identity, move.plan, move.revision).Some?
  {
    hide Base, HistoryOk, Next, OutcomesOk, StoreOk, Materialize, OwnIdentities, Extends, Persists, OutcomesGrow, Covers;
    match move
    case Domain(step) =>
      NextKeepsBase(w.state, step);
      NextKeepsOutcomes(w.state, step);
      NextKeepsHistory(w.state, step);
      NextExtends(w.state, step);
      NextPersists(w.state, step);
      StoreStays(w.state, Next(w.state, step), w.store);
    case Export(identity, plan, revision) =>
      ExportExtends(w.state, w.store, identity, plan, revision);
  }

  lemma {:induction false} TraceKeepsWorld(registryVersion: int, worlds: seq<World>, moves: seq<Move>)
    requires Trace(registryVersion, worlds, moves)
    ensures WorldOk(worlds[|moves|])
  {
    hide WorldOk, Possible, After;
    if moves == [] {
      NewWorldIsOk(registryVersion);
    } else {
      var n := |moves| - 1;
      assert Trace(registryVersion, worlds[..n + 1], moves[..n]);
      TraceKeepsWorld(registryVersion, worlds[..n + 1], moves[..n]);
      MoveKeepsWorld(worlds[n], moves[n]);
    }
  }

  lemma NewWorldIsOk(registryVersion: int)
    ensures WorldOk(World(Init(registryVersion), map[]))
  {
    InitIsBase(registryVersion);
  }

  // In every run of a node that interleaves work and exports, no export ever hits an identity
  // conflict, and every earlier stream is a prefix of every later one, chain hashes included.
  lemma {:induction false} ExportsNeverConflict(registryVersion: int, worlds: seq<World>, moves: seq<Move>, i: nat, j: nat)
    requires Trace(registryVersion, worlds, moves) && i <= j <= |moves|
    ensures StreamsGrow(worlds[i].store, worlds[j].store)
    ensures j < |moves| && moves[j].Export? ==>
              PlanOk(worlds[j].state, moves[j].identity, moves[j].plan)
              && Materialize(worlds[j].state, worlds[j].store, moves[j].identity, moves[j].plan, moves[j].revision).Some?
    decreases j
  {
    hide WorldOk, After, Materialize, PlanOk, RevisionFor, OwnIdentities, Next;
    assert Trace(registryVersion, worlds[..j + 1], moves[..j]);
    TraceKeepsWorld(registryVersion, worlds[..j + 1], moves[..j]);
    if j < |moves| {
      MoveKeepsWorld(worlds[j], moves[j]);
    }
    if i < j {
      ExportsNeverConflict(registryVersion, worlds, moves, i, j - 1);
      assert Trace(registryVersion, worlds[..j], moves[..j - 1]);
      TraceKeepsWorld(registryVersion, worlds[..j], moves[..j - 1]);
      MoveKeepsWorld(worlds[j - 1], moves[j - 1]);
      GrowThenGrow(worlds[i].store, worlds[j - 1].store, worlds[j].store);
    }
  }

  lemma GrowThenGrow(a: Store, b: Store, c: Store)
    requires StreamsGrow(a, b) && StreamsGrow(b, c)
    ensures StreamsGrow(a, c)
  {
  }

  // ----- coverage hashes -----

  datatype Kind = OfEntries | OfFacts | OfReceipts | OfManifests

  function KindOf(record: Record): Kind {
    match record.id
    case OfEntry(_) => Kind.OfEntries
    case OfFact(_) => Kind.OfFacts
    case OfReceipt(_) => Kind.OfReceipts
    case OfManifest(_, _) => Kind.OfManifests
  }

  // FoldCoverageHash, abstractly: a hash is the sequence of the record hashes folded into it
  type Coverage = seq<Record>

  // the records of one kind, in stream order
  function OfKind(stream: seq<Sealed>, kind: Kind): Coverage {
    if stream == [] then []
    else
      var last := stream[|stream| - 1].record;
      OfKind(stream[..|stream| - 1], kind) + (if KindOf(last) == kind then [last] else [])
  }

  // A longer stream extends each coverage: the hashes of an earlier checkpoint are prefixes.
  lemma {:induction false} CoverageGrows(before: seq<Sealed>, after: seq<Sealed>, kind: Kind)
    requires before <= after
    ensures OfKind(before, kind) <= OfKind(after, kind)
  {
    if |after| == |before| {
      assert after == before;
    } else {
      CoverageGrows(before, after[..|after| - 1], kind);
    }
  }

  // ----- the exporter as the program runs it -----

  class Exporter {
    var store: Store

    constructor ()
      ensures store == map[]
    {
      store := map[];
    }

    // the stored record under an identity, if any
    method FindRecord(identity: StreamIdentity, id: RecordId) returns (found: Option<Record>)
      ensures found == Lookup(StreamOf(store, identity), id)
    {
      found := None;
      var stream := if identity in store then store[identity] else [];
      for i := 0 to |stream|
        invariant found == Lookup(stream[..i], id)
      {
        assert stream[..i + 1][..i] == stream[..i];
        if found.None? && stream[i].record.id == id {
          found := Some(stream[i].record);
        }
      }
      assert stream[..|stream|] == stream;
    }

    // appendReplicaRecord
    method AppendRecord(identity: StreamIdentity, candidate: Record) returns (ok: bool)
      modifies this
      ensures ok <==> Append(old(StreamOf(store, identity)), identity, candidate).Some?
      ensures ok ==> Some(StreamOf(store, identity)) == Append(old(StreamOf(store, identity)), identity, candidate)
      ensures !ok ==> StreamOf(store, identity) == old(StreamOf(store, identity))
      ensures forall k :: k != identity ==> StreamOf(store, k) == old(StreamOf(store, k))
    {
      var existing := FindRecord(identity, candidate.id);
      if existing.Some? {
        return existing.value == candidate;
      }
      var stream := if identity in store then store[identity] else [];
      var previous := if stream == [] then Genesis(identity) else stream[|stream| - 1].chain;
      var sequence := |stream| + 1;
      var sealed := Sealed(candidate, sequence, previous, Link(identity, sequence, previous, candidate));
      store := store[identity := stream + [sealed]];
      ok := true;
    }

    // the materialize functions: one append for each row, the transaction rolling back on a conflict
    method ExportStream(s: State, identity: StreamIdentity, plan: Plan, revision: int) returns (ok: bool)
      requires PlanOk(s, identity, plan)
      modifies this
      ensures ok <==> AppendAll(old(StreamOf(store, identity)), identity, Candidates(s, identity, plan, revision)).Some?
      ensures var r := AppendAll(old(StreamOf(store, identity)), identity, Candidates(s, identity, plan, revision));
        ok ==> Some(StreamOf(store, identity)) == r
      ensures !ok ==> StreamOf(store, identity) == old(StreamOf(store, identity))
      ensures forall k :: k != identity ==> StreamOf(store, k) == old(StreamOf(store, k))
    {
      var saved := store;
      var rows := Candidates(s, identity, plan, revision);
      ok := true;
      var i := 0;
      while i < |rows| && ok
        invariant 0 <= i <= |rows|
        invariant ok ==> Some(StreamOf(store, identity)) == AppendAll(StreamOf(saved, identity), identity, rows[..i])
        invariant !ok ==> AppendAll(StreamOf(saved, identity), identity, rows[..i]).None?
        invariant forall k :: k != identity ==> StreamOf(store, k) == StreamOf(saved, k)
        decreases |rows| - i, ok
      {
        assert rows[..i + 1][..i] == rows[..i];
        ok := AppendRecord(identity, rows[i]);
        i := i + 1;
      }
      assert ok ==> rows[..i] == rows;
      if !ok {
        ConflictStays(StreamOf(saved, identity), identity, rows, i);
        store := saved;
      }
    }

    // replicaHashes, for one kind of record
    method CoverageHash(identity: StreamIdentity, kind: Kind) returns (hash: Coverage, nextSeq: nat)
      ensures hash == OfKind(StreamOf(store, identity), kind) && nextSeq == |StreamOf(store, identity)| + 1
    {
      hash, nextSeq := [], 1;
      var stream := if identity in store then store[identity] else [];
      for i := 0 to |stream|
        invariant hash == OfKind(stream[..i], kind) && nextSeq == i + 1
      {
        assert stream[..i + 1][..i] == stream[..i];
        if KindOf(stream[i].record) == kind {
          hash := hash + [stream[i].record];
        }
        nextSeq := nextSeq + 1;
      }
      assert stream[..|stream|] == stream;
    }
  }

  lemma {:induction false} ConflictStays(stream: seq<Sealed>, identity: StreamIdentity, rows: seq<Record>, i: nat)
    requires i <= |rows| && AppendAll(stream, identity, rows[..i]).None?
    ensures AppendAll(stream, identity, rows).None?
  {
    if i < |rows| {
      assert rows[..|rows| - 1][..i] == rows[..i];
      ConflictStays(stream, identity, rows[..|rows| - 1], i);
    } else {
      assert rows[..i] == rows;
    }
  }
}
