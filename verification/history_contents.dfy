// What an export writes, said in terms of the rows it is made from.
module HistoryContents {
  import opened Common
  import opened HarnessState
  import opened HistoryReplica

  // ----- messages -----

  // the position of the first event that names the message, if one does
  predicate FirstNamed(events: seq<EventRow>, m: Id, author: Option<nat>) {
    match author
    case None => forall i :: 0 <= i < |events| ==> events[i].entity != m
    case Some(p) => p < |events| && events[p].entity == m && forall i :: 0 <= i < p ==> events[i].entity != m
  }

  // A message of the assistant comes with its attempt and that attempt's generation, one of the user with neither.
  predicate CarriesMessage(s: State, record: Record, identity: StreamIdentity, m: Id)
    requires m in s.core.messages
  {
    var row, p := s.core.messages[m], record.payload;
    && record.id == OfEntry(m) && record.logical == identity.logical && p.Entry?
    && p.message == m && p.sequence == row.sequence && p.request == row.request && p.content == row.content
    && (row.content.None? ==> p.attempt.None? && p.generation == 0)
    && (row.content.Some? ==> p.attempt == row.attempt)
    && (row.content.Some? && row.attempt.Some? && row.attempt.value in s.core.attempts ==>
          p.generation == s.core.attempts[row.attempt.value].generation)
    && FirstNamed(s.log.events, m, p.author)
  }

  lemma {:induction false} AuthorIsFirst(events: seq<EventRow>, m: Id)
    ensures FirstNamed(events, m, Author(events, m))
  {
    if events != [] {
      AuthorIsFirst(events[..|events| - 1], m);
    }
  }

  lemma EntryCarries(s: State, identity: StreamIdentity, m: Id)
    requires m in s.core.messages
    ensures CarriesMessage(s, EntryRecord(s, identity, m), identity, m)
  {
    AuthorIsFirst(s.log.events, m);
  }

  // ----- events -----

  // the event is of the dialog, of an attempt of it, or names a message or request of it
  predicate Concerns(s: State, dialog: Id, e: EventRow) {
    || e.dialog == Some(dialog)
    || (e.attempt.Some? && e.attempt.value in s.core.attempts && s.core.attempts[e.attempt.value].dialog == dialog)
    || (e.entity in s.core.messages && s.core.messages[e.entity].dialog == dialog)
    || (e.entity in s.core.requests && s.core.requests[e.entity].dialog == dialog)
  }

  // the row itself, its place in the log, and the request of the attempt it is about
  predicate CarriesEvent(s: State, record: Record, identity: StreamIdentity, i: nat)
    requires i < |s.log.events|
  {
    var e, p := s.log.events[i], record.payload;
    && record.id == OfFact(i) && record.logical == identity.logical && record.revision == 1 && p.Fact?
    && p.event == e && p.position == i
    && (e.attempt.Some? && e.attempt.value in s.core.attempts ==> p.request == Some(s.core.attempts[e.attempt.value].request))
  }

  // ----- commands -----

  // the command names the dialog, or its receipt a dialog or request, or it an attempt, of that dialog
  predicate Targets(s: State, dialog: Id, receipt: Receipt) {
    || receipt.created == Some(dialog)
    || (receipt.created.None? && NamesDialog(receipt.command, dialog))
    || (receipt.request.Some? && receipt.request.value in s.core.requests && s.core.requests[receipt.request.value].dialog == dialog)
    || (exists a :: a in s.core.attempts && NamesAttempt(receipt.command, a) && s.core.attempts[a].dialog == dialog)
  }

  predicate NamesDialog(command: Command, dialog: Id) {
    || (command.EnqueueMessage? && command.dialog == dialog)
    || (command.SteerMessage? && command.dialog == dialog)
    || (command.DeleteDialog? && command.dialog == dialog)
  }

  predicate NamesAttempt(command: Command, attempt: Id) {
    (command.StopAttempt? || command.RetryAttempt? || command.SteerMessage? || command.RespondApproval? || command.RespondInput?)
    && command.attempt == attempt
  }

  ghost predicate CarriesReceipt(s: State, record: Record, identity: StreamIdentity, c: Id)
    requires c in s.admin.commands
  {
    var receipt, p := s.admin.commands[c], record.payload;
    && record.id == OfReceipt(c) && record.logical == identity.logical && record.revision == 1 && p.Revision?
    && p.command == c && p.receipt == receipt
    && (receipt.request.Some? ==> p.request == receipt.request)
    && (forall a :: NamesAttempt(receipt.command, a) ==> p.attempt == Some(a))
  }

  lemma ReceiptCarries(s: State, identity: StreamIdentity, c: Id)
    requires c in s.admin.commands
    ensures ReceiptRecord(s, identity, c).Some? <==> Targets(s, identity.dialog, s.admin.commands[c])
    ensures ReceiptRecord(s, identity, c).Some? ==> CarriesReceipt(s, ReceiptRecord(s, identity, c).value, identity, c)
  {
    var receipt := s.admin.commands[c];
    if TargetAttempt(receipt.command).Some? {
      assert NamesAttempt(receipt.command, TargetAttempt(receipt.command).value);
    }
  }

  // ----- the manifest -----

  ghost predicate CarriesAssets(s: State, record: Record, identity: StreamIdentity) {
    && record.id.OfManifest? && record.logical == identity.logical && record.payload.Manifest?
    && record.payload.logical == identity.logical
    && (forall x :: x in record.payload.assets <==> x in s.rows.artifacts && s.rows.artifacts[x].dialog == identity.dialog)
    && (forall x :: x in record.payload.assets ==> record.payload.assets[x] == s.rows.artifacts[x])
  }

  // ----- the whole export -----

  ghost predicate HasMessage(s: State, stream: seq<Sealed>, identity: StreamIdentity, m: Id)
    requires m in s.core.messages
  {
    exists i :: 0 <= i < |stream| && CarriesMessage(s, stream[i].record, identity, m)
  }

  ghost predicate HasEvent(s: State, stream: seq<Sealed>, identity: StreamIdentity, k: nat)
    requires k < |s.log.events|
  {
    exists i :: 0 <= i < |stream| && CarriesEvent(s, stream[i].record, identity, k)
  }

  ghost predicate HasReceipt(s: State, stream: seq<Sealed>, identity: StreamIdentity, c: Id)
    requires c in s.admin.commands
  {
    exists i :: 0 <= i < |stream| && CarriesReceipt(s, stream[i].record, identity, c)
  }

  ghost predicate HasAssets(s: State, stream: seq<Sealed>, identity: StreamIdentity) {
    exists i :: 0 <= i < |stream| && CarriesAssets(s, stream[i].record, identity)
  }

  // what a record of the stream may be about: a row of the tables that is this dialog's
  ghost predicate IsOf(s: State, record: Record, identity: StreamIdentity) {
    match record.id
    case OfEntry(m) => m in s.core.messages && s.core.messages[m].dialog == identity.dialog && CarriesMessage(s, record, identity, m)
    case OfFact(i) => i < |s.log.events| && Concerns(s, identity.dialog, s.log.events[i]) && CarriesEvent(s, record, identity, i)
    case OfReceipt(c) => c in s.admin.commands && Targets(s, identity.dialog, s.admin.commands[c]) && CarriesReceipt(s, record, identity, c)
    case OfManifest(_, _) => CarriesAssets(s, record, identity)
  }

  // After an export, every message of the dialog, every event of it, every command that targets it and its assets
  // are in the stream with what they hold, and what the export added is nothing else.
  lemma ExportCarries(s: State, store: Store, identity: StreamIdentity, plan: Plan, revision: int)
    requires PlanOk(s, identity, plan) && Materialize(s, store, identity, plan, revision).Some?
    ensures var before := StreamOf(store, identity); var stream := Materialize(s, store, identity, plan, revision).value[identity];
      && before <= stream
      && (forall m :: m in s.core.messages && s.core.messages[m].dialog == identity.dialog ==> HasMessage(s, stream, identity, m))
      && (forall k: nat :: k < |s.log.events| && Concerns(s, identity.dialog, s.log.events[k]) ==> HasEvent(s, stream, identity, k))
      && (forall c :: c in s.admin.commands && Targets(s, identity.dialog, s.admin.commands[c]) ==> HasReceipt(s, stream, identity, c))
      && HasAssets(s, stream, identity)
      && (forall i :: |before| <= i < |stream| ==> IsOf(s, stream[i].record, identity))
  {
    hide EntryRecord, FactRecord, ReceiptRecord, ManifestRecord, CarriesMessage, CarriesEvent, CarriesReceipt, CarriesAssets, IsOf, Append, Concerns, Targets;
    var before, rows := StreamOf(store, identity), Candidates(s, identity, plan, revision);
    var stream := AppendAll(before, identity, rows).value;
    AllAreAppended(before, identity, rows);
    forall record | record in rows ensures Holding(stream, record) && IsOf(s, record, identity) {
      CandidateIsOf(s, identity, plan, revision, record);
    }
    forall m | m in s.core.messages && s.core.messages[m].dialog == identity.dialog ensures HasMessage(s, stream, identity, m) {
      var i :| 0 <= i < |plan.messages| && plan.messages[i] == m;
      assert Entries(s, identity, plan.messages)[i] == EntryRecord(s, identity, m);
      PartsOf(s, identity, plan, revision, EntryRecord(s, identity, m));
      EntryCarries(s, identity, m);
    }
    forall k: nat | k < |s.log.events| && Concerns(s, identity.dialog, s.log.events[k]) ensures HasEvent(s, stream, identity, k) {
      EventCarries(s, identity, k);
      PartsOf(s, identity, plan, revision, FactRecord(s, identity, k));
    }
    forall c | c in s.admin.commands && Targets(s, identity.dialog, s.admin.commands[c]) ensures HasReceipt(s, stream, identity, c) {
      var i :| 0 <= i < |plan.commands| && plan.commands[i] == c;
      ReceiptCarries(s, identity, plan.commands[i]);
      PartsOf(s, identity, plan, revision, ReceiptRecord(s, identity, c).value);
    }
    ManifestCarries(s, identity, revision);
    PartsOf(s, identity, plan, revision, ManifestRecord(s, identity, revision));
  }

  lemma {:induction false} AllAreAppended(stream: seq<Sealed>, identity: StreamIdentity, rows: seq<Record>)
    requires AppendAll(stream, identity, rows).Some?
    ensures var r := AppendAll(stream, identity, rows).value;
      && stream <= r && (forall record :: record in rows ==> Holding(r, record))
      && (forall i :: |stream| <= i < |r| ==> r[i].record in rows)
  {
    if rows != [] {
      var shorter, last := rows[..|rows| - 1], rows[|rows| - 1];
      AllAreAppended(stream, identity, shorter);
      var longer := AppendAll(stream, identity, shorter).value;
      var r := Append(longer, identity, last).value;
      LookupFinds(longer, last.id);
      assert |r| > |longer| ==> r[|longer|].record == last;
      assert Holding(r, last);
      forall record | record in rows && record != last ensures Holding(r, record) {
        assert record in shorter;
        HoldingStays(longer, r, record);
      }
    }
  }

  lemma EventCarries(s: State, identity: StreamIdentity, k: nat)
    requires k < |s.log.events|
    ensures CarriesEvent(s, FactRecord(s, identity, k), identity, k)
    ensures Concerns(s, identity.dialog, s.log.events[k]) <==> FactBelongs(s, identity.dialog, k)
  {
  }

  lemma ManifestCarries(s: State, identity: StreamIdentity, revision: int)
    ensures CarriesAssets(s, ManifestRecord(s, identity, revision), identity)
  {
  }

  lemma PartsOf(s: State, identity: StreamIdentity, plan: Plan, revision: int, record: Record)
    requires PlanOk(s, identity, plan)
    ensures record in Candidates(s, identity, plan, revision) <==>
              || record in Entries(s, identity, plan.messages) || record in Facts(s, identity, |s.log.events|)
              || record in Receipts(s, identity, plan.commands) || record == ManifestRecord(s, identity, revision)
  {
    hide EntryRecord, FactRecord, ReceiptRecord, ManifestRecord;
  }

  lemma {:induction false} OnlyFactsOf(s: State, identity: StreamIdentity, n: nat, record: Record)
    requires n <= |s.log.events| && record in Facts(s, identity, n)
    ensures exists k: nat :: k < n && FactBelongs(s, identity.dialog, k) && record == FactRecord(s, identity, k)
  {
    hide FactRecord, FactBelongs;
    if n > 0 && record in Facts(s, identity, n - 1) {
      OnlyFactsOf(s, identity, n - 1, record);
    }
  }

  lemma CandidateIsOf(s: State, identity: StreamIdentity, plan: Plan, revision: int, record: Record)
    requires PlanOk(s, identity, plan) && record in Candidates(s, identity, plan, revision)
    ensures IsOf(s, record, identity)
  {
    hide EntryRecord, FactRecord, ReceiptRecord, ManifestRecord, CarriesMessage, CarriesEvent, CarriesReceipt, CarriesAssets, Concerns, Targets, FactBelongs;
    PartsOf(s, identity, plan, revision, record);
    if record in Entries(s, identity, plan.messages) {
      var i :| 0 <= i < |plan.messages| && record == Entries(s, identity, plan.messages)[i];
      EntryCarries(s, identity, plan.messages[i]);
      assert record.id == OfEntry(plan.messages[i]) by { EntryIds(s, record, identity, plan.messages[i]); }
    } else if record in Facts(s, identity, |s.log.events|) {
      OnlyFactsOf(s, identity, |s.log.events|, record);
      var k: nat :| k < |s.log.events| && FactBelongs(s, identity.dialog, k) && record == FactRecord(s, identity, k);
      EventCarries(s, identity, k);
      EventIds(s, record, identity, k);
    } else if record in Receipts(s, identity, plan.commands) {
      var i :| 0 <= i < |Receipts(s, identity, plan.commands)| && record == Receipts(s, identity, plan.commands)[i];
      var k :| 0 <= k < |plan.commands| && Some(record) == ReceiptRecord(s, identity, plan.commands[k]);
      ReceiptCarries(s, identity, plan.commands[k]);
      ReceiptIds(s, record, identity, plan.commands[k]);
    } else {
      ManifestCarries(s, identity, revision);
      ManifestIds(s, record, identity);
    }
  }

  lemma EntryIds(s: State, record: Record, identity: StreamIdentity, m: Id)
    requires m in s.core.messages && CarriesMessage(s, record, identity, m)
    ensures record.id == OfEntry(m)
  {
  }

  lemma EventIds(s: State, record: Record, identity: StreamIdentity, i: nat)
    requires i < |s.log.events| && CarriesEvent(s, record, identity, i)
    ensures record.id == OfFact(i)
  {
  }

  lemma ReceiptIds(s: State, record: Record, identity: StreamIdentity, c: Id)
    requires c in s.admin.commands && CarriesReceipt(s, record, identity, c)
    ensures record.id == OfReceipt(c)
  {
  }

  lemma ManifestIds(s: State, record: Record, identity: StreamIdentity)
    requires CarriesAssets(s, record, identity)
    ensures record.id.OfManifest?
  {
  }

  // ----- the order of what is added -----

  // messages by sequence, then events by their place in the log, then receipts, then the manifest
  predicate InOrder(s: State, a: Record, b: Record) {
    match (a.id, b.id)
    case (OfEntry(m), OfEntry(n)) =>
      m in s.core.messages && n in s.core.messages && s.core.messages[m].sequence <= s.core.messages[n].sequence
    case (OfFact(i), OfFact(j)) => i < j
    case (OfEntry(_), _) => true
    case (OfFact(_), _) => !b.id.OfEntry?
    case (OfReceipt(_), _) => b.id.OfReceipt? || b.id.OfManifest?
    case (OfManifest(_, _), _) => false
  }

  lemma ExportKeepsOrder(s: State, store: Store, identity: StreamIdentity, plan: Plan, revision: int, i: nat, j: nat)
    requires PlanOk(s, identity, plan) && Materialize(s, store, identity, plan, revision).Some?
    requires |StreamOf(store, identity)| <= i < j < |Materialize(s, store, identity, plan, revision).value[identity]|
    ensures var stream := Materialize(s, store, identity, plan, revision).value[identity]; InOrder(s, stream[i].record, stream[j].record)
  {
    hide Append, PlanOk, InOrder;
    var rows := Candidates(s, identity, plan, revision);
    AddedInOrder(StreamOf(store, identity), identity, rows);
    var stream := AppendAll(StreamOf(store, identity), identity, rows).value;
    var a, b :| 0 <= a < b < |rows| && rows[a] == stream[i].record && rows[b] == stream[j].record;
    RowsInOrder(s, identity, plan, revision, a, b);
  }

  lemma {:induction false} AddedInOrder(stream: seq<Sealed>, identity: StreamIdentity, rows: seq<Record>)
    requires AppendAll(stream, identity, rows).Some?
    ensures var r := AppendAll(stream, identity, rows).value;
      && stream <= r
      && (forall i :: |stream| <= i < |r| ==> exists a :: 0 <= a < |rows| && rows[a] == r[i].record)
      && (forall i, j :: |stream| <= i < j < |r| ==> exists a, b :: 0 <= a < b < |rows| && rows[a] == r[i].record && rows[b] == r[j].record)
  {
    if rows != [] {
      var shorter, last := rows[..|rows| - 1], rows[|rows| - 1];
      AddedInOrder(stream, identity, shorter);
      var longer, r := AppendAll(stream, identity, shorter).value, AppendAll(stream, identity, rows).value;
      assert r == longer || (r[..|longer|] == longer && |r| == |longer| + 1 && r[|longer|].record == last);
      assert forall a :: 0 <= a < |shorter| ==> rows[a] == shorter[a];
      forall i, j | |stream| <= i < j < |r| ensures exists a, b :: 0 <= a < b < |rows| && rows[a] == r[i].record && rows[b] == r[j].record {
        if j < |longer| {
          var a, b :| 0 <= a < b < |shorter| && shorter[a] == longer[i].record && shorter[b] == longer[j].record;
          assert rows[a] == r[i].record && rows[b] == r[j].record;
        } else {
          var a :| 0 <= a < |shorter| && shorter[a] == longer[i].record;
          assert rows[a] == r[i].record && rows[|rows| - 1] == r[j].record;
        }
      }
      forall i | |stream| <= i < |r| ensures exists a :: 0 <= a < |rows| && rows[a] == r[i].record {
        if i < |longer| {
          var a :| 0 <= a < |shorter| && shorter[a] == longer[i].record;
          assert rows[a] == r[i].record;
        }
      }
    }
  }

  lemma RowsInOrder(s: State, identity: StreamIdentity, plan: Plan, revision: int, a: nat, b: nat)
    requires PlanOk(s, identity, plan) && a < b < |Candidates(s, identity, plan, revision)|
    ensures InOrder(s, Candidates(s, identity, plan, revision)[a], Candidates(s, identity, plan, revision)[b])
  {
    hide Candidates, Entries, Facts, Receipts;
    RowAt(s, identity, plan, revision, a);
    RowAt(s, identity, plan, revision, b);
    FactsAscend(s, identity, |s.log.events|);
  }

  lemma RowAt(s: State, identity: StreamIdentity, plan: Plan, revision: int, a: nat)
    requires PlanOk(s, identity, plan) && a < |Candidates(s, identity, plan, revision)|
    ensures var row := Candidates(s, identity, plan, revision)[a]; var n := |plan.messages|; var facts := Facts(s, identity, |s.log.events|);
      if a < n then row.id == OfEntry(plan.messages[a])
      else if a < n + |facts| then row == facts[a - n]
      else if a < n + |facts| + |Receipts(s, identity, plan.commands)| then row.id.OfReceipt?
      else row.id.OfManifest? && a == |Candidates(s, identity, plan, revision)| - 1
  {
    hide Facts;
    var entries, receipts := Entries(s, identity, plan.messages), Receipts(s, identity, plan.commands);
    assert forall i :: 0 <= i < |entries| ==> entries[i].id == OfEntry(plan.messages[i]);
    assert forall i :: 0 <= i < |receipts| ==> receipts[i].id.OfReceipt?;
  }

  // facts of events before this one, each later than the one before it
  predicate Ascend(facts: seq<Record>, n: nat) {
    && (forall i :: 0 <= i < |facts| ==> facts[i].id.OfFact? && facts[i].id.sequence < n)
    && (forall i, j :: 0 <= i < j < |facts| ==> facts[i].id.sequence < facts[j].id.sequence)
  }

  lemma {:induction false} FactsAscend(s: State, identity: StreamIdentity, n: nat)
    requires n <= |s.log.events|
    ensures Ascend(Facts(s, identity, n), n)
  {
    if n > 0 {
      FactsAscend(s, identity, n - 1);
      if FactBelongs(s, identity.dialog, n - 1) {
        OneMore(Facts(s, identity, n - 1), FactRecord(s, identity, n - 1), n - 1);
      }
    }
  }

  lemma OneMore(facts: seq<Record>, record: Record, n: nat)
    requires Ascend(facts, n) && record.id == OfFact(n)
    ensures Ascend(facts + [record], n + 1)
  {
  }
}
