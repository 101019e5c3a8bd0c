# Harness durability, verified in Dafny

These files model the parts of the system whose correctness no single function decides, and prove what
each of them keeps over whole runs:

* **The node authority** (`harness/node`): one single-writer store with its queue, attempts, control
  actions, approvals, inputs, administrative holds, event log and output ledgers, written as one state
  machine in which transactions, worker moves, adapter events, exports and crashes interleave freely.
* **The history replica**: an append-only, hash-chained stream materialized again and again from tables
  that keep changing.
* **Artifact files**: publication, commit, cleanup and start-up reconciliation of files beside rows.
* **Canonical serialization** of hold requests, with the sorting of keys by UTF-8 bytes.
* **The registry projection**, composed over chains of any length.
* **Three crash-recoverable journals on the host**: the component deployment, the executor file update
  and the enrolment staircase.

## How it is written

`harness_state.dfy` is the store: a map for each table, the node row, the log and what lives only in the
process. The specification of each transaction is a function over it (`harness_observe.dfy`,
`harness_admission.dfy`, `harness_hold.dfy`, `harness_actions.dfy`), and `harness_step.dfy` makes them
steps and runs: `Run(Init(v), steps)` is any interleaving at all, with arbitrary arguments, a refused
transaction leaving the state alone. What the code does not do atomically is split as in the code: peeking
and dispatching, claiming, taking the gate, reading, calling, settling, finishing.
`harness_node.dfy` is the program's own form: a class with a field for each table whose methods update
them in place, each proved to produce exactly the state of its specification. Its `Take` does any one step
by these methods, and `Live` in `harness_life.dfy` any schedule of them on a new object, so what holds in
every run is proved of the object there.

What each kind of step asks of the store and what it leaves, row by row and event by event, is in
`harness_commands.dfy`, `harness_holding.dfy`, `harness_workers.dfy` and `harness_reports.dfy`.
`harness_queue.dfy` is the order in which requests and actions are taken.

The invariants are in `harness_invariant.dfy` (what all runs keep), `harness_frame.dfy` and
`harness_persistence.dfy` (what steps leave alone), `harness_quiescence.dfy`, `harness_hold_history.dfy`,
`harness_deletion.dfy`, `harness_delivery.dfy`, `harness_endings.dfy`, `harness_ledger.dfy`,
`harness_slot.dfy`, `harness_blocked.dfy` and `harness_pending.dfy`. `harness_runs.dfy` are four concrete
runs, one for each property that some run does not have. `harness_history.dfy` and `history_replica.dfy`
build the replica on the same runs, and `history_contents.dfy` says what an export writes.

The host journals and the artifact volume are classes whose methods are single effects. Between any two
effects the process may die: an invariant (`Inv`, `Valid`) holds after each of them, and a driver method
(`Operate`, `Update`, `Live`) runs any number of processes. What may fail is a parameter (`Luck`, `failing`,
`idle`) or a Boolean choice, and a process that is left alone (`reliable`, `calm`) is proved to succeed
where it should. The effects on the volume are a relation between states, `Stepped`. The Docker daemon and
the router are environments: an accepted mutation may land late or never, other operations move other
routes, and a batch compare-and-swap may lose its reply. A node gets new work only while its route is
eligible, as the router blocks commands to draining and sealed routes
(`internal/harnessrouter/router.go:363-383`).

`router_control.dfy` is the router's answer to a control action, which the deployment and the registry
projection share; `common.dfy`, `row_sets.dfy` and `utf8_text.dfy` are what several of these use.

Identities, timestamps and digests are integers; a digest stands for what it was computed from. Names
drawn from random sources are parameters, and a step that draws one already in use is refused like the
primary key would refuse it. So is a write that would leave two live attempts, like the unique index on
active attempts (`harness/node/schema.go:476`) would.

## Main results

Over every run of the node: no start under a hold (`NoStartUnderHold`), lasting quiescence
(`QuiescenceLasts`), holds that never overlap, are numbered upwards and end once (`RunKeepsRules`,
`LaterHoldsAreNewer`, `HoldsEndOnce`), command and deletion outcomes fixed forever (`OutcomeForever`,
`DeletionForever`), events delivered once, with the exact exceptions (`DeliveredOnce`,
`ReportDeliveredAgainIff`, `EndDeliveredIff`), deletion that is final (`DeletedForever`), budgets that hold
of the run's own charges (`LedgerIsCharged`, `BudgetHoldsInEveryRun`, `LimitIsWrittenOnce`), one live
attempt (`OneLiveAttempt`), lasting ends with the exact exception (`EndedForever`, `EndedChangesInRunsIff`),
attempts that can never end (`BlockedForever`, `ReturnBlocksForever`), an exact pending count with the exact
exception (`PendingCountIsExact`, `CountIsExactIff`), and first in, first out (`QueueIsFifo`, `LaneIsFifo`).
Over every life of the object: the same of its fields (`HarnessLife.Live`). Of every single step: when it is
taken and what it leaves, field by field (`RetryMeans`, `SteerAnswerMeans`, `DeleteMeans`, `ReportMeans`,
`ReconcileMeans` and the others).

Over every run of node and replica: exports that extend and never contradict each other
(`ExportsNeverConflict`) and carry every row of the dialog (`ExportCarries`). Over every life of a volume:
rows that always name durable bytes, and a reconciliation that leaves exactly those files (`Live`,
`StepKeeps`, `Reconcile`). Over every sequence of crashed processes: the promises of the deployment journal
and routes that are reopened before anything is reported as done (`Operate`, `Apply`, `Reconcile`), whole
sets of executor files that import (`Update`, `ServiceRunsAWholeSet`) and the enrolment staircase
(`Execute`, `Operate`). Over every chain of projections: agreement of manifest and router (`ChainAgrees`,
`OneNodeChanges`, `AcceptedIff`, `TransitionAgrees`). For every value: a canonical text that reads back and
has the one form (`RoundTrip`, `EqualBytesEqualValues`, `ObjectForm`, `AppendCanonical`).

## What the proofs found

* **An ended attempt can come back.** Responses to approvals and inputs are admitted without asking
  whether the attempt still holds the slot (`harness/node/control_handlers.go:146-200`), and an unknown
  answer marks the attempt unknown without asking either (`harness/node/actions.go:463`). The unique index
  refuses that write while another attempt is live; when none is, the ended attempt is back in the slot.
  `HarnessRuns.EndedAttemptComesBack` is such a run; `HarnessSlot.EndedChangesInRunsIff` says that this is
  the only way, at any point of any run; `HarnessSlot.EndedForever` holds when responses are admitted for
  the slot holder only. There is never a second live attempt, with or without that
  (`HarnessSlot.OneLiveAttempt`).
* **And then it stays.** The lost answer is owed for good, and while one is owed every terminal report
  keeps the attempt unknown (`harness/node/observe.go:715-731`) and every reconciliation is refused:
  `HarnessBlocked.ReturnBlocksForever` says that the node dispatches nothing any more, and
  `HarnessBlocked.BlockedForever` says so of every unknown slot holder with a lost control answer.
* **The pending count can stay wrong.** An undeclared steer answer first marks the attempt unknown and then
  finishes the steer in a second transaction (`harness/node/actions.go:179-182`). If that one fails, whose
  error is dropped, or the process dies between them, the count stays one too high:
  `HarnessRuns.CountStaysWrong` is such a run, and `HarnessPending.CountIsExactIff` says that the count is
  exact all along a run if and only if no step of it is such a first commit.
* **A report of unknown execution can be recorded twice.** It has no projection row, so delivered again after
  its attempt was reconciled to an end it is archived as a late event: `HarnessRuns.ReportIsArchivedLater` is
  such a run, `HarnessDelivery.ReportDeliveredAgainIff` the exact condition.
* **So can a completion.** Its digest names the newest assistant message and is computed anew for the
  comparison (`harness/node/observe.go:934-956`), so after the attempt came back and wrote another message
  the same report is archived: `HarnessRuns.CompletionIsArchivedLater` is such a run,
  `HarnessEndings.EndDeliveredIff` the exact condition.
* **Zero may be spelled two ways.** The serializer keeps the text of a number, so `-0` and `0` have different
  bytes although section 3.2.2.3 of RFC 8785 would write both as `0`; `CanonicalJson.SameNumberSameText` says
  that this is the only pair. Keys sort by code points, not by UTF-16 units as in section 3.2.3.
* **A cancelled request's event always carries version 2** (`harness/node/command_handlers.go:183`), and an
  attempt whose start was rejected ends with `execution_unknown` left among the blocked reasons, if it was
  there (`harness/node/observe.go:617-622`). The model does the same, and nothing is claimed to the contrary.

## Model

| member | source | states |
|---|---|---|
| `HarnessQuiescence.NoStartUnderHold` | harness/node/hold.go:110-168 | In every interleaving, a start or resume call is made or about to be made only for a dialog that no active hold covers, and until it is over every installation is turned away busy, however early the action was committed or claimed. |
| `HarnessInvariant.RunKeepsBase` | harness/node/actions.go:208-286 | The invariant behind it, in every run: tables refer to rows that exist, each worker's phase fits its action, and between the covering check and the end of the call the gate is held and no hold covers the dialog. |
| `HarnessInvariant.NextKeepsBase` | harness/node/actions.go:88-138 | Each step of any kind, from any state that satisfies the invariant, keeps it; this is what makes admission, dispatch, workers, reports, holds, deletion and restart safe in combination. |
| `HarnessQuiescence.NextIsApart` | harness/node/observe.go:115-138 | While a scope is sealed and nothing in it is live or unsettled, no step changes its attempts, controls, tool calls, approvals or inputs; of its requests a queued one may only be cancelled, and only output counters of ended attempts may move. |
| `HarnessQuiescence.NextKeepsQuiescence` | harness/node/hold.go:311-373 | A proved quiescence survives every step that does not end the hold, and no request is added to the parked ones. |
| `HarnessQuiescence.QuiescenceLasts` | harness/node/hold.go:260-387 | Once proved for an active hold, quiescence stays provable in every continuation of the run until that hold ends, the hold row unchanged and the parked requests a subset of what they were. |
| `HarnessQuiescence.HeldSince` | harness/node/hold.go:161-211 | The row of a hold is never removed, in any continuation of a run. |
| `HarnessQuiescence.ApartKeepsParked` | harness/node/hold.go:311-373 | If a step leaves a scope's rows alone in the sense above, everything the quiescence proof checks still holds and its parked requests only shrink. |
| `HarnessSlot.OneLiveAttempt` | harness/node/schema.go:476-476 | In every run, whoever answers what: an attempt is live if and only if the active slot names it, so there is at most one, and whoever is owed a steer answer is live, although steer and response answers mark attempts unknown without looking at the slot. |
| `HarnessSlot.NextKeepsSlotted` | harness/node/observe.go:574-603 | Each single step keeps the slot naming exactly the live attempts and steer answers owed to live ones only. |
| `HarnessSlot.ReturnKeepsSlotted` | harness/node/observe.go:574-603 | Even the step that brings an attempt back leaves it the only live one, in the slot. |
| `HarnessSlot.EndedForever` | harness/node/observe.go:711-823 | When responses are admitted only for the slot holder, a completed, failed or interrupted attempt keeps its state and effects in every continuation. |
| `HarnessSlot.OwedAnswersHoldSlot` | harness/node/control_handlers.go:146-200 | When responses are admitted only for the slot holder, every answer still owed is for the slot holder, in every run. |
| `HarnessSlot.EndedChangesIff` | harness/node/actions.go:451-471 | A step changes the state of an ended attempt if and only if it commits an unknown answer to an approval or input response recorded for that attempt while no other attempt is live; of any state that satisfies the invariants that every run keeps. |
| `HarnessSlot.EndedChangesInRunsIff` | harness/node/actions.go:451-471 | The same at any point of any run, with no hypothesis: the next step changes the state of an ended attempt if and only if the slot is empty and the step commits an unknown answer to a response recorded for that attempt. |
| `HarnessSlot.ResponseResurrects` | harness/node/actions.go:463-471 | What that one step does: the ended attempt becomes unknown and takes the active slot. |
| `HarnessSlot.NoResurrection` | harness/node/control_handlers.go:146-200 | Where every owed answer is for the slot holder, as in every run under the hypothesis of EndedForever, the one bad step cannot occur. |
| `HarnessSlot.NextIsSound` | harness/node/observe.go:574-603 | A step that is not that one brings no ended attempt back, leaves the slot naming the live attempts and, admitted under the hypothesis, the owed answers with the slot holder. |
| `HarnessSlot.EndedStays` | harness/node/reconcile.go:71-134 | Every other step, reconciliation of unknown attempts included, leaves an ended attempt's state and effects as they are. |
| `HarnessRuns.EndedAttemptComesBack` | harness/node/control_handlers.go:169-200 | A run from an empty node in which an attempt that was interrupted, or completed, comes back as unknown and occupies the slot: an input response is admitted for it after it ended and answered uncertainly. |
| `HarnessBlocked.BlockedForever` | harness/node/observe.go:711-731 | In every run: once the answer to a steer, approval or input action of the unknown slot holder is lost, that attempt is the unknown holder of the slot in every continuation, whatever is reported, reconciled or restarted, and no request is dispatched any more. |
| `HarnessBlocked.NextStaysStuck` | harness/node/reconcile.go:71-134 | Each single step keeps it so, reconciliation, terminal reports, answers, deletion and restart included. |
| `HarnessBlocked.ReturnBlocksForever` | harness/node/control_handlers.go:146-200 | An ended attempt that comes back is such a one, in every run: it never leaves the slot again and the node dispatches nothing more. |
| `HarnessEndings.UnknownEndsIff` | harness/node/observe.go:711-731 | A terminal report that proves its effects ends the unknown slot holder if and only if no control answer is owed for it. |
| `HarnessPending.PendingCountIsExact` | harness/node/command_handlers.go:114-141 | When steer calls answer an error or a declared outcome, and whoever responds to what: the pending count is the number of queued requests and lies between 0 and the capacity of 100 in every run; a message whose steer is owed keeps its place in the queue, so it is never dispatched and decremented twice. |
| `HarnessPending.NextKeepsPending` | harness/node/actions.go:376-397 | Every step that is not the breaking commit keeps that count right, with what it needs of slot and queue. |
| `HarnessPending.CountBreaksIff` | harness/node/actions.go:179-182 | A step makes the count wrong if and only if it commits an undeclared steer answer for a slot holder that is not yet unknown, while the steered request is queued; the count then is one too high. |
| `HarnessPending.CountIsExactIff` | harness/node/actions.go:364-411 | With no assumption about adapters: the count is exact all along a run if and only if no step of it is such a commit. |
| `HarnessPending.UndeclaredSteerIsOffByOne` | harness/node/actions.go:179-182 | After that commit the second one puts the count right; if the second transaction fails, with no crash at all, or the process crashes in between, it stays one too high. |
| `HarnessRuns.CountStaysWrong` | harness/node/actions.go:179-182 | A run from an empty node that gets there: a message is steered, the answer is undeclared, the second transaction fails, and the count says one with nothing queued. |
| `HarnessQueue.QueueIsFifo` | harness/node/dispatch.go:67-82 | In every run, of two requests the one that came into the table first is dispatched first: while it waits in a dialog nothing holds, no step creates an attempt for a request that was not there yet when it was, and commands, steers, answers and restarts in between change nothing about that. |
| `HarnessQueue.LaneIsFifo` | harness/node/actions.go:88-138 | In every run, of two waiting actions of one lane the later one is not claimed while the earlier one may be. |
| `HarnessQueue.NewAttemptIsFirst` | harness/node/dispatch.go:67-82 | Whatever step creates an attempt, it is for a waiting request that nothing holds and that has no larger number than any other such request. |
| `HarnessQueue.NextRises` | harness/node/command_handlers.go:114-141 | In every step a request or action that is new has a larger number than every one there was, and those keep theirs. |
| `HarnessPersistence.RunPersists` | harness/node/observe.go:1134-1151 | In every run rows stay and stay about the same thing, events and projections are only appended, started attempts stay started, and requests and attempts never return to an earlier phase. |
| `HarnessDelivery.KeyedOnce` | harness/node/observe.go:1098-1115 | An event under a projection key that was used changes nothing at all, whatever it carries and whether the attempt is live, stopping, unknown or over. |
| `HarnessDelivery.WaitedOnce` | harness/node/observe.go:876-932 | The same for a repeated wait, whose key carries a version: an attempt that once waited never runs again. |
| `HarnessDelivery.DeliveredOnce` | harness/node/observe.go:83-163 | Delivering again, at any later point of any run, an event that was projected live under its own content leaves the whole store unchanged: messages, tool calls, approvals, inputs, events, ledgers. |
| `HarnessDelivery.ReportDeliveredAgainIff` | harness/node/observe.go:125-138 | A report of unknown execution, which has no projection row: delivered again at any later point of any run it changes nothing if and only if its attempt is still the unknown slot holder, its dialog is deleted, such a report is archived, or the budget is spent; otherwise it is archived as late. |
| `HarnessDelivery.ReportIgnoredIff` | harness/node/observe.go:83-163 | The same for one report in any state: ignored if and only if it is misaddressed, finds its attempt unknown in the slot or another one live, or outside the slot finds itself archived or the budget spent. |
| `HarnessRuns.ReportIsArchivedLater` | harness/node/observe.go:1157-1222 | A run from an empty node in which the second delivery does change something: the attempt was reconciled in between, and the report gets a late event and a late row. |
| `HarnessEndings.EndDeliveredIff` | harness/node/observe.go:876-956 | A terminal report that ended its attempt, delivered again at any later point of any run, changes nothing if and only if the dialog is deleted, it did not report a completion, the newest assistant message of the attempt is still the one of its end, a terminal report is archived, the budget is spent or the report alone exceeds it; otherwise it gets a late row. |
| `HarnessEndings.EndDeliveredOnce` | harness/node/observe.go:711-823 | So it changes nothing as long as the attempt has not come back. |
| `HarnessEndings.EndOrReturn` | harness/node/observe.go:125-138 | In every continuation an ended attempt is out of the slot with the newest assistant message it had, unless its budget is spent, or it has come back for good. |
| `HarnessEndings.NewestStays` | harness/node/artifact.go:189-220 | No step gives an attempt outside the slot another newest assistant message, except an artifact that passes the budget and leaves the limit marker. |
| `HarnessRuns.CompletionIsArchivedLater` | harness/node/observe.go:934-956 | A run from an empty node in which it is recorded twice: the attempt completes, comes back, gets one more assistant message, and the same terminal report is archived. |
| `HarnessDeletion.SettledIsBuried` | harness/node/command_handlers.go:51-100 | What a deletion checks is exactly that the dialog's scope is quiet and none of its requests waits. |
| `HarnessDeletion.TombstoneComesFromDelete` | harness/node/logical_delete.go:72-205 | A tombstone is never removed and appears only in a step that finds the dialog settled and touches none of its rows. |
| `HarnessDeletion.NextFreezes` | harness/node/command.go:251-293 | No step changes a row of a deleted dialog, in any table. |
| `HarnessDeletion.DeletedForever` | harness/node/logical_delete.go:21-212 | In every run a deleted dialog was settled, stays deleted, and every attempt, request, message, control, tool call, approval, input and artifact row of it is the same ever after, with none added. |
| `HarnessHoldHistory.RunKeepsRules` | harness/node/hold.go:161-211 | In every run active holds never overlap, each hold has a version of its own below the next one to be given, and a scope's revision is odd exactly while it has an active hold, whose recorded revision it then equals. |
| `HarnessHoldHistory.LaterHoldsAreNewer` | harness/node/hold.go:161-211 | In every run a hold that is installed later has a larger version than every hold before it, ended ones included. |
| `HarnessHoldHistory.InstallKeepsRules` | harness/node/hold.go:110-230 | An installation keeps those rules: it is refused where a hold overlaps or the revision differs, and takes the next version. |
| `HarnessHoldHistory.EndKeepsRules` | harness/node/hold.go:438-502 | Ending an active hold, by release or deletion, keeps those rules. |
| `HarnessHoldHistory.HoldsEndOnce` | harness/node/hold.go:404-514 | A step that ends a hold is a release or deletion that names it and ends no other; the hold row is never rewritten and its outcome, once there, stays. |
| `HarnessHoldHistory.OutcomeForever` | harness/node/command.go:84-111 | Once a command has a receipt or a hold rejection, in every continuation the same bytes change nothing and get that outcome back, even after the rejecting hold is gone, or not-found once its dialog is deleted; other bytes under its id are refused. |
| `HarnessHoldHistory.DeletionForever` | harness/node/logical_delete.go:72-205 | A deletion writes its receipt, tombstone and record together; in every continuation they stay, any command under its id changes nothing and is refused, and the deletion repeated changes nothing and is answered from its record. |
| `HarnessHoldHistory.NextKeepsOutcomes` | harness/node/hold.go:592-625 | No command id ever has both a receipt and a rejection, and no step rewrites or removes either. |
| `HarnessLedger.BudgetHoldsInEveryRun` | harness/node/observe.go:1176-1215 | In every run, over live, archived and artifact output mixed in any order: of the bytes the run charged to an attempt at most 64 MiB were accepted, they equal its ledger until that overflows, and the overflow was announced exactly once. |
| `HarnessLedger.LedgerIsCharged` | harness/node/observe.go:1157-1222 | In every run an attempt's stored ledger, its row and its archived rows together, is exactly what that run's own charges leave, in their order. |
| `HarnessLedger.StepIsCharged` | harness/node/artifact.go:189-220 | A step charges each attempt exactly the bytes of the event it newly projects or archives for it, a failure's safe message included, or of its new artifact or limit marker: at most one charge, and none to anyone else. |
| `HarnessLedger.LimitMeansCrossing` | harness/node/observe.go:468-504 | A step that writes an attempt's limit, as marker, message or stop, is the one in which its ledger passes the maximum. |
| `HarnessLedger.LimitIsWrittenOnce` | harness/node/observe.go:468-504 | So at most one step of any run writes it. |
| `HarnessLedger.NextNoCharge` | harness/node/command_handlers.go:102-155 | Commands, dispatch, worker answers, holds and restarts charge nothing. |
| `HarnessHistory.NextExtends` | harness/node/history_export.go:220-290 | What each step adds for the replica: events are appended about attempts that exist, messages keep their content, assistant messages are never rewritten, new requests are announced. |
| `HarnessHistory.NextKeepsHistory` | harness/node/history_export.go:292-346 | Every request's message and every assistant message is named by an event, and stays so. |
| `OutputBudget.BudgetHolds` | harness/node/output_budget.go:25-62 | Over any sequence of charges the accepted bytes never exceed 64 MiB, equal the ledger total until it overflows, and the overflow is announced exactly once. |
| `OutputBudget.OverflowIsSticky` | harness/node/output_budget.go:97-106 | After an overflow no charge of any kind is accepted and the ledger stays as it is. |
| `OutputBudget.ApplyEffect` | harness/node/output_budget.go:76-95 | Live and archived charges have the same effect on the total: exceeded exactly when the sum passes the maximum, newly exceeded exactly at the crossing. |
| `OutputBudget.AttemptOutput.ChargeAttemptOutput` | harness/node/output_budget.go:25-62 | The update of the output_bytes row is the live charge of the specification, an overflowed ledger left alone. |
| `OutputBudget.AttemptOutput.ArchiveOutput` | harness/node/observe.go:1176-1215 | The archived charge with the row it inserts is the archived charge of the specification. |
| `HarnessNode.Node.AppendEvent` | harness/node/events.go:12-35 | The event gets the next sequence number and nothing else changes. |
| `HarnessNode.Node.MarkUnknown` | harness/node/observe.go:574-603 | An attempt of another generation is an error, as is one beside another live attempt, which the unique index refuses; an unknown one is left alone, any other becomes unknown and takes the slot, its request follows, and one attempt event and one node event are appended. |
| `HarnessNode.Node.MarkAttempt` | harness/node/observe.go:556-572 | Marks only the holder of the slot. |
| `HarnessNode.Node.EndTerminal` | harness/node/observe.go:605-640 | The terminal write: attempt, request, empty slot, idle node; blocked reasons stay, execution_unknown included. |
| `HarnessNode.Node.ReportFailure` | harness/node/observe.go:506-554 | A rejected dispatch ends the attempt as failed without effects, or does nothing when it is no longer the one that was dispatched. |
| `HarnessNode.Node.CreateDialogRow` | harness/node/command_handlers.go:28-49 | Creates the dialog or refuses with the store unchanged. |
| `HarnessNode.Node.EnqueueMessageRow` | harness/node/command_handlers.go:102-155 | Message, request, pending count and events together, within the capacity of 100, or nothing. |
| `HarnessNode.Node.CancelRequestRow` | harness/node/command_handlers.go:157-195 | A queued request of the given version is cancelled and leaves the count, its event carrying version 2; otherwise nothing changes. |
| `HarnessNode.Node.ResumeQueueRow` | harness/node/command_handlers.go:197-216 | Unpauses a paused queue of the given version, or refuses. |
| `HarnessNode.Node.StopAttemptRow` | harness/node/control_handlers.go:12-49 | A live attempt of the given generation becomes stopping with a stop action, or nothing changes. |
| `HarnessNode.Node.RetryAttemptRow` | harness/node/control_handlers.go:51-106 | Requeues an ended attempt's message with its unknown effects acknowledged, or refuses. |
| `HarnessNode.Node.SteerMessageRow` | harness/node/control_handlers.go:108-144 | A queued message of the slot holder's dialog waits for its steer, which carries that message's own request, or nothing changes. |
| `HarnessNode.Node.RespondApprovalRow` | harness/node/control_handlers.go:146-167 | Records the response and its action for a pending approval; the attempt's hold on the slot is not asked for, as in the code. |
| `HarnessNode.Node.RespondInputRow` | harness/node/control_handlers.go:169-200 | The same for an input request. |
| `HarnessNode.Node.Apply` | harness/node/command.go:295-318 | Each command reaches its handler. |
| `HarnessNode.Node.Submit` | harness/node/command.go:43-184 | Admission in the code's order: stored outcome, owner and tombstone checks, covering hold, handler, receipt; a refused command leaves no trace but a hold rejection. |
| `HarnessCommands.RepliesMean` | harness/node/command.go:43-185 | What every reply means: a used identity gets its stored outcome or is refused, a new command is unknown here, held back or left to its own conditions, each said of the rows and holds it names. |
| `HarnessCommands.OutcomeIsWritten` | harness/node/command.go:112-184 | A refused command moves nothing, an admitted one leaves exactly one receipt and one held back exactly one rejection. |
| `HarnessCommands.ReceiptNames` | harness/node/command.go:140-175 | The receipt names the dialog that was made, or the request that was queued or cancelled. |
| `HarnessCommands.CreateMeans` | harness/node/command_handlers.go:28-49 | Admitted if and only if the registry version is current, the identity new and nothing holds the node; the dialog is there at version one. |
| `HarnessCommands.EnqueueMeans` | harness/node/command_handlers.go:102-155 | Admitted if and only if the dialog is there at this version, nothing holds it and fewer than 100 requests wait; message and request get the next numbers, the count and the versions rise by one, and the three events say so. |
| `HarnessCommands.CancelMeans` | harness/node/command_handlers.go:157-195 | Admitted if and only if the request waits at this version; message and request are cancelled and the count is one lower. |
| `HarnessCommands.ResumeMeans` | harness/node/command_handlers.go:197-216 | Admitted if and only if the queue has this version and nothing holds the node; the pause and its reason go and no other reason does. |
| `HarnessCommands.StopMeans` | harness/node/control_handlers.go:12-49 | Admitted if and only if the attempt has the slot, this generation and is not yet unknown; it is stopping, with a stop action that waits, and the queue is paused. |
| `HarnessCommands.RetryMeans` | harness/node/control_handlers.go:51-106 | Admitted if and only if the attempt failed or was interrupted, its effects are none, or known and acknowledged, nothing is waiting or under way for the same message, its dialog is not held and the queue has room; exactly one request is added, with the next number. |
| `HarnessCommands.SteerMeans` | harness/node/control_handlers.go:108-144 | Admitted if and only if the message waits at this version in the dialog of the attempt in the slot, which runs or waits for input; the message is set aside with a steer action for its own request. |
| `HarnessCommands.ApprovalMeans` | harness/node/control_handlers.go:146-167 | Admitted if and only if the approval is pending at this version for this attempt, generation and action hash; it is answered once, with an action that waits, and nothing else moves. |
| `HarnessCommands.InputMeans` | harness/node/control_handlers.go:169-200 | The same for a question, whose answer becomes a message of the dialog. |
| `HarnessNode.Node.Install` | harness/node/hold.go:91-230 | Installs, replays or refuses a hold, busy while a start call has the gate. |
| `HarnessNode.Node.Release` | harness/node/hold.go:404-514 | Ends exactly the named hold or replays its outcome; anything else changes nothing. |
| `HarnessNode.Node.BuryDialog` | harness/node/command_handlers.go:51-100 | Tombstone and event for a settled dialog, or a refusal. |
| `HarnessNode.Node.Delete` | harness/node/logical_delete.go:21-212 | Tombstone, receipt, hold outcome and deletion record in one transaction, or none of them. |
| `HarnessHolding.InstallMeans` | harness/node/hold.go:91-230 | Installed if and only if no start is being called or is ahead in the scope, no active hold meets it, and request, registry, epoch and revision fit; the hold gets the next version of the node and the next revision of its scope. A repeated request finds it, another one under the same identity is refused. |
| `HarnessHolding.ReleaseMeans` | harness/node/hold.go:404-514 | Released if and only if the request describes the active hold in every field and its scope has not moved; the outcome is written and the revision moves on. |
| `HarnessHolding.QuiescenceMeans` | harness/node/hold.go:260-387 | The proof is given if and only if the hold is active, made for this epoch and registry, at the present revision of its scope, and every attempt, effect, action, tool call, question and request of the scope has a known end or waits in the queue. |
| `HarnessHolding.DeleteMeans` | harness/node/logical_delete.go:21-212 | Deleted if and only if the dialog's own hold is meant, the command is new, and the dialog is at rest with nothing waiting; tombstone, event, receipt, the hold's end and the record are written together. |
| `HarnessNode.Node.FirstInQueue` | harness/node/dispatch.go:150-173 | Finds the oldest queued request whose dialog no hold covers, or shows that every queued one is covered. |
| `HarnessNode.Node.PeekNext` | harness/node/dispatch.go:29-33 | Remembers a candidate and changes nothing durable. |
| `HarnessNode.Node.PeekAt` | harness/node/dispatch.go:150-173 | Remembers a request that comes first in an open queue; any other is left. |
| `HarnessNode.Node.BlockOnPolicy` | harness/node/dispatch.go:184-205 | Blocks the node once for an unavailable policy. |
| `HarnessWorkers.PeekMeans` | harness/node/dispatch.go:150-173 | A candidate is taken only from an open queue with an empty slot, a positive count and no unknown execution, and it is the waiting request with the smallest number that nothing holds. |
| `HarnessWorkers.DispatchMeans` | harness/node/dispatch.go:49-140 | The candidate becomes an attempt if and only if it is still the first of the queue with nothing having happened since, in the next generation of its message; then attempt, request, message, start action, slot, counters and events are exactly these. |
| `HarnessWorkers.BlockMeans` | harness/node/dispatch.go:184-205 | The node is blocked for its policy, with an event, unless it is so already. |
| `HarnessNode.Node.CommitDispatch` | harness/node/dispatch.go:84-140 | Attempt, action, request row, slot and count for a candidate, or nothing, also when some attempt is still live. |
| `HarnessNode.Node.DispatchPeeked` | harness/node/dispatch.go:49-82 | Dispatches the candidate only if it is still the first and everything that was read unlocked still holds. |
| `HarnessNode.Node.DispatchAs` | harness/node/dispatch.go:49-141 | The candidate is dispatched or dropped, and used up either way. |
| `HarnessNode.Node.OldestAction` | harness/node/actions.go:96-112 | Finds the oldest claimable action of a lane or shows that there is none. |
| `HarnessNode.Node.ClaimNext` | harness/node/actions.go:88-138 | The claimed action becomes inflight and gets a worker. |
| `HarnessNode.Node.ClaimRow` | harness/node/actions.go:96-138 | The oldest row of its lane becomes inflight; any other is left. |
| `HarnessWorkers.ClaimMeans` | harness/node/actions.go:88-138 | A waiting action becomes inflight with a worker if and only if it is the first of its lane that may be taken, starts in held dialogs not among them. |
| `HarnessWorkers.StartMoves` | harness/node/actions.go:208-241 | Gate, read and call of a start: the call is made only for an attempt that still dispatches under a sound policy, and resumes if and only if an earlier attempt of the dialog ended. |
| `HarnessWorkers.AnswerMoves` | harness/node/actions.go:242-284 | An answer reaches the worker that is calling, or that has claimed an action other than a start; the gate is freed when its worker is gone. |
| `HarnessNode.Node.EnterGate` | harness/node/actions.go:208-215 | A dispatch worker takes the gate only when it is free. |
| `HarnessNode.Node.ReadSnapshot` | harness/node/actions.go:216-241 | Goes on to the call only if the attempt is still dispatching and its policy snapshot is sound; anything else is an uncertain dispatch. |
| `HarnessNode.Node.BeginAdapterCall` | harness/node/actions.go:242-262 | Adapter.Start or Adapter.Resume is entered only by the worker that has the gate and read its dispatch. |
| `HarnessNode.Node.TakeReply` | harness/node/actions.go:140-206 | The adapter's answer reaches the worker that asked. |
| `HarnessNode.Node.MarkStartedRow` | harness/node/actions.go:288-333 | The attempt runs, its request is active, one event each, or an error with nothing changed. |
| `HarnessNode.Node.FinishSteerRow` | harness/node/actions.go:364-411 | Applies the answer to a message whose steer is owed: only a fallback keeps it queued; an unknown one marks the attempt unknown too. |
| `HarnessNode.Node.FinishResponseRow` | harness/node/actions.go:451-471 | Resolves, reopens or marks unknown the answered row, if it is still of that version, and on an unknown answer the attempt; an error if another attempt is live. |
| `HarnessNode.Node.SettleWorker` | harness/node/actions.go:140-206 | What a worker commits for its answer, including the double commit of a protocol fault and the transaction error it ignores. |
| `HarnessWorkers.StartAnswerMeans` | harness/node/actions.go:242-284 | Accepted, the attempt runs and its request is active; rejected, it has failed without effects, or a late note is left; anything else leaves it unknown; an acceptance that cannot be committed is an uncertain start. |
| `HarnessWorkers.StopAnswerMeans` | harness/node/actions.go:149-166 | The answer says how the stop ended, and only an uncertain one touches the attempt. |
| `HarnessWorkers.SteerAnswerMeans` | harness/node/actions.go:364-411 | Accepted, the message is applied and its request done; rejected or left to the fallback, it waits in the queue again; unknown, the message, its request and the attempt are. |
| `HarnessWorkers.ResponseAnswerMeans` | harness/node/actions.go:413-471 | Accepted, the approval or input row is resolved and announced; rejected, it waits for another answer; unknown, row and attempt are; a row that moved on to another version is left. |
| `HarnessWorkers.UnknownMeans` | harness/node/observe.go:574-603 | An attempt of that generation becomes unknown and takes the slot, with its request, both events and the blocked reason, if and only if no other attempt is live. |
| `HarnessWorkers.RestartMeans` | harness/node/recovery.go:84-126 | After a crash every unfinished action is unknown, the slot holder and its request are, no worker and no gate is left, and nothing else changed. |
| `HarnessNode.Node.FinishWorker` | harness/node/actions.go:346-350 | The final status is written only over an inflight one, and if that write fails the row stays inflight while the worker is gone. |
| `HarnessWorkers.FinishMeans` | harness/node/actions.go:346-350 | An inflight action gets the status its worker ended with, unless that write fails; the worker is gone either way. |
| `HarnessNode.Node.LeaveGate` | harness/node/actions.go:282-284 | The gate is released once its worker is through. |
| `HarnessNode.Node.ScheduleStop` | harness/node/observe.go:468-504 | An exceeded output budget turns the live attempt to stopping with a stop action, once. |
| `HarnessNode.Node.RecordProjection` | harness/node/observe.go:1134-1151 | A projection row together with its event, unless the key is taken. |
| `HarnessNode.Node.WaitForAnswer` | harness/node/observe.go:679-689 | A running attempt waits for input; a waiting one goes on waiting. |
| `HarnessNode.Node.ChargeEvent` | harness/node/observe.go:1052-1074 | Charges a new projection, or finds the same one projected, a conflicting one, or an exhausted budget. |
| `HarnessNode.Node.ProjectOutputRow` | harness/node/observe.go:292-401 | Assistant and tool output: charged, stored and announced, cut to the limit marker at the crossing, silent after it. |
| `HarnessNode.Node.ProjectApprovalRow` | harness/node/observe.go:402-427 | An approval request of a known tool call and action hash makes the attempt wait, or is refused. |
| `HarnessNode.Node.ProjectInputRow` | harness/node/observe.go:428-455 | An input request makes the attempt wait, charged for its question. |
| `HarnessNode.Node.ProjectWaitingRow` | harness/node/observe.go:276-291 | A bare wait is recorded under the version it leads to. |
| `HarnessNode.Node.ProjectTerminalRow` | harness/node/observe.go:711-823 | A terminal report ends the attempt under a digest that names the newest assistant message, marks it unknown while a control is owed or its effects are, and is refused when a completed one reports an output that is not the stored assistant message. |
| `HarnessNode.Node.Archive` | harness/node/observe.go:1157-1222 | A late or suppressed event is kept once, charged to the archive, and refused when it contradicts what is known under its key; a terminal one is compared with the end as it would be written now, and at the crossing an event without content is announced as a marker message. |
| `HarnessNode.Node.Project` | harness/node/observe.go:219-270 | Each live event reaches its projection. |
| `HarnessNode.Node.Deliver` | harness/node/observe.go:83-163 | Deleted dialogs and wrong references are ignored, suppressed and late events archived, live ones projected, and a refused one leaves the store as it was. |
| `HarnessReports.ReportMeans` | harness/node/observe.go:83-163 | What any report does: one of the attempt in the slot does what its kind says; one that asks a stopping or unknown attempt is kept without an event; one of an attempt out of the slot is kept and announced as late if it is news, fits and the budget is not spent; any other changes nothing. |
| `HarnessReports.LiveProjects` | harness/node/observe.go:219-466 | The kinds one by one, by the rows, the event and key, the charge and the versions each leaves: output, tool calls with their status and version, questions that make the attempt wait, the mark of the limit and the stop that goes with it, ends, and doubt. |
| `HarnessReports.ApprovalProjects` | harness/node/observe.go:402-427 | A question for approval is taken if and only if it names a call of this attempt and the action it was started with; past the limit the mark takes its place. |
| `HarnessReports.EndProjects` | harness/node/observe.go:711-823 | An end is believed when no answer is owed to the attempt and its effects are known: attempt and request end as reported, the slot is free, the node is ready unless another reason is left. Otherwise it is set aside in a late row and the attempt is unknown. |
| `HarnessReports.ArchiveMeans` | harness/node/observe.go:1157-1222 | What a late report leaves: its row with the bytes charged, at most one beyond the limit, and, unless suppressed, its late event or the mark; refused exactly when it does not fit, is contradicted or is too large by itself. |
| `HarnessReports.KeysTellSourcesApart` | harness/node/observe.go:272-466 | Two reports have the same key exactly when they come from the same source: the same message, call or question, the same index, or the same moment of the attempt. |
| `HarnessNode.Node.LoseAttemptStream` | harness/node/observe.go:20-79 | A stream that fails marks the attempt unknown if it still has the slot. |
| `HarnessReports.StreamMeans` | harness/node/observe.go:20-81 | A failing stream leaves its attempt unknown if it has the slot, and nothing else. |
| `HarnessNode.Node.IngestArtifact` | harness/node/artifact.go:161-248 | An artifact row of a known attempt and call within its budget, with its event; at the crossing the marker and the stop instead. |
| `HarnessReports.IngestMeans` | harness/node/artifact.go:164-248 | The row is written, charged and announced if and only if attempt, call and name fit and the size does; at the crossing the mark and the stop take its place. |
| `HarnessNode.Node.ReconcileReport` | harness/node/reconcile.go:16-134 | Ends the unknown slot holder by a verified terminal report whose effects are all resolved, and no other attempt. |
| `HarnessReports.ReconcileMeans` | harness/node/reconcile.go:71-181 | Accepted if and only if the attempt is the unknown slot holder, nothing it began is left open and the effects are proved; a missing output is appended first; then the attempt ends as by a report, or nothing at all happens. |
| `HarnessNode.Node.RecoverStartup` | harness/node/recovery.go:84-126 | Unfinished controls become unknown and the slot holder with them; a store it cannot recover is left as it was. |
| `HarnessNode.Node.Take` | harness/node/actions.go:21-138 | One step of any schedule, done by these methods, leaves the object exactly in the state of the specification. |
| `HarnessLife.RunIsSane` | harness/node/actions.go:208-286 | What holds in every run, put together: tables, hold rules, outcomes, one live attempt in the slot, no start under a hold. |
| `HarnessLife.Live` | harness/node/actions.go:21-138 | Whatever a new node object is asked to do, in whatever order and with crashes anywhere, it goes through the run of that schedule: all of that holds of the object, its ledgers are what was charged, and its count is exact when steers answer as declared. |
| `HistoryReplica.ExportsNeverConflict` | harness/node/history_export.go:612-656 | In every run of a node that interleaves domain steps and exports of any dialogs, no export hits an identity conflict and every earlier stream is a prefix of every later one, chain hashes included. |
| `HistoryReplica.ExportExtends` | harness/node/history_export.go:145-218 | One export from a good state: it succeeds, keeps the stream as a prefix, touches no other stream, and afterwards every row of the dialog has its record; what the records hold is said by ExportCarries. |
| `HistoryContents.ExportCarries` | harness/node/history_export.go:220-395 | After an export every message of the dialog is in the stream with its number, request, text and first event, an assistant's also with attempt and generation; every event of the dialog with its row, place and request; every command that targets it with its receipt; and its assets. What the export added is nothing else. |
| `HistoryContents.ExportKeepsOrder` | harness/node/history_export.go:145-218 | What one export adds stands in order: messages by their sequence, events by their place in the log, then receipts, then the manifest. |
| `HistoryReplica.RecordStays` | harness/node/history_export.go:220-346 | What the tables would export under an identity never changes, although messages gain attempts and dispositions and attempts change state. |
| `HistoryReplica.StoreStays` | harness/node/history_export.go:348-395 | So everything exported stays what the tables would export, over any step. |
| `HistoryReplica.MoveKeepsWorld` | harness/node/history_export.go:50-118 | The invariant of node and store together is kept by every step and every export, and the export succeeds. |
| `HistoryReplica.RecordIsDetermined` | harness/node/history_export.go:612-656 | Two records under one entry, fact or receipt identity are the same record. |
| `HistoryReplica.StoredManifestAgrees` | harness/node/history_export.go:562-610 | A manifest that was stored is exported again under the revision it has. |
| `HistoryReplica.AppendAllFits` | harness/node/history_export.go:612-656 | Appending the current records to a stream that agrees with the tables never fails, extends it and leaves it in agreement. |
| `HistoryReplica.ConflictStays` | harness/node/history_export.go:612-656 | A candidate that contradicts the stream makes the whole export fail. |
| `HistoryReplica.ChainDeterminesStream` | internal/historyreplica/types.go:255-300 | Two well-chained streams of one identity with the same head are the same stream, hash functions taken to be injective. |
| `HistoryReplica.CoverageGrows` | harness/node/history_export.go:658-698 | The coverage of each kind over a longer stream extends the coverage over the shorter one. |
| `HistoryReplica.Exporter.FindRecord` | harness/node/history_export.go:613-623 | The lookup finds the stored record under an identity if there is one. |
| `HistoryReplica.Exporter.AppendRecord` | harness/node/history_export.go:612-656 | Appends a new record with the next sequence and chain hash, accepts an identical one, and refuses a different one with the stream unchanged. |
| `HistoryReplica.Exporter.ExportStream` | harness/node/history_export.go:145-218 | The loops append all records of the export or, on a conflict, leave every stream as it was. |
| `HistoryReplica.Exporter.CoverageHash` | harness/node/history_export.go:658-698 | The fold over the stream is the coverage of that kind, and the next sequence is one above the last. |
| `ArtifactFiles.Volume.Take` | harness/node/artifact.go:99-248 | One step of any call, or of the machine, done on the object is a step of the transition relation, which a step that cannot be taken leaves where it is. |
| `ArtifactFiles.Live` | harness/node/artifact.go:99-248 | Every life of a volume, from empty, over any schedule, goes through exactly the states of that schedule; in all of them every committed row is on a durable file with its exact bytes, and no row is ever lost or rewritten. |
| `ArtifactFiles.StepKeeps` | harness/node/artifact.go:99-248 | Whichever effect of whichever call comes next, or a power loss, a kill or a start: every committed row keeps naming a durable file with its exact bytes, and no row is lost or rewritten. |
| `ArtifactFiles.StepLeavesOthers` | harness/node/artifact.go:99-248 | No step touches the names, the stage or the row of a call it does not belong to, unless the machine stops. |
| `ArtifactFiles.RunKeeps` | harness/node/artifact.go:99-248 | So it is along every run of steps. |
| `ArtifactFiles.ReconciledNames` | harness/node/artifact_recovery.go:71-150 | After a reconciliation a UUID name is in the directory if and only if a committed row has it, and no temporary is. |
| `ArtifactFiles.Volume.StoreArtifact` | harness/node/artifact.go:99-248 | A call with everyone else acting between its effects: stored means committed with its bytes in a durable file, refused or interrupted means not committed, an unknown commit is committed exactly if it took. If the machine does not stop, the outcome is the one its failures determine, and a refused call has removed its names unless their removal failed. |
| `ArtifactFiles.Volume.CleanUp` | harness/node/artifact.go:124-134 | A call that keeps nothing removes both its names where the file system lets it, costs no row its file, and is over. |
| `ArtifactFiles.Volume.Reconcile` | harness/node/artifact_recovery.go:86-150 | Only orphans are removed, only regular private ones; it succeeds if and only if all of them can be removed and the directory be synced, and then none is left. |
| `ArtifactFiles.Volume.DoStart` | harness/node/store.go:121-152 | Of a start-up, what concerns files: the ingress is bound exactly when the reconciliation succeeds, and then the UUID names are exactly those of committed rows and no temporary is left. |
| `ArtifactFiles.Volume.DoPowerLoss` | harness/node/artifact.go:135-158 | Whatever of the unsynced bytes and names survives, the rows still name their bytes. |
| `ArtifactFiles.Volume.DoRename` | harness/node/artifact.go:145-147 | Synced bytes come along under the final name, which is not yet durable. |
| `ArtifactFiles.Volume.DoCommitRow` | harness/node/artifact.go:237-247 | From the commit on the files stay, whether it took or not. |
| `ArtifactFiles.Volume.Read` | harness/node/artifact.go:285-321 | A committed artifact always reads back with its bytes, and nothing else does. |
| `CanonicalJson.RoundTrip` | harness/node/canonical.go:20-70 | A reader of JSON text gives back the value that was written and stops exactly where it ended, whatever may follow a value. |
| `CanonicalJson.EqualBytesEqualValues` | harness/node/hold.go:49-65 | Of serializable values, the bytes are equal if and only if the values are, so the fingerprint of a hold request stands for the request. |
| `CanonicalJson.TextRoundTrip` | harness/node/canonical.go:72-99 | The reader gives every text back, each escape and each UTF-8 form included. |
| `CanonicalJson.NumberRoundTrip` | harness/node/canonical.go:26-31 | An accepted number is read back with its very text. |
| `CanonicalJson.SameNumberSameText` | harness/node/canonical.go:26-31 | Of the spellings JSON allows for an integer, two accepted ones denote the same number if and only if they are the same text, except that zero may keep a minus sign. |
| `CanonicalJson.AppendCanonical` | harness/node/canonical.go:20-70 | Appends the canonical text to the buffer, or refuses exactly when some number inside is no safe unsigned integer. |
| `CanonicalJson.AppendItems` | harness/node/canonical.go:34-46 | The same for a list, item by item. |
| `CanonicalJson.AppendMembers` | harness/node/canonical.go:47-66 | The same for an object: the order in which the map gives its keys has no influence. |
| `CanonicalJson.AppendText` | harness/node/canonical.go:72-99 | Appends a quoted and escaped text. |
| `CanonicalJson.EscapeForms` | harness/node/canonical.go:72-99 | Quote and backslash are escaped by themselves, backspace, tab, line feed, form feed and carriage return by their letters, the other control characters by two lowercase hexadecimal digits, and everything else is its UTF-8. |
| `CanonicalJson.TextForm` | harness/node/canonical.go:72-99 | A text is its escaped code points between quotes. |
| `CanonicalJson.ListForm` | harness/node/canonical.go:34-46 | A list is its items between brackets, with commas and nothing else. |
| `CanonicalJson.ObjectForm` | harness/node/canonical.go:47-66 | An object is its members between braces, each a quoted key, a colon and the value, every key once and the smaller code point first where two keys first differ. |
| `CanonicalJson.SafeMeans` | harness/node/canonical.go:26-31 | The numbers accepted are those up to 2^53 - 1 in decimal digits, with a plus sign or none, and zero also with a minus sign. |
| `Utf8Text.RuneReads` | harness/node/canonical.go:91-95 | The UTF-8 form of a code point reads back as that code point, whatever follows. |
| `Utf8Text.RuneForm` | harness/node/canonical.go:91-95 | A code point has the shortest of the four forms of RFC 3629, with its bits in order. |
| `Utf8Text.BytesKeepOrder` | harness/node/canonical.go:48-52 | Comparing texts by their UTF-8 bytes is comparing them by code points (and not by UTF-16 units as in section 3.2.3 of RFC 8785). |
| `Utf8Text.BeforeIsTotal` | harness/node/canonical.go:48-52 | Two different keys are in exactly one order, so sorting leaves no choice. |
| `Utf8Text.OrderMetIsForgotten` | harness/node/canonical.go:48-52 | Whatever order the keys of a map were met in, sorting them gives the one ascending listing of the set. |
| `RegistryProjection.ProjectAgrees` | scripts/router_registry_projection.py:442-527 | An accepted projection, from any manifest and state, leaves manifest and router in agreement about every node: revision, epoch, compatibility, adapter, readonly nodes sealed, ids and pins unique, the version one higher. |
| `RegistryProjection.OneNodeChanges` | scripts/router_registry_projection.py:461-517 | From an agreeing registry exactly the desired node changes, said by fields: a known one gains one revision, epoch and state version, keeps its generation and is left sealed by the operation at version zero; a new one is appended at revision, epoch and state version one, generation and version zero, sealed by the operation; every other entry and route is untouched. |
| `RegistryProjection.ProjectMeans` | scripts/router_registry_projection.py:442-527 | From any manifest, every node of an accepted projection comes from what manifest and router agreed on, one version later: what was asked of it and what it became, by fields, a legacy manifest giving first registrations. |
| `RegistryProjection.AcceptedIff` | scripts/router_registry_projection.py:442-527 | From an agreeing registry a projection is accepted if and only if a version is left, no route carries a seal projection, the pin is free, and the node is new with room for it, or differs from what is desired and may be changed. |
| `RegistryProjection.ChangeIsReal` | scripts/router_registry_projection.py:517-517 | And the change is never empty. |
| `RegistryProjection.LinkSucceeds` | scripts/router_registry_projection.py:442-527 | A projection, or any control action of the router on any node, keeps the agreement; no registration goes back, and one that stands still is unchanged. |
| `RegistryProjection.ChainAgrees` | scripts/router_registry_projection.py:442-527 | Over any chain of projections and control actions the agreement holds at the end, the version has risen by the number of projections, and every entry is a successor of what it was. |
| `RegistryProjection.UpgradeThenChain` | scripts/router_registry_projection.py:446-452 | The one-time upgrade of a legacy manifest gives every node a registration at least at the legacy version, which every later chain keeps or raises. |
| `RegistryProjection.TransitionAgrees` | internal/harnessrouter/control.go:338-436 | Every drain, seal, activation, release or abort that the router accepts keeps manifest and router in agreement: registration and epoch stay, and a readonly node stays sealed. |
| `RegistryProjection.ValidateManifest` | scripts/router_registry_projection.py:368-397 | The loop over growing sets of ids and pins accepts exactly the manifests whose numbers are safe and whose bindings are pairwise distinct. |
| `RegistryProjection.ProjectRegistry` | scripts/router_registry_projection.py:442-527 | The loop that builds entries, expected routes and the count of changes computes the projection, and refuses wherever it is refused. |
| `RouterControl.FenceHolds` | internal/harnessrouter/control.go:338-436 | A route fenced by one operation is moved by no request of another. |
| `RouterControl.OpensIff` | internal/harnessrouter/control.go:373-436 | A control action puts a route back into traffic if and only if its own operation asks with a named version: an activation for an unscoped seal, a release for a scoped one, an abort to the version it was fenced at. The route then is the next generation, at that version, in no hands. |
| `RouterControl.FencesIff` | internal/harnessrouter/control.go:338-372 | It takes a route from traffic if and only if the route is open, or fenced by the same operation one stage before; generation, epoch and version stay. |
| `ComponentDeploy.ProjectionIsExact` | scripts/component_deploy.py:190-204 | What the installer projects is what the router commits, and differs from the route before, so a read-back after a lost reply decides whether the transition happened. |
| `ComponentDeploy.CommitIsExpected` | scripts/component_deploy.py:205-240 | A batch that the router accepts found the routes as they were read and leaves what was expected. |
| `ComponentDeploy.CommitKeeps` | scripts/component_deploy.py:475-501 | Drains and seals before the replacement, activation and abort after it: each commit keeps what the journal promises. |
| `ComponentDeploy.DriftKeeps` | scripts/component_deploy.py:351-364 | The daemon finishing or dropping an accepted mutation and other operations at work on other routes break no promise of the journal. |
| `ComponentDeploy.DriftKeepsQuiet` | internal/harnessrouter/router.go:363-383 | A route that an operation holds gets no new work, so a node found quiet behind it stays quiet. |
| `ComponentDeploy.QuietAtCommit` | scripts/component_deploy.py:424-434 | What is quiet when a transition reads the routes is quiet when the router commits it, or the commit is refused. |
| `ComponentDeploy.DesiredIsFinal` | scripts/component_deploy.py:355-364 | Seeing the image the mutation was moving to means nothing is under way any more and it is there to stay. |
| `ComponentDeploy.AlternateIsNotFinal` | scripts/component_deploy.py:358-363 | Seeing the other image means no such thing: the accepted mutation may still replace it. |
| `ComponentDeploy.Installer.WaitRuntimeIdentity` | scripts/component_deploy.py:366-389 | Reports an image only when it was the running one. |
| `ComponentDeploy.Installer.WaitQuiescent` | scripts/component_deploy.py:424-434 | Done means no affected node has work in flight. |
| `ComponentDeploy.Installer.VerifyTransition` | scripts/component_deploy.py:470-473 | Done means the affected routes are exactly the expected ones. |
| `ComponentDeploy.Installer.TransitionMany` | scripts/component_deploy.py:205-240 | One compare-and-swap over all routes; done means the expected routes are there, a lost reply is resolved by reading back, and the journal's promises hold however it ends. Undisturbed, an acceptable batch is committed and answered. |
| `ComponentDeploy.Installer.Replace` | scripts/component_deploy.py:351-364 | A replacement reported as done has settled on its image; with the outcome unknown the routes are still fenced. |
| `ComponentDeploy.Installer.AbortToPrior` | scripts/component_deploy.py:475-501 | Reopens the routes on the prior image, which is running with nothing under way, and issues no mutation; done means they were reopened for the identities of before and read back so. |
| `ComponentDeploy.Installer.FenceRoutes` | scripts/component_deploy.py:696-702 | Done means every affected route is sealed by this operation with nothing in flight on its node: quiet is waited for between draining and sealing, and a drained route gets no new work. Undisturbed, ready routes are sealed. |
| `ComponentDeploy.Installer.Deploy` | scripts/component_deploy.py:692-739 | From the prepared entry to activation: a failure tells whether nothing was replaced, the target is settled and fenced, or the next process must look; done means the routes were reopened on the target. Undisturbed it is done. |
| `ComponentDeploy.Installer.ReplaceAndActivate` | scripts/component_deploy.py:703-739 | From replace_started to activation the routes stay sealed by the operation. |
| `ComponentDeploy.Installer.Activate` | scripts/component_deploy.py:727-739 | activation_pending is written before the routes are reopened, with the sealed routes it will find; done means they were reopened for the identities of the candidate and read back so. |
| `ComponentDeploy.Installer.Reopen` | scripts/component_deploy.py:736-737 | Done means the sealed routes were activated for these identities and read back so, and since then at most other operations moved them. |
| `ComponentDeploy.Installer.Withdraw` | scripts/component_deploy.py:740-750 | The failure path before a replacement: pending is cleared only with the prior image running, the ledger as it was and the routes reopened for the identities of before. |
| `ComponentDeploy.Installer.Restore` | scripts/component_deploy.py:751-773 | The failure path after one: pending is cleared only once the prior image is back and settled and the routes are reopened for the identities of before. |
| `ComponentDeploy.Installer.Apply` | scripts/component_deploy.py:646-776 | Wherever it dies or fails the journal stays true; deployed or rolled back means the slot is the target with the old one as previous, nothing is pending and every affected route was reopened for the identities of before, the component's own with the new adapter version; with nothing pending no route is fenced by the operation. Undisturbed, from open routes, it returns what was asked for. |
| `ComponentDeploy.Installer.Transact` | scripts/component_deploy.py:685-776 | From the prepared entry to the cleared one: whenever nothing is pending any more the operation fences no affected route, and a deployment that is reported was reopened for the identities of the candidate. |
| `ComponentDeploy.Installer.Reconcile` | scripts/component_deploy.py:578-644 | The next process ends a pending operation at its prior or at its target, in both cases only with that image running, no mutation toward the other outstanding and the routes reopened for its identities. Undisturbed it finishes what was begun where the target runs and the routes are as left. |
| `ComponentDeploy.Installer.RollForward` | scripts/component_deploy.py:606-644 | With the target running the journal is finished with the target as current and its routes reopened; undisturbed it is. |
| `ComponentDeploy.Installer.ResumeActivation` | scripts/component_deploy.py:613-627 | An activation that was committed before the crash is recognised, one that was not is repeated on the sealed routes as recorded; done means the routes were reopened for the recorded identities. |
| `ComponentDeploy.Installer.Operate` | scripts/component_deploy.py:578-776 | Any number of processes, each ending or dying where it may, and the promises of the journal hold after all of them. |
| `ExecutorUpdate.ServiceRunsAWholeSet` | scripts/update-component-executor.py:346-442 | In every state a process can leave, an enabled or running service finds all priors, or all targets after they were seen to import. |
| `ExecutorUpdate.CrashStatesValidate` | scripts/update-component-executor.py:303-344 | Every such state passes the validation of the next process that brings the same files. |
| `ExecutorUpdate.MixturesAreStopped` | scripts/update-component-executor.py:303-318 | A mixture of files exists only in the replacing phases, with the service disabled and stopped. |
| `ExecutorUpdate.Transaction.Persist` | scripts/update-component-executor.py:378-380 | The journal is the old or the new record, whatever happens. |
| `ExecutorUpdate.Transaction.Prepare` | scripts/update-component-executor.py:346-376 | Starts, takes up or retargets a journal exactly when it may be, and otherwise changes nothing. |
| `ExecutorUpdate.Transaction.InstallOne` | scripts/update-component-executor.py:386-399 | One file at the journalled index, then the next index. |
| `ExecutorUpdate.Transaction.Install` | scripts/update-component-executor.py:382-399 | The loop ends with all files installed and keeps priors and targets of the record. |
| `ExecutorUpdate.Transaction.Run` | scripts/update-component-executor.py:401-442 | Updated means complete with all targets, imported, and the service enabled and running; no file is replaced before the ledger was seen idle; a process that may not go on changes nothing; an uninterrupted one that may go on finishes. |
| `ExecutorUpdate.Transaction.Update` | scripts/update-component-executor.py:346-442 | Any number of processes, interrupted anywhere or finding the ledger busy, and reboots leave a state the next accepts, and one uninterrupted process that finds it idle ends with the new files enabled and running, exactly if they import. |
| `Enrolment.StairsAreTheStaircase` | scripts/enroll_codex_component_cd.py:657-666 | The set of file states that is accepted is exactly the staircase from source to target. |
| `Enrolment.StepUp` | scripts/enroll_codex_component_cd.py:793-801 | Replacing in order the first file that is not the target's stays on the staircase. |
| `Enrolment.StepDown` | scripts/enroll_codex_component_cd.py:778-788 | Restoring in reverse order stays on it too. |
| `Enrolment.Enrolment.KnownMatrix` | scripts/enroll_codex_component_cd.py:657-666 | The loop that updates one file after the other builds exactly those states. |
| `Enrolment.Enrolment.Guard` | scripts/enroll_codex_component_cd.py:657-666 | Whatever earlier processes left is accepted. |
| `Enrolment.Enrolment.ReplaceFile` | scripts/enroll_codex_component_cd.py:701-707 | A replaced file or the old one, on the staircase either way. |
| `Enrolment.Enrolment.Ascend` | scripts/enroll_codex_component_cd.py:793-801 | A finished target run has all files of the target and its journal counts them all. |
| `Enrolment.Enrolment.Advance` | scripts/enroll_codex_component_cd.py:793-801 | One file of a target run: replaced if it is not the target's, then counted; what a journal counts as replaced is replaced at every moment a process can die. |
| `Enrolment.Enrolment.Descend` | scripts/enroll_codex_component_cd.py:778-788 | A finished rollback run has all files of the source and a completed journal. |
| `Enrolment.Enrolment.Retreat` | scripts/enroll_codex_component_cd.py:778-788 | One file of a rollback, from the last: restored if it is not the source's, then counted. |
| `Enrolment.Enrolment.Activate` | scripts/enroll_codex_component_cd.py:725-755 | Activation happens only with all files of the target and a journal that says so first. |
| `Enrolment.Enrolment.Execute` | scripts/enroll_codex_component_cd.py:758-813 | A finished run is exactly at the end it was asked for; a rollback is refused if and only if the component was activated, which is never undone. |
| `Enrolment.Enrolment.Operate` | scripts/enroll_codex_component_cd.py:758-813 | After any sequence of interrupted runs in either direction an uninterrupted one ends at its end, unless activation forbids it. |

## Left out

- HarnessSlot.EndedForever: assumes that approval and input responses are submitted only for the attempt in the slot, which the code leaves to its callers; the exact condition without that is EndedChangesInRunsIff.
- HarnessPending.PendingCountIsExact: assumes that steer calls answer an error or a declared outcome; the exact condition without that is CountIsExactIff.
- HarnessEndings.EndDeliveredIff: is about reports that ended their attempt; one that was archived because a control was owed may end the attempt when it comes again, see UnknownEndsIff.
- HistoryReplica.ExportsNeverConflict: assumes that identities of different kinds never coincide (an event naming a user message is about that message), as random identities ensure.
- HistoryReplica.ChainDeterminesStream: hash functions are taken to be injective: a hash is the term it was computed from.
- ArtifactFiles.Volume.StoreArtifact: identities are fresh, and a row's size and digest stand for its bytes.
- Waiting for a lock: a hold installation, release or deletion that would wait for the start gate answers GateBusy in the model and changes nothing, to be taken again later.
- SQLite, SQL text and durability of a reported commit; JSON schema validation, HTTP status and error bodies, peer verification.
- Schema triggers: the proofs do not use them; primary keys are used as freshness, the unique index on active attempts as a refusal.
- Sealed scope triggers on hold_scope_revisions and the bodies of hold and rejection receipts.
- Clocks, random identities, the free-space floor and the control reserve.
- Policy content, prompts, message text and part decoding beyond a content value and its size.
- Private safe-text publication and text chunks, in the node and in the replica; transcript_internal rows.
- Start-up migrations, the pristine policy sentinel and the one-off repairs of single attempts (harness/node/approval_race_recovery.go), which alone can clear a lost answer.
- Reading endpoints other than the quiescence condition and artifact content; page encoding of the export.
- The deployment of more than one component at a time, configuration and image checks, pin files, container identity and health contents: each may fail at any time in the model.
- Router batches with quiescence proofs and hold releases beyond what the deployment meets.
- ComponentDeploy.Installer.TransitionMany and Enrolment.Enrolment.Activate: a router commit takes effect before its read-back or not at all; one that lands after the read-back, or after the process died, is not modelled. In the enrolment such a commit could follow a rollback that had already passed the check for sealed routes.
- Text formats, signatures and digests of registries; the coordination with the agent service.
- Enrolment planning, runtime evidence and lock checks, which may refuse at any time; how the executor's modules are imported and how it recovers a legacy panel, of which only the answers are modelled.
- ArtifactFiles.Volume.DoStart: the start-up steps after the reconciliation, which may still refuse to bind the ingress.
- scripts/wire_migration.py, scripts/tool_activation.py and scripts/registry_pair_install.py: the same journal pattern with more phases.
- Release tooling, GitHub calls, OpenSSL, OpenRC, nginx, command line entry points and fixtures.
