# Agency runtime: a verified model

This project models the durable agency runtime of the repository and the event substrate under it,
and proves what that protocol promises. Concurrent callers, crashing processes, leases and retries
meet only in guarded table updates; the theorems are about whole histories of such updates.

## How it is laid out

* `Text`, `Vocabulary`: trimming, clipping, decimal rendering; scopes, facts, dedupe keys.
* `Events`, `EventStore`, `Listing`: the append-only log with its transactional outbox, as values
  (`Events`) and as a class that changes two tables statement by statement (`EventTables.EventStore`),
  and the queries over it.
* `Outbox`, `OutboxSystem`, `OutboxRetries`, `OutboxClaims`, `OutboxPauses`, `OutboxWorker`: claiming and
  settling outbox rows, any number of concurrent drains with crashes, the bound on failures and on claims, the
  waits between tries, and the drain loop with its worker object.
* `Cursors`, `CursorSystem`, `CursorSkips`, `CursorTable`: the leased cursor, any number of workers on it, the
  events it can pass over, the stored rows.
* `Actions`, `Envelopes`: the action normaliser, the envelope builder, the validator, the rollout policy.
* `AgencyTables`: the run, attempt and receipt tables, the SQL statements as guarded updates, and the
  script of statements of every synchronous block. `AgencyCells`, `AgencyInvariant`, `AgencyBlocks` prove
  block by block what each statement keeps; `AgencySystem` is the transition system; `AgencyTheorems`,
  `AgencyLedger` and `AgencyClients` hold the main results, `AgencyWitness` runs the log never reports.
* `AgencyDelivery`, `AgencyRuntime`, `AgencyReplies`: the same blocks as imperative code over fields: budget
  counters, the delivery adapter, the runtime object and the reply bridge. `Create`, `Cancel`, `Dispatch`,
  `Execute`, `Invoke`, `Settle` and `Observe` end in exactly the state the transition system reaches by one operation
  (`State() == Next(old(State()), op)`), so the theorems about histories speak about it.
* `Projections`, `Missions`, `MissionTheorems`, `MissionQuiet`, `MissionScheduler`, `Circuits`,
  `CircuitTheorems`, `Values`, `EvidenceRecords`: the evidence-gated projections of the log and the functions
  that write to it.
* `Board`: the arbitration of action candidates.
* `Witnesses`, `MissionWitness`, `CircuitWitness`: concrete inputs and histories for "Where the code does something worth knowing".

Where a function computes something, its meaning is stated a second time in other terms and the two are proved to
agree: `Policy.Permits` says what the rollout lets through without evaluating it, `Envelopes.Buildable` and
`Admissible` what the two validators accept, `Events.Acceptable` and `Records` what the log takes and keeps,
`ActionBoard.Qualified` and `Outranks` who wins an arbitration. Methods that change state spell out the rows they
leave behind.

## The run protocol

One operation of `AgencySystem` is one synchronous block: everything between two awaits. A block either
completes (`Do`) or is cut short after any number of its statements by the death of the process (`Die`),
which loses everything in memory and keeps every row. The adapter is called in a later turn than the claim,
so a cancellation can fall between the two. What an adapter, a timer or an observer reports is arbitrary.

The invariant is kept statement by statement, not only at the end of a block, so it holds after a crash
anywhere. `UnguardedUpdateNeedsItsBlock` shows that the granularity matters: the update for a missing adapter
has no status guard, and would overwrite a cancellation if other work could run between the claim and it.

## Where the code does something worth knowing

The model follows the code in each of these. For every one there is a lemma that says exactly when it happens,
and one that shows it happening at a concrete input or in a history that starts from nothing.

* A claim of the outbox stores the worker name clipped to 120 characters, a settlement compares the
  unclipped one: a worker with a longer name can never settle what it claims (`Outbox.ClaimantCanAckIff`;
  `Witnesses.LongNameNeverSettles` on the row of a fresh event).
* Replay reads one listing of at most 1000 events, so it replays a stream completely exactly when the
  stream holds at most 1000 (`Listing.ReplayIsWholeStreamIff`; `Witnesses.ReplayStopsShort` with 1001 events).
* An event that arrives at or below the committed position or a page already listed can be passed over for good
  (`CursorSystem.AppendSafeIff`). With random ids, two events of the same second suffice: if the smaller id
  arrives second, after the other was committed, it is never processed in any continuation
  (`CursorSkips.SameSecondSkips`).
* A host report dated in the future keeps deciding its mission. If it neither closes the mission nor schedules
  it late enough, and the proposal schedules no late first wake either, wakes no longer quiet the mission, and it
  stays due at every later moment (`MissionQuiet.QuietHourIff`, over all histories; `MissionQuiet.OverruledStaysDue`).
  `MissionWitness.WakesAMinuteApart` is a history with one such report and a heartbeat on the clock: two wakes
  sixty seconds apart, where an hour is intended.
* A failing circuit evaluation of the same second as an earlier one is answered as a duplicate and the circuit
  stays published (`CircuitTheorems.BadEvaluationRemovesIff`; `CircuitWitness.BadStaysListed`).
* Clipping after trimming may leave trailing blanks, so normalising an action once is a fixed point exactly
  when it did not (`Actions.NormalisingTwice`; `Witnesses.NormalisedTwiceDiffers`).
* A task id may spell out the chat of another task's scope, and the two scopes then share a key
  (`Vocabulary.ScopeKeysEqualIff`; `Vocabulary.TaskKeysClash`). No other two scopes do.
* The log is stricter about ids than the run table, so a run can exist that the log never reports
  (`AgencyLedger.TraceExact`; `AgencyWitness.LongCauseUnreported`). A run id of more than 217 characters leaves
  too little room in the dedupe key of a success, so the success of such a run is never reported
  (`AgencyWitness.SuccessKeyFitsIff`, `AgencyWitness.LongIdNeverReported`). The ids the builder draws have 36
  characters.

## Model

| member | source | states |
|---|---|---|
| Vocabulary.RenderInjective | src/agent/agency-runtime.ts:579 | printed dedupe keys of runs, wakes, observations, evaluations, publications and adoptions are as distinct as the tuples they print |
| Vocabulary.ScopeKeysEqualIff | src/shared/cognitive-scope.ts:24-42 | two scopes share a persisted key exactly when they name the same chat, user or task, or one task id imitates the chat of another |
| Vocabulary.TaskKeysClash | src/shared/cognitive-scope.ts:19-42 | two task scopes, one in a chat and one not, with one key |
| Text.TrimSplits | src/agent/cognitive-events.ts:203-208 | trimming takes blanks away at both ends and nothing else |
| Events.AppendKeepsLog | src/agent/cognitive-events.ts:309-360 | whatever the input, an append only extends the log and keeps ids and keys unique and streams numbered |
| Events.EveryLogWellFormed | src/agent/cognitive-events.ts:316-355 | after any history of appends ids and dedupe keys are unique, every correlation is numbered 1..n in append order, and outbox rows follow the log without repetition |
| Events.EveryOutboxMirrors | src/agent/cognitive-events.ts:347-352 | with the outbox always on, outbox rows and events correspond one to one in order |
| Events.StreamNumbered | src/agent/cognitive-events.ts:321-323 | the k-th event of a correlation carries sequence number k + 1 |
| Events.DraftIs | src/agent/cognitive-events.ts:267-308 | the log takes exactly the acceptable inputs, and what it stores of one is what it said: kind, scope, source, date, causes, key and fact |
| EventTables.EventStore.Append | src/agent/cognitive-events.ts:309-360 | the append transaction on the stored tables: disabled, refused, a duplicate or one new event, each exactly when; the event records its input, numbered next in its stream, with its outbox row |
| EventTables.EventStore.Claim | src/agent/cognitive-events.ts:398-440 | the claim loop locks the first due rows, as many as the limit allows, passing over none before them, under the clipped name and with one attempt more; no other row changes |
| EventTables.EventStore.Ack | src/agent/cognitive-events.ts:442-453 | takes effect exactly when the row is processing and held by the named worker; the row is then delivered and unlocked |
| EventTables.EventStore.Fail | src/agent/cognitive-events.ts:455-474 | takes effect under the same condition; the row is due again exactly from the end of the wait, or never without one |
| EventTables.ClaimedRows | src/agent/cognitive-events.ts:423-434 | every item handed out was due, carries the row's attempt count plus one, and its row is locked under the claimant's stored name and otherwise unchanged |
| Listing.SortIs | src/agent/cognitive-events.ts:549-554 | a listing by time is a strictly ordered rearrangement of exactly the matching events |
| Listing.PageIsStretch | src/agent/cognitive-events.ts:529-554 | the page after a sequence number is the next stretch of the stream, of any page size |
| Listing.PagesRebuildStream | src/agent/cognitive-events.ts:516-560 | paging one correlation until an empty page rebuilds the whole stream |
| Listing.ReplayIsWholeStreamIff | src/agent/cognitive-events.ts:563-570 | replay visits a prefix of the stream in order, and all of it exactly when it holds at most 1000 events |
| Witnesses.ReplayStopsShort | src/agent/cognitive-events.ts:563-570 | a stream of 1001 appended events is not replayed to its end |
| Outbox.AllDue | src/agent/cognitive-events.ts:413-415 | exactly the pending rows whose time has come and the processing rows whose lease ran out, in id order |
| Outbox.PicksAreFirst | src/agent/cognitive-events.ts:402-418 | a claim takes as many due rows as it may, and passes over only rows behind all of these |
| Outbox.FailedWaits | src/agent/cognitive-events.ts:462-470 | a row sent back is due exactly from now plus the wait; without a wait it is never due again |
| Outbox.ClaimedWaits | src/agent/cognitive-events.ts:413-424 | a claimed row is due again exactly when the claim is as old as the next claimant's lease |
| Outbox.ClaimantCanAckIff | src/agent/cognitive-events.ts:399-446 | a worker can settle what it has just claimed exactly when its name has at most 120 characters |
| Witnesses.LongNameNeverSettles | src/agent/cognitive-events.ts:399-461 | a worker with a name of 121 characters claims a fresh row and can neither acknowledge nor fail it |
| OutboxSystem.TakeKeepsRow | src/agent/cognitive-events.ts:418-424 | a claim keeps the row's lock columns, lease spacing and settlement history consistent |
| OutboxSystem.SettleKeepsRow | src/agent/cognitive-outbox-worker.ts:54-77 | so does a settlement after any handler result, touching no other row |
| OutboxSystem.EveryTableOk | src/agent/cognitive-outbox-worker.ts:41-79 | in every run of concurrent drains, enqueues, crashes and time: a row is processing exactly when locked, unsettled claims lie a lease apart, settlements take effect only under the latest claimant, deliveries only after a good handler, each row ends at most once, and every drain's counts add up |
| OutboxRetries.RetryBound | src/agent/cognitive-outbox-worker.ts:67-74 | with one attempt budget everywhere an item fails at most that many times, and is dead once the last failure counts, even when drains share a worker name |
| OutboxRetries.EndedRowsStay | src/agent/cognitive-events.ts:413-461 | delivered and failed rows never change again |
| OutboxClaims.ClaimBound | src/agent/cognitive-outbox-worker.ts:54-77 | in every run with one budget, a row none of whose claims was lost is claimed at most that often, its attempt count is the number of its claims, and after that many settled claims it is delivered or failed |
| OutboxClaims.CrashFreeRowsEnd | src/agent/cognitive-outbox-worker.ts:41-79 | in every run of interleaving drains without crashes and expired leases no settlement is lost, and whenever nothing is left to handle every row is delivered, failed, or waiting for a try its budget still allows |
| OutboxPauses.RetryWaits | src/agent/cognitive-outbox-worker.ts:64-73 | in every run of concurrent drains a row is sent back only by a handler that asked for a positive wait, and no later claim takes it before that wait is over |
| OutboxWorkers.PositiveInt | src/agent/cognitive-outbox-worker.ts:35-38 | an option is kept when in range, brought to the nearer bound otherwise, and replaced by the fallback when missing |
| OutboxWorkers.SettleItem | src/agent/cognitive-outbox-worker.ts:55-76 | delivers after a good handler; after a bad one sends back with exactly the wait asked for unless the budget is used up or no wait is asked for, else fails; a lost race changes nothing |
| OutboxWorkers.TallyAddsUp | src/agent/cognitive-outbox-worker.ts:52-75 | of the items handled so far each is counted exactly once |
| OutboxWorkers.TallySays | src/agent/cognitive-outbox-worker.ts:52-75 | good handlers alone retry and fail nothing, bad ones alone deliver nothing, and retries need a positive wait |
| OutboxWorkers.DrainClaims | src/agent/cognitive-outbox-worker.ts:45-52 | a drain claims all due rows, up to its batch, under the lease of its options |
| OutboxWorkers.DrainAlone | src/agent/cognitive-outbox-worker.ts:54-77 | undisturbed and under a name of at most 120 characters a drain settles everything it claims |
| OutboxWorkers.HandleAll | src/agent/cognitive-outbox-worker.ts:54-77 | the drain loop, with any calls of others during each await |
| OutboxWorkers.DrainBatch | src/agent/cognitive-outbox-worker.ts:41-79 | a whole drain; claimed = delivered + retried + failed + lost races, and the counts say what the handlers did |
| OutboxWorkers.OutboxWorker.Start | src/agent/cognitive-outbox-worker.ts:99-107 | starts only when stopped, with a first drain at once unless one is under way; the timer ticks exactly while running |
| OutboxWorkers.OutboxWorker.Stop | src/agent/cognitive-outbox-worker.ts:109-115 | stops only when running and clears the timer |
| OutboxWorkers.OutboxWorker.RunDrain | src/agent/cognitive-outbox-worker.ts:121-129 | a second drain while one is under way touches nothing; the flag is given back |
| Cursors.PageComplete | src/agent/cognitive-cursor.ts:200-215 | a page holds every event of the scope between the position and the page's last event, and every outstanding one when it is not full |
| Cursors.RemainingAfter | src/agent/cognitive-cursor.ts:142-165 | moving to the end of a page leaves exactly what lay behind it |
| Cursors.LoneRunVisitsAll | src/agent/cognitive-cursor.ts:199-215 | a lone worker visits every event after its position exactly once, in order, and terminates |
| CursorSystem.NothingSkipped | src/agent/cognitive-cursor.ts:92-215 | for any number of workers, stale pages, expired leases and crashes: with timely arrivals every event at or below the committed position was processed |
| CursorSystem.CommittedGrows | src/agent/cognitive-cursor.ts:157-162 | the committed position never moves back |
| CursorSystem.AppendSafeIff | src/agent/cognitive-events.ts:533-551 | an arriving event can never be skipped exactly when it lies above the committed position and above every page in hand |
| CursorSkips.PassedOverForever | src/agent/cognitive-cursor.ts:142-215 | an event at or below the committed position, unprocessed and in nobody's hands, is never processed in any continuation |
| CursorSkips.SameSecondSkips | src/agent/cognitive-cursor.ts:142-215 | two events of one second, the smaller id arriving after the other was committed: the late one is never processed |
| CursorTables.CursorTable.Claim | src/agent/cognitive-cursor.ts:92-139 | refused exactly while another owner's lease is live; otherwise the lease asked for, between five seconds and a day; the position and every other row stay |
| CursorTables.CursorTable.Advance | src/agent/cognitive-cursor.ts:142-181 | takes effect exactly for the owner and a position ahead, whatever became of the lease, and keeps or gives up the lease as asked |
| CursorTables.CursorTable.Release | src/agent/cognitive-cursor.ts:184-197 | exactly the owner gives up the lease; the position stays |
| CursorTables.CursorTable.Page | src/agent/cognitive-cursor.ts:200-215 | the page after the stored position: in order, within the limit, only outstanding events of the scope, none missing up to its end, and none at all when it is not full |
| Actions.MessageReadsBack | src/agent/agency.ts:37-49 | an accepted message validates again unchanged |
| Actions.ValidatedCarries | src/agent/agency.ts:32-107 | a normalised action is of the type the JSON names and holds what its fields say, trimmed and cut off |
| Actions.NormalisingTwice | src/agent/agency.ts:32-107 | a normalised action re-validates with the same kind, the second pass is a fixed point, and the first already is exactly when clipping left no trailing blank |
| Witnesses.NormalisedTwiceDiffers | src/agent/agency.ts:32-107 | a goal of 2001 characters that a second normalisation changes again |
| Envelopes.BuiltEnvelopesAdmitted | src/agent/agency-runtime.ts:400-454 | every envelope the builder returns is admitted by the persisted-envelope validator, with the kind it saw and the risk that fits it |
| Envelopes.BuiltAsAsked | src/agent/agency-runtime.ts:400-454 | the builder accepts exactly the buildable requests; the envelope has the requested scope, key, expiry, budget and texts |
| Envelopes.BuiltActionIsAsked | src/agent/agency-runtime.ts:400-454 | the stored action is the one asked for, a message word for word and with the message it replies to |
| Envelopes.AdmittedIff | src/agent/agency-runtime.ts:230-280 | the run table admits exactly the envelopes of a valid action, fitting risk, scoped chat, bounded texts, dates and budget |
| Policy.AllowedIff | src/agent/agency-policy.ts:117-171 | the gate allows exactly what the rollout permits: a fitting risk, a valid chat, a budget within the caps, and by mode observations alone, listed chats and nothing irreversible, everything, or nothing |
| AgencyCells.ProjectEmit | src/agent/agency-runtime.ts:560-598 | a run event joins the run's trail exactly when the log takes it and the trail does not report it yet |
| AgencyCells.RunEventStored | src/agent/agency-runtime.ts:560-598 | what the log stores of a run event, with the run's scope, causes, state, attempt, error, message and receipt, and when it stores it |
| AgencyInvariant.TailSafe | src/agent/agency-runtime.ts:323-397 | attempt, receipt and event of a closed run keep the run's records consistent at every statement and complete them at the end |
| AgencyBlocks.CreateGood | src/agent/agency-runtime.ts:600-679 | creation keeps the records of its run consistent at every statement |
| AgencyBlocks.CancelGood | src/agent/agency-runtime.ts:828-861 | so does cancellation |
| AgencyBlocks.DeferGood | src/agent/agency-runtime.ts:863-880 | so does deferral, however often |
| AgencyBlocks.ExpireGood | src/agent/agency-runtime.ts:934-963 | so does expiry, for runs never claimed |
| AgencyBlocks.ClaimGood | src/agent/agency-runtime.ts:964-981 | so does the claim |
| AgencyBlocks.NoAdapterGood | src/agent/agency-runtime.ts:988-1006 | so does the unguarded failure without an adapter, because it shares the claim's block |
| AgencyBlocks.SettleGood | src/agent/agency-runtime.ts:1052-1088 | so does settling after the await |
| AgencyBlocks.ObserveGood | src/agent/agency-runtime.ts:1149-1211 | so does an observed delivery |
| AgencySystem.ReachableOk | src/agent/agency-runtime.ts:600-1223 | every state reachable with crashes after any statement satisfies the whole invariant |
| AgencyTheorems.AtMostOnceEver | src/agent/agency-runtime.ts:964-1024 | an idempotency key has at most one run, claimed at most once, its adapter and its transport called at most once ever |
| AgencyTheorems.FinishedForever | src/agent/agency-runtime.ts:838-840 | once finished, a run's row, attempt, receipts and events never change |
| AgencyTheorems.StepRefinesRegister | src/agent/agency-runtime.ts:966-971 | every step, complete or cut short, is a move of an abstract once-register per key |
| AgencyTheorems.DecidedForever | src/agent/agency-runtime.ts:1053-1060 | a decided key answers the same outcome in every later state |
| AgencyLedger.LedgerAgrees | src/agent/agency-runtime.ts:307-397 | without crashes, whatever the log is configured to do, a finished run has exactly one receipt and attempt row agreeing with it in status, error and result, and a run closed before any claim has a receipt without attempt |
| AgencyLedger.NeverTwoReceipts | src/agent/agency-runtime.ts:360-391 | with crashes there is never a second receipt and never a wrong one, nor a closed attempt that disagrees with its run |
| AgencyLedger.TraceInOrder | src/agent/agency-runtime.ts:579 | wherever the process dies, the log tells a run's states in order and none twice |
| AgencyLedger.TraceExact | src/agent/agency-runtime.ts:560-598 | without crashes the trace of a run whose events fit the log is pending, at most one waiting, and the terminal status; a run whose ids the log refuses leaves no trace |
| AgencyWitness.AdmittedUnreported | src/agent/agency-runtime.ts:600-679 | an admitted envelope whose ids the log does not take becomes a run without any event |
| AgencyWitness.LongCauseUnreported | src/agent/cognitive-events.ts:267-360 | such an envelope: its cause has 241 characters |
| AgencyWitness.SuccessKeyFitsIff | src/agent/agency-runtime.ts:579 | the dedupe key of a success fits the log exactly when the run id has at most 217 characters |
| AgencyWitness.LongIdNeverReported | src/agent/agency-runtime.ts:560-598 | a run with a longer id succeeds without an event |
| AgencyLedger.DeliveryEventIff | src/agent/agency-runtime.ts:569-574 | a delivery event exists only, and without crashes exactly, for succeeded speak and ask runs (whose events fit the log) |
| AgencyLedger.CancelCloses | src/agent/agency-runtime.ts:836-841 | cancelling a live run closes it with the clipped reason |
| AgencyLedger.CancelWins | src/agent/agency-runtime.ts:828-861 | after a cancellation no later completion, timeout or replay yields a success status, receipt or delivery event, and an adapter not yet called never sends |
| AgencyLedger.UnguardedUpdateNeedsItsBlock | src/agent/agency-runtime.ts:988-996 | were the block divisible, the unguarded update would overwrite a cancellation |
| AgencyClients.GatedCallsAllowed | src/agent/agency-runtime.ts:887-913 | in every history each adapter call that came through the gate was permitted by the configuration its run was claimed under: a listed chat in canary mode, observations in advisory mode, within the caps, irreversible only with authority, nothing in shadow mode |
| AgencyClients.EveryCallAllowed | src/agent/agency-runtime.ts:887-913 | in a history without direct executions this holds of every call; without authority nothing irreversible is called, in shadow nothing at all |
| AgencyClients.ReplyKeyInjective | src/agent/agency-reply-dispatch.ts:122 | reply keys are injective on chat, trigger message and segment |
| AgencyClients.ReplyEnvelopeBuilt | src/agent/agency-reply-dispatch.ts:121-145 | every valid reply gets an admitted envelope under its own key, addressed to its chat, with its words and the message it replies to, and the reply's budget and stream |
| AgencyClients.AnswerComesFromTheRun | src/agent/agency-reply-dispatch.ts:50-66 | an answer is a function of the key's one run |
| AgencyClients.ReplySentOnce | src/agent/agency-reply-dispatch.ts:108-196 | a segment is sent at most once, segments never share a run, and all accepted answers carry the same message id |
| AgencyDelivery.AgencyUsage.ConsumeLlmCall | src/agent/agency-runtime.ts:292-297 | counts up to the budget and refuses beyond it |
| AgencyDelivery.AgencyUsage.ConsumeToolCall | src/agent/agency-runtime.ts:298-303 | counts up to the budget and refuses beyond it |
| AgencyDelivery.BeginDelivery | src/agent/agency-delivery-adapter.ts:44-61 | the transport is reached exactly for the expected kind in a scoped chat, not cancelled and with a tool call left, which is spent first |
| AgencyDelivery.EndDelivery | src/agent/agency-delivery-adapter.ts:62-65 | only a positive safe message id counts as delivered |
| AgencyRuntimes.AgencyRuntime.PersistAttemptSettled | src/agent/agency-runtime.ts:323-397 | closes the attempt, files a receipt unless its attempt has one, and names the receipt |
| AgencyRuntimes.AgencyRuntime.EmitRunEvent | src/agent/agency-runtime.ts:560-598 | appends the run's event |
| AgencyRuntimes.AgencyRuntime.Create | src/agent/agency-runtime.ts:601-679 | refines submission; accepts exactly admissible envelopes, stores a new one pending, and answers a known key with its run and writes nothing |
| AgencyRuntimes.AgencyRuntime.Cancel | src/agent/agency-runtime.ts:828-861 | refines cancellation; succeeds exactly while the run is live, which is then cancelled with the clipped reason; the controller is aborted in any case |
| AgencyRuntimes.AgencyRuntime.Defer | src/agent/agency-runtime.ts:863-880 | an open run waits with the policy's reason, a claimed or finished one is left alone |
| AgencyRuntimes.AgencyRuntime.Dispatch | src/agent/agency-runtime.ts:887-913 | refines dispatch; a run is launched exactly when it is open, unexpired, has a usable adapter and the rollout permits it; an open one it does not permit waits |
| AgencyRuntimes.AgencyRuntime.Execute | src/agent/agency-runtime.ts:916-1009 | refines execution up to the await: a finished run is answered, an open one launched exactly when unexpired and with a usable adapter, and expired from its expiry second on |
| AgencyRuntimes.AgencyRuntime.ExecuteRun | src/agent/agency-runtime.ts:916-1009 | the same behind either entry: answers finished runs, expires, fails without adapter, or launches with fresh counters |
| AgencyRuntimes.AgencyRuntime.Expire | src/agent/agency-runtime.ts:934-963 | an open run past its expiry ends expired, unclaimed |
| AgencyRuntimes.AgencyRuntime.FailWithoutAdapter | src/agent/agency-runtime.ts:988-1006 | claims and fails in one block |
| AgencyRuntimes.AgencyRuntime.Invoke | src/agent/agency-runtime.ts:1013-1024 | refines the adapter's turn; a delivery adapter sends exactly the stored text to the stored chat as the stored reply, or throws before its transport |
| AgencyRuntimes.AgencyRuntime.Settle | src/agent/agency-runtime.ts:1032-1092 | refines completion; succeeds exactly when the adapter won and the run is still running, and then holds the adapter's result; a running one that lost fails with the clipped reason; the late budget check cannot fail |
| AgencyRuntimes.AgencyRuntime.Observe | src/agent/agency-runtime.ts:1100-1223 | refines an observed delivery; exactly an open speak or ask run with a usable observation is settled, with the observed result and error; a run in flight is left alone |
| AgencyReplies.SegmentBuilt | src/agent/agency-reply-dispatch.ts:68-150 | every segment the bridge does not refuse, anchored or not, gets an admitted envelope under its key that carries its chat, words and reply, of whose run the log takes every event |
| AgencyReplies.Answer | src/agent/agency-reply-dispatch.ts:177-195 | accepted exactly for a succeeded run with a usable message id; otherwise the run's error, the dispatch's reason or the status is given |
| AgencyReplies.Send | src/agent/agency-reply-dispatch.ts:108-176 | finds or creates the segment's run and dispatches it; under full authority a new segment is on its way in a run that carries it; a segment already delivered is answered with its message id and nothing changes |
| AgencyReplies.Transmit | src/agent/agency-delivery-adapter.ts:44-61 | what reaches the transport is the segment, in its chat, word for word and as a reply to the message it names, unless the run was cancelled |
| AgencyReplies.Conclude | src/agent/agency-reply-dispatch.ts:163-195 | accepted with the transport's message id exactly when the adapter won with a usable one and the run was still running |
| Missions.LatestByMission | src/agent/cognitive-continuity.ts:213-230 | one pass over the sorted updates keeps each mission's latest |
| MissionTheorems.LatestIs | src/agent/cognitive-continuity.ts:213-230 | the deciding update is the most recent by date, sequence and id |
| MissionTheorems.HeartbeatKeepsDistance | src/agent/cognitive-continuity.ts:332-379 | in every history, also with wakes requested directly, a wake written by a heartbeat lies an hour after the schedule of the wake before it, if nothing was dated later and no listing was cut off |
| MissionTheorems.EveryWakeSpaced | src/agent/cognitive-continuity.ts:186-257 | when only heartbeats request wakes, any two successive wakes of a mission lie an hour after the first one's schedule, under the same conditions |
| MissionTheorems.WakesAnHourApart | src/agent/cognitive-continuity.ts:332-379 | with a heartbeat on the clock any two wakes without a host report in between lie at least an hour apart |
| MissionTheorems.OneWakePerMinute | src/agent/cognitive-continuity.ts:359 | a mission is woken at most once per scheduled minute |
| MissionTheorems.TickSparesClosed | src/agent/cognitive-continuity.ts:365-379 | a tick writes nothing about a mission that is closed or not due |
| MissionTheorems.EveryDueChosen | src/agent/cognitive-continuity.ts:365-379 | as long as no listing is cut off and the limit has room, a tick turns to every mission that is due |
| MissionTheorems.ChosenCount | src/agent/cognitive-continuity.ts:365-369 | however many are due, a tick turns to as many as its limit allows, at most a hundred |
| MissionQuiet.ProposedDueIff | src/agent/cognitive-continuity.ts:232-257 | a mission nothing was said of is due from its proposed first wake on, or at once |
| MissionQuiet.ReportGoverns | src/agent/cognitive-continuity.ts:232-330 | a report nothing is dated after closes its mission or makes it due exactly from the wake it schedules, else from the proposal's |
| MissionQuiet.WakeTakesEffectIff | src/agent/cognitive-continuity.ts:202-223 | a wake becomes the deciding update of its mission exactly when no earlier update is dated in its future |
| MissionQuiet.QuietHourIff | src/agent/cognitive-continuity.ts:186-257 | in every history, while nothing more is said of it, a woken mission is not due up to an hour past the wake's schedule exactly when no update dated after the wake stands, or the most recent one closes the mission or schedules it (or the proposal does) no sooner |
| MissionQuiet.OverruledStaysDue | src/agent/cognitive-continuity.ts:186-257 | a wake overruled by a later-dated update changes nothing: the mission stays due at every later time |
| MissionWitness.WakesAMinuteApart | src/agent/cognitive-continuity.ts:332-379 | one report dated ahead, and a heartbeat writes two wakes of the mission sixty seconds apart |
| MissionTheorems.VerifiedIsProven | src/agent/cognitive-continuity.ts:301-305 | a mission projecting as verified has evidence and all of at least one check |
| MissionScheduler.RecordObservation | src/agent/cognitive-continuity.ts:281-330 | what is stored of a report: its date, figures, evidence and next wake, verified exactly when asked for and proven, for a mission proposed in that chat |
| MissionScheduler.RequestWake | src/agent/cognitive-continuity.ts:333-362 | writes nothing for a closed mission; what is stored of a wake is its mission, chat and bounded date, once per minute |
| MissionScheduler.ClaimDue | src/agent/cognitive-continuity.ts:365-379 | the loop over the due missions, reporting only inserted wakes |
| Circuits.SafeStatus | src/agent/action-circuits.ts:147-157 | verified exactly on a receipt, three samples, all successful and none falsely |
| Circuits.ListCircuits | src/agent/action-circuits.ts:235-254 | the listing loop with its early stop |
| CircuitTheorems.LatestIs | src/agent/action-circuits.ts:246-248 | the evaluation that counts is the newest of the scope |
| Projections.UniqueIs | src/agent/cognitive-continuity.ts:100-105 | cleaned evidence is the distinct non-empty ids, trimmed and cut off at 240 characters |
| CircuitTheorems.ListedIsSound | src/agent/action-circuits.ts:160-254 | a listed circuit is published in exactly this scope, unexpired, and its latest evaluation is flawless |
| CircuitTheorems.EveryUsableListed | src/agent/action-circuits.ts:235-254 | with room in the limits every published, unexpired circuit whose latest evaluation is flawless is listed |
| CircuitTheorems.ListedCount | src/agent/action-circuits.ts:235-254 | a listing shows all usable publications, up to its limit and never more than a hundred |
| CircuitTheorems.BadEvaluationRemovesIff | src/agent/action-circuits.ts:195-249 | a bad evaluation takes a circuit off the list exactly when dated after every other; the publication stays in the log |
| CircuitWitness.BadStaysListed | src/agent/action-circuits.ts:160-254 | a circuit proposed, verified and published, then failed in the second of its verification: a duplicate, and it stays listed |
| EvidenceRecords.EvaluateCircuit | src/agent/action-circuits.ts:160-206 | what is stored of a trial: date, figures and receipts, verified exactly on a receipt and a flawless replay, for a circuit proposed in that chat |
| EvidenceRecords.PublishCircuit | src/agent/action-circuits.ts:209-232 | publishes only on a latest verified evaluation and before the circuit expires |
| EvidenceRecords.EvaluateValue | src/agent/active-proposals.ts:291-329 | what is stored of a review: date, figures and evidence, retained exactly when asked for with evidence and all checks passed, for a value proposed in that scope |
| EvidenceRecords.AdoptValue | src/agent/active-proposals.ts:332-359 | adoption by the map of latest settlements, citing the evidence of the retention it rests on |
| Values.LatestSettlements | src/agent/active-proposals.ts:192-210 | the loop keeps each proposal's newest settlement |
| Values.AdoptionIsGrounded | src/agent/active-proposals.ts:332-359 | every adoption followed an evaluation that was the newest of its value and scope by date and id, retained and proven, and cites its evidence, at most once per value |
| ActionBoard.DecisionFor | src/agent/action-board.ts:115-153 | eligible exactly in scope, alive, in a live status and with every need observed; deferred exactly when nothing needed is lacking and something is unknown |
| ActionBoard.RejectRivals | src/agent/action-board.ts:173-178 | the in-place pass rejects exactly the winner's rivals |
| ActionBoard.BuildActionBoard | src/agent/action-board.ts:164-189 | the whole board |
| ActionBoard.WinnerIsBest | src/agent/action-board.ts:168-171 | the selected candidate beats every other eligible one by score, then id |
| ActionBoard.StrongestWins | src/agent/action-board.ts:28-171 | of two qualified candidates the outranked one is never selected: priorities within a hundred on either side, one place in the ranking of kinds worth one point, ties by id |
| ActionBoard.SomebodyWins | src/agent/action-board.ts:164-194 | somebody is selected exactly when one of the first 64 candidates qualifies, and then a qualified one is |
| ActionBoard.OrderDoesNotMatter | src/agent/action-board.ts:164-194 | up to 64 distinct candidates in any order select the same one |
| ActionBoard.BoardIsSettled | src/agent/action-board.ts:171-194 | states partition the decisions, no other eligible one keeps the winner's trigger, nothing else changes |

## Left out

- Database, clock, ids: SQL runs as guarded updates of maps and sequences; every block draws one clock reading, one receipt id and one event id, while the code reads the clock several times within a block. Run ids and receipt ids are assumed not to be drawn twice where the code draws random ones; a taken run id is modelled as the storage error it causes.
- Event ids are naturals: only their identity and strict total order matter. The database compares them as text, the mission projection and the board by locale; these orders agree on the ids the code draws.
- Text is a sequence of characters, not of UTF-16 units; JSON is opaque apart from the fields read, so the 8000-character truncation of results and the byte limits of facts are not modelled. A result too long for its column would lose its message id.
- Events.DraftIs: the stored scope columns hold a trimmed and cut off task id; here the event keeps the scope as given, and its key, which is what every query compares, is the stored one.
- Table-existence probes and the storage errors behind them, logging, environment parsing and the normalisation of the policy configuration are left out; switches and configurations are parameters.
- Events.AppendKeepsLog: the message type and source vocabularies are closed by type here; other kinds go under one constructor.
- Outbox.AllDue: the join with the events table is left out, since every outbox row names an event of the log (`Events.EveryLogWellFormed`); deletion of events does not occur in this code.
- OutboxWorkers.DrainBatch: a retry function that itself throws aborts the drain in the code; here a retry time is a number. The timer's ticks are separate calls of `RunDrain`.
- AgencyRuntimes.AgencyRuntime.Settle: usage counts and the configured caps in the event's fact are left out; the abort signal is a flag of the execution rather than a shared object, and the counters are handed from the launch to the later turns by the caller.
- Dedupe keys of other subsystems are assumed not to print like a key of a run, wake, observation, evaluation, publication or adoption.
- AgencyTheorems.AtMostOnceEver: a run left running by a crash stays so; the code has no recovery and none is claimed.
- OutboxWorkers.OutboxWorker.Start: the first drain is one step of the call, while in the code its awaits outlast the call; a worker's switch and timer are all that changes in the meantime.
- MissionTheorems.EveryWakeSpaced: speaks of histories in which the scheduler alone asks for wakes, since a wake may also be requested directly for a time of the caller's choice (`MissionTheorems.HeartbeatKeepsDistance` holds among those); assumes that the listings of 1000 updates were not cut off; beyond that a mission's latest update can fall out of the projection.
- Process wakes, checkpoints and stops of the continuity module, sensor observations (they repeat the gate of value evaluations), and the summaries and texts of reports.
- Action semantics rows of the run table, run listings and summaries, and the anchored variant of the envelope builder.
- The other agency bridges (wait, code, meta, proposals, intent, legacy replies), which repeat the reply bridge's argument with other keys; transports, model calls and tools themselves.
- Writing Telegram message events and the state of the inner life; they enter the log as foreign events.
