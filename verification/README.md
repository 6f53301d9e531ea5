# Verification of the Agentis work-record store and its delivery protocols

The daemon of `packages/cli` keeps one SQLite database of tasks, runs, approvals, pending actions, handoffs, artifacts
and commands, an append-only event log and a stop-all latch. Seven owner commands, about ten engine callbacks, a timeout
sweep and a daemon restart change it, one transaction at a time. Four protocols surround it: the event stream with a
bounded queue per subscriber, the browser client's retries and refreshes, the provider drivers' single request slot, and
the copy of a result file into a private spool. This project models these parts and proves what they promise together.

How it is laid out:

- `Types`, `Rows`, `Transactions`: the rows, the row updates, and every transaction as a function from state to state.
  `Step`, `Next`, `Legal` and `Exec` give the runs of the whole store; times are arbitrary integers and need not grow.
- `Invariants`, `Preservation`, `Insertions`, `Reachability`, `Stopping`, `Sweeping`, `Reachable`: one invariant over all
  tables, and that every transaction keeps it.
- `Lifecycle`, `Budgets`, `Traces`: a relation that holds between any two moments of a run of the store.
- `History`, `Chronicle`: an independent reader of the event log, and that it rebuilds the tables.
- `Guarantees`, `Ownership`, `Authority`, `LateExpiry`, `Replays`: the store's promises, read off the above.
- `Outcomes`, `Counting`, `PendingActions`, `Telling`, `Naming`: what the transactions bring about: what can be done next,
  what is counted, what the pending actions say, what the conversation is told and what the log names.
- `WorkStore`: the store as a class whose methods update tables in place, with loops over query results and a rollback,
  proved against the functions.
- `Waiting`, `ProviderRequests`, `Answering`, `Opening`, `Decisions`, `RoundTrips`, `ProviderHub`: owner decisions
  carried back to provider requests.
- `Streams`, `Delivery`, `CatchingUp`, `TransitionHub`: the event stream.
- `ClientCommands`, `ExactlyOnce`, `Retrying`, `ClientRefresh`, `WorkspaceStore`: the browser client.
- `VerifiedFile`: the hashed copy.

`Legal` (and `Allows` in the protocols) holds only what the daemon's own callers guarantee: identifiers are newly drawn,
queries return the rows they select in some order, a callback names its run's own task, a provider-state write never
starts a load, and the recipient of a handoff never opens an approval (its driver refuses every request of it, which
`ProviderHubs.ProviderHub.Permission` models).

## What was found

- **A finished run can finish again.** A run that completes while an approval of its own is pending is failed by the
  sweep that later expires the approval: `LateExpiry.SucceededThenFailed` is such a run of the store, in which a Codex turn
  completes while its request waits. A finished run's outcome is final exactly when no pending approval names it
  (`Guarantees.FinalExactlyWhenSettled`).
- **A lapsing handoff and its task row.** Refusing a proposed handoff leaves the task row as it was, except in a sweep in
  which such a leftover approval of the source run falls due as well; that sweep fails the task. `Ownership.SweepRefuses`
  gives the row exactly, and `LateExpiry.LapsedAndFailed` is a run of the store that ends so.
- **Acknowledging setup while the client is busy breaks exactly-once.** `acknowledgeSetup` sets and clears `busy` without
  looking at it. Acknowledging it keeps acceptance at most once if and only if the client is not busy
  (`ExactlyOnce.SetupIsSafeExactlyWhenIdle`): whatever the client is busy with, there is a continuation in which setup
  is left alone, the page stays signed in and one command's `onAccepted` runs twice
  (`ExactlyOnce.BusySetupAcceptsTwice`). The one place that calls it, the button at
  `packages/cli/web/src/app.tsx:106-109`, is disabled while the client is busy, which is exactly this condition; the
  method itself, whose calls are inputs here, does not ask for it.
- **A refresh can lose a wake-up against an honest server.** Three answers each overtaken by an announcement make the
  client take the last one for the truth; and a refresh that an announcement started may fail without ending the session,
  which leaves the event stream open and starts no timer. Exactly these two moves leave a client at rest behind what its
  open stream announced: a third regressing answer to a refresh not asked to reconnect, and a failure while the stream is
  ahead of the snapshot (`ClientRefresh.BehindExactly`). If the stream was closed meanwhile, or a refresh that succeeds
  was to reconnect it, the new one starts at the snapshot and announces the rest again. A client behind stays so until the
  next announcement, the next refresh or the end of the stream, and no announcement comes while nothing more is logged
  (`ClientRefresh.BehindStaysBehind`). `ClientRefresh.WakeUpLost` and `ClientRefresh.WakeUpFailed` are such runs.
- **One slow subscriber can evict the others.** The pump reads one window for all captured subscribers; when the furthest
  behind fell out of the retained 128 transitions all of them are cut off, up to date or not. Otherwise each is served as
  if it were alone (`Delivery.PumpServesEachAlone`). It takes 129 transitions logged before the pump next runs
  (`Delivery.UpToDateIsEvicted`). The comment at `packages/cli/src/sse.ts:28-29` speaks of the queue bound, which is per
  subscriber; the eviction is not.
- **Redundant guards.** The global run cap refuses nothing the per-bot caps would admit, the task's action cap refuses
  nothing the run's cap allows, and the budget check of a handoff proposal never fires.

## Model

| member | source | states |
|---|---|---|
| Guarantees.ReachableStates | packages/cli/src/store.ts:1174-1263 | in every reachable state of the store the invariant holds, each task's action count is the sum over its runs, and the log read back gives the tables |
| Reachable.NextKeeps | packages/cli/src/store.ts:2159-2465 | every transaction, from whatever state and in whatever order, keeps the invariant over all tables |
| Reachable.DispatchKeeps | packages/cli/src/store.ts:1174-1263 | every owner command keeps the invariant |
| Stopping.StopKeeps | packages/cli/src/store.ts:1799-1846 | stop-all keeps the invariant although its loop runs with approvals still pending on the runs it cancels; afterwards no run is active or loading |
| Stopping.StopReordered | packages/cli/src/store.ts:1799-1846 | canceling each run, then dropping approvals under the latch, leaves the same tables as dropping them first and latching last |
| Sweeping.SweepKeeps | packages/cli/src/store.ts:2472-2535 | the sweep keeps the invariant through its three dependent loops |
| Sweeping.OverdueIsDecided | packages/cli/src/store.ts:2477-2519 | when the deadline loop starts, no overdue run has an undecided handoff: its handoff was due no later than the run |
| Sweeping.RestartKeeps | packages/cli/src/store.ts:2116-2157 | a restart keeps the invariant |
| Insertions.InsertHandoffKeeps | packages/cli/src/handoff-store.ts:136-296 | a granted proposal keeps the invariant: it is the task's first handoff and its source is the task's current run |
| Insertions.AcceptKeeps | packages/cli/src/handoff-store.ts:301-371 | transferring the task to the recipient keeps the invariant |
| Chronicle.HistoryIsComplete | packages/cli/src/store-db.ts:26-38 | along every run of the store, folding the events rebuilds every run's status, every task's status, owner, current run and latest artifact, every handoff's state and the latch |
| Chronicle.NextLogged | packages/cli/src/store.ts:2224-2535 | each transaction appends exactly the events that do to the reader's board what it did to the tables |
| Chronicle.StopLogged | packages/cli/src/store.ts:1799-1846 | stop-all's events are a complete account although the latch is set first and logged last |
| Chronicle.CancelLogged | packages/cli/src/store.ts:1728-1797 | a canceled recipient is logged as rejected and then canceled, and the second event prevails |
| Chronicle.RestartLogged | packages/cli/src/store.ts:2116-2157 | one restart event accounts for all the runs it interrupted |
| Guarantees.LifecycleIsMonotone | packages/cli/src/run-lifecycle.ts:13-95 | between any two moments an inactive run stays inactive with its session and count, interrupted leads only to failed or canceled, finished stays finished, canceled is frozen with its completion time, and the first start stands |
| Guarantees.FinalExactlyWhenSettled | packages/cli/src/store.ts:2520-2528 | the outcome of a finished run survives everything that may follow if and only if no pending approval names it |
| LateExpiry.SucceededThenFailed | packages/cli/src/store.ts:1142-1172 | a run of the store from the empty database, on Codex, after which a succeeded run is failed by a sweep |
| LateExpiry.LapsedAndFailed | packages/cli/src/store.ts:2472-2535 | a run of the store from the empty database after which one sweep lapses a handoff and fails the completed task that proposed it |
| Guarantees.StopAllIsABarrier | packages/cli/src/store.ts:1799-1846 | after a committed stop-all, whatever follows, nothing is active, loading or pending, and runs, tasks, artifacts, accepted handoffs and all action counts are fixed |
| Guarantees.LatchHolds | packages/cli/src/store.ts:2161-2165 | the same from any state with the latch set |
| Guarantees.OwnershipIsExact | packages/cli/src/handoff-store.ts:301-371 | a task has one handoff and two runs at most; accepted means owned by Ivo through the recipient run, anything else means owned by Mara through the source run |
| Ownership.RefusalLeavesTask | packages/cli/src/handoff-store.ts:80-120 | any step other than a sweep that rejects, lapses or cancels a proposed handoff leaves the task row unchanged |
| Ownership.SweepRefuses | packages/cli/src/store.ts:2472-2535 | a sweep leaves the task row of a proposed handoff unchanged, unless a pending approval of the source falls due in it, and then the row is failed at that time |
| Guarantees.AdmissionHolds | packages/cli/src/run-lifecycle.ts:22-24 | at most one run per bot and two in all are active or loading, and the global cap is reached only when every bot's own cap is |
| Guarantees.StatusIsProjected | packages/cli/src/run-lifecycle.ts:30-34 | a task's owner and status are those of its current run, status by status in both directions |
| Guarantees.ProposedRunIsOpen | packages/cli/src/handoff-store.ts:216-270 | the recipient of an undecided handoff is unfinished, has no approval and no artifact, and its handoff lapses no later than its deadline |
| Guarantees.CompletesOnce | packages/cli/src/store.ts:2327-2406 | once a run has completed, no later call completes it, whatever happened in between |
| Guarantees.ResultsAreUnique | packages/cli/src/store.ts:2327-2406 | a succeeded run has exactly one artifact, only succeeded and failed runs have any, and a recipient's artifact means its handoff was accepted |
| Guarantees.DraftsOnce | packages/cli/src/store.ts:2171-2176 | a draft is claimed only while its handoff is accepted and its run active, and over every run of the store at most once |
| Guarantees.ClaimExactly | packages/cli/src/handoff-store.ts:372-379 | a claim succeeds exactly when the handoff is accepted, the run active and its draft action still pending |
| Guarantees.SweepIsComplete | packages/cli/src/store.ts:2472-2535 | after a sweep no handoff, deadline or approval is due at that time, and runs outside the returned effects are untouched |
| Guarantees.SweepIsIdempotent | packages/cli/src/store.ts:2472-2535 | a second sweep at the same time changes nothing at all and returns no effects |
| Guarantees.RunCapDecides | packages/cli/src/store.ts:2435-2460 | an action is granted exactly when the run is working and below its own cap: the task's cap never refuses it |
| Guarantees.ProposalBudgetNeverSpent | packages/cli/src/handoff-store.ts:174-174 | the budget check of a proposal never fires |
| Authority.OnlyTheOwnerDecides | packages/cli/src/store.ts:1527-1670 | of all transactions, a pending approval becomes allowed or denied exactly by the owner's committed decision on it, before it expires, while its run waits for it and the latch is open; the owner's session is recorded |
| Authority.OnlyTheRecipientAccepts | packages/cli/src/handoff-store.ts:301-371 | of all transactions, a proposed handoff is accepted exactly by an answer that names and accepts it, in time, from the session the recipient runs in, while the latch is open and the task below its cap |
| Authority.OnlyDeliverySucceeds | packages/cli/src/store.ts:2327-2406 | of all transactions, a run succeeds exactly when its driver delivers while it works and any handoff to it was accepted |
| Authority.OnlyGrantsBegin | packages/cli/src/store.ts:1265-1525 | of all transactions, a run begins exactly with a granted submission or proposal that drew its identifier |
| Authority.SubmissionGranted | packages/cli/src/store.ts:1265-1375 | a submission is granted exactly when its capabilities, bot, channel and mode allow it, the latch is open and its bot is free; the global cap never decides |
| Authority.ProposalGranted | packages/cli/src/handoff-store.ts:136-195 | a proposal is granted exactly for the owner's succeeded Codex run that is still its task's current run, with a small intact draft and no earlier handoff, when the latch is open and Ivo is free; neither global cap nor budget decides |
| Authority.LoadGranted | packages/cli/src/store.ts:1189-1243 | a history load is granted exactly for an inactive run with a real provider session whose bot is free while the latch is open |
| Outcomes.RefusalsChangeNothing | packages/cli/src/store.ts:1174-1263 | a command is accepted exactly when its receipt names no denial; a refused one issues no effect and changes nothing, except that a late decision lets its approval expire |
| Outcomes.SubmissionBegins | packages/cli/src/store.ts:1375-1525 | a granted submission begins a working run for the named bot or Mara, in the submitting session, by the provider configured for that bot, overdue after exactly fifteen minutes |
| Outcomes.ProposalBegins | packages/cli/src/handoff-store.ts:196-296 | a granted proposal begins a Claude run for Ivo on the same task, which it leaves alone, with a handoff due after exactly a minute |
| Outcomes.ProposalCanBeTaken | packages/cli/src/handoff-store.ts:136-371 | once the recipient of a granted proposal was started in a session, it is taken by exactly an answer of that session that names and accepts it within the minute after it was proposed |
| Outcomes.StartMovesTask | packages/cli/src/store.ts:2224-2243 | starting a working run puts it in the session named, keeps its first start, and moves its task exactly if it is the current run |
| Outcomes.AcceptanceOpensDraft | packages/cli/src/handoff-store.ts:358-379 | an acceptance hands the task to the recipient; the next claim of the draft is granted and the recipient may deliver |
| Outcomes.RefusalEnds | packages/cli/src/handoff-store.ts:301-371 | a late answer lets the handoff lapse, one of its own session that does not take it rejects it, both failing the recipient with no action pending; any other answer changes nothing |
| Outcomes.FailureRefutes | packages/cli/src/store.ts:2407-2434 | a working run fails, and a handoff it had not decided is rejected with it |
| Outcomes.DeliveryIsRecorded | packages/cli/src/store.ts:2327-2406 | a delivery succeeds the run, is recorded as its artifact and shown as the latest of its completed task, logged with its handoff, and can be handed off exactly when it fits the limit |
| Outcomes.AskedIsActionable | packages/cli/src/store.ts:2244-2301 | a working run that asks gets an approval of its own that the owner can decide for exactly five minutes |
| Outcomes.DecisionIsObeyed | packages/cli/src/store.ts:1588-1670 | allowed the run works on, denied it has failed, and the tool action that waited says the same |
| Outcomes.LateDecisionExpires | packages/cli/src/store.ts:1575-1587 | a decision that comes too late is refused, expires the approval and fails the run |
| Outcomes.QuestionCanBeAnswered | packages/cli/src/store.ts:1672-1726 | a question can be answered exactly once, and then its run works on |
| Outcomes.CancelClears | packages/cli/src/store.ts:1728-1797 | a cancel is accepted exactly for an unfinished run and leaves it canceled with no handoff, approval or action of it open |
| Outcomes.StopCancels | packages/cli/src/store.ts:1799-1846 | stop-all cancels exactly the active runs, which its event names, and fails exactly the loads under way |
| Outcomes.RestartInterrupts | packages/cli/src/store.ts:2116-2157 | a restart interrupts exactly the active runs and fails exactly the loads under way |
| Outcomes.LoadTakesItsBot | packages/cli/src/store.ts:1189-1256 | while a history loads its bot is taken, and saving how the load ended frees it |
| Outcomes.SweepDecides | packages/cli/src/store.ts:2472-2535 | a sweep lapses exactly the handoffs and expires exactly the approvals that are due, fails the runs concerned, and its effects name failed runs only |
| Counting.GrantIsCounted | packages/cli/src/store.ts:2435-2460 | a granted action is one more on its run and one more on its task and nothing else, a refused one nothing |
| Counting.GrantsAreCounted | packages/cli/src/store.ts:2435-2460 | in every run of the store a run's count is the number of actions it was granted, at most twenty |
| PendingActions.ActionsAreManned | packages/cli/src/store.ts:2224-2301 | in every reachable state each run has one launch, claimed exactly when the run was ever started; each approval one tool action that follows its decision; each accepted handoff its draft |
| PendingActions.NextManned | packages/cli/src/store.ts:1588-1670 | every transaction keeps the pending actions so |
| Telling.EveryEventIsTold | packages/cli/src/run-lifecycle.ts:36-95 | over every run each event in the log has its message in the conversation, and no progress note of one run with one text is logged twice |
| Telling.ProgressIsLoggedOnce | packages/cli/src/store.ts:2177-2201 | a progress note is logged exactly when it is new and its run drafts an accepted handoff; sent again it changes nothing |
| Naming.LogNamesRows | packages/cli/src/store-db.ts:26-38 | in every reachable state what the log names is there and belongs together: handoffs with their task and recipient, approvals with their run and decision, results with their run, canceled and interrupted runs |
| Naming.NextNames | packages/cli/src/store.ts:2159-2535 | every transaction logs only what is so in the tables before or after it |
| Budgets.TaskWithinCap | packages/cli/src/store.ts:2446-2457 | a task's count stays within forty over at most two runs |
| Traces.TraceOnward | packages/cli/src/store.ts:2159-2535 | nothing that happens between two moments undoes a run's outcome, a decided approval or handoff, an artifact or the latch, and action counts stay conserved |
| Replays.IdleCallsAreStutters | packages/cli/src/store.ts:578-621 | inserting replays, conflicting, foreign or failing calls anywhere in a history leaves its final state and every receipt it issued unchanged |
| Replays.ReplayedForever | packages/cli/src/store.ts:578-598 | after any history a repeated key is answered with the first receipt marked replayed and without effects, a reused key with a conflict, and neither changes the store |
| Replays.ReceiptsStand | packages/cli/src/store.ts:599-616 | committed receipts and events are never altered or removed by any later step |
| Replays.ThrowsChangeNothing | packages/cli/src/store-db.ts:14-24 | a call throws exactly when it is not the owner's, reuses a key or its writes fail; then it leaves the store as it was, and a call changes it exactly when it commits |
| WorkStores.WorkStore.ApplyCommand | packages/cli/src/store.ts:578-621 | the call run in place, rolled back when a late write fails, leaves the specified state and answer and keeps the invariant and the log |
| WorkStores.WorkStore.Dispatch | packages/cli/src/store.ts:1174-1263 | each command handler computes its specified state and receipt in place |
| WorkStores.WorkStore.SubmitTask | packages/cli/src/store.ts:1265-1525 | a submission inserts task, run and launch action, or is refused with nothing written |
| WorkStores.WorkStore.ProposeHandoff | packages/cli/src/handoff-store.ts:136-296 | a proposal inserts handoff, recipient run and launch action, or is refused with nothing written |
| WorkStores.WorkStore.ResolveApproval | packages/cli/src/store.ts:1527-1670 | an approval is refused, expired, allowed or denied with the run, actions and events that go with it |
| WorkStores.WorkStore.AnswerInput | packages/cli/src/store.ts:1672-1726 | an answer resumes a run only if it was waiting for input |
| WorkStores.WorkStore.CancelRun | packages/cli/src/store.ts:1728-1797 | canceling rejects a proposed handoff first and drops the run's actions and approvals |
| WorkStores.WorkStore.LoadSession | packages/cli/src/store.ts:1189-1256 | a history load is admitted under the same caps as a run |
| WorkStores.WorkStore.StopAll | packages/cli/src/store.ts:1799-1846 | the loop over active runs leaves the specified state for any order of the rows |
| WorkStores.WorkStore.FinishRows | packages/cli/src/run-lifecycle.ts:64-86 | the run is finished and its task follows only if the run is current |
| WorkStores.WorkStore.RejectHandoff | packages/cli/src/handoff-store.ts:80-120 | only a proposed handoff is rejected, with its run and its pending actions |
| WorkStores.WorkStore.ExpireApproval | packages/cli/src/store.ts:1142-1172 | expiring an approval fails the run it names |
| WorkStores.WorkStore.MarkRunning | packages/cli/src/store.ts:2224-2243 | starting a working run claims its launch and moves its task |
| WorkStores.WorkStore.WaitApproval | packages/cli/src/store.ts:2244-2301 | a working run opens an approval with its action |
| WorkStores.WorkStore.WaitInput | packages/cli/src/store.ts:2302-2326 | a working run waits for input |
| WorkStores.WorkStore.Complete | packages/cli/src/store.ts:2327-2406 | a working run whose handoff, if any, was accepted gets its artifact and succeeds |
| WorkStores.WorkStore.Fail | packages/cli/src/store.ts:2407-2434 | a working run fails, as a rejection if its handoff is undecided |
| WorkStores.WorkStore.BumpAction | packages/cli/src/store.ts:2435-2460 | an action is counted on run and task together or refused |
| WorkStores.WorkStore.SaveLoad | packages/cli/src/store.ts:2210-2223 | a provider-state write keeps the invariant |
| WorkStores.WorkStore.DecideHandoff | packages/cli/src/handoff-store.ts:301-371 | late, foreign, garbled, declined and accepted answers each leave their specified state |
| WorkStores.WorkStore.ClaimDraft | packages/cli/src/store.ts:2171-2176 | the claim reports whether exactly one action changed |
| WorkStores.WorkStore.PeerProgress | packages/cli/src/store.ts:2177-2201 | a progress note is logged once per text while the handoff is accepted |
| WorkStores.WorkStore.SweepRunTimeouts | packages/cli/src/store.ts:2472-2535 | three loops, each query run after the loop before, for any order of the rows |
| WorkStores.WorkStore.InterruptActive | packages/cli/src/store.ts:2116-2157 | the restart loop leaves the specified state for any order of the rows |
| Waiting.NextCalm | packages/cli/src/store.ts:2244-2326 | no transaction but the two callbacks that ask makes a run wait for its owner or an approval pending |
| Waiting.DispatchCalm | packages/cli/src/store.ts:1527-1726 | a command issues at most one effect, and one that replies to a provider only with the decision on a waiting run |
| Decisions.OnlyAllowedIsAccepted | packages/cli/src/codex.ts:408-577 | over every run, with effects applied after any delay and in any order: accept is sent only for a request whose approval, opened on its own run and for no other request, was allowed, decline only where it was denied, the owner's answers go only to questions, and no request is answered twice |
| Decisions.DecisionReaches | packages/cli/src/engine.ts:200-250 | while the session lives, a decision on its way is written to the request it was made for and frees the slot |
| Decisions.SlotIsKept | packages/cli/src/codex.ts:422-431 | over every run, from its seating until it is answered, interrupted or its session ends, a request keeps the slot unanswered and every other request of its run is turned away as busy |
| Decisions.SlotEndsExactly | packages/cli/src/codex.ts:135-148 | of all moves, exactly the reply to it, an interruption, the end or replacement of its session and a restart take a request out of its slot |
| Opening.ActOpened | packages/cli/src/codex.ts:432-456 | every move keeps each request's approval on the request's run and apart from every other request's |
| Opening.RecipientsOnClaude | packages/cli/src/handoff-store.ts:199-207 | in every reachable state the recipient of a handoff runs on Claude, whose driver refuses its requests |
| Decisions.ActSound | packages/cli/src/codex.ts:135-148 | every transaction, request, delivery, session start, load and drop keeps the slot and what is under way about the same request |
| Decisions.AskedStands | packages/cli/src/codex.ts:432-456 | the approval opened for a request never changes |
| RoundTrips.RequestIsPut | packages/cli/src/codex.ts:432-466 | a request in a free slot of a working run within budget takes the slot, is counted if its provider counts it, and opens an approval or a question |
| RoundTrips.ExhaustedIsFailed | packages/cli/src/codex.ts:432-442 | out of budget the run fails and loses its session, and only Claude is told |
| RoundTrips.MutedIsTurnedAway | packages/cli/src/claude.ts:157-176 | a session that loads history, or a handoff's recipient, is told that nobody is there |
| RoundTrips.DecisionIsCarried | packages/cli/src/engine.ts:201-238 | a committed decision, once its effect is applied, is written to the request in the slot of its run: accept when allowed, decline with the session dropped when denied |
| RoundTrips.AnswerIsCarried | packages/cli/src/engine.ts:239-250 | a committed answer, once its effect is applied, is written to the question in the slot |
| RoundTrips.AskedAndDecided | packages/cli/src/codex.ts:408-577 | from any state: a started session asks, the owner decides within five minutes, the effect is applied, and the request hears the decision |
| RoundTrips.AskedAndAnswered | packages/cli/src/codex.ts:408-577 | the same trip for a question and its answer |
| RoundTrips.InterruptionsClose | packages/cli/src/engine.ts:278-286 | a cancel or a late decision, once applied, leaves its run no session, a stop-all leaves none at all |
| RoundTrips.BegunMayStart | packages/cli/src/engine.ts:160-187 | a granted submission or proposal puts its launch on its way and its run may be started at once if it has a provider |
| RoundTrips.LoadMayStart | packages/cli/src/engine.ts:133-159 | a granted load puts its start on its way and the history may be loaded at once |
| ProviderHubs.ProviderHub.HandleNotice | packages/cli/src/codex.ts:408-467 | a Codex request takes the slot and asks the store, fails the run unanswered when the budget is spent, or is refused |
| ProviderHubs.ProviderHub.Permission | packages/cli/src/claude.ts:157-221 | a Claude request is refused for a handoff's recipient, counted whatever it asks, told when the budget is spent, or takes the slot |
| ProviderHubs.ProviderHub.SeatRequest | packages/cli/src/codex.ts:443-466 | the request in the slot is the one the store was asked about |
| ProviderHubs.ProviderHub.ResolveCodex | packages/cli/src/codex.ts:549-577 | whatever holds the slot is answered, and a denial drops the session only if something did |
| ProviderHubs.ProviderHub.ResolveClaude | packages/cli/src/claude.ts:84-89 | only a request of the right kind is answered, and a denial always drops the session |
| ProviderHubs.ProviderHub.ApplyEffect | packages/cli/src/engine.ts:200-286 | one effect answers what holds the slot of its run's own provider, or drops sessions, and keeps the protocol sound |
| Delivery.NoGapNoDuplicate | packages/cli/src/sse.ts:40-153 | for every interleaving, what an open subscriber was sent and has queued is the log from its start to its cursor with at most 32 queued; a closed one was sent a prefix, with a resync request last or not at all |
| Delivery.PumpServesEachAlone | packages/cli/src/sse.ts:93-108 | a captured subscriber is fed from its own cursor as if it were alone, except when the furthest behind fell out of retention, and then it is cut off |
| Delivery.ClosedIsFrozen | packages/cli/src/sse.ts:141-161 | a closed stream is never written to again |
| Delivery.UpToDateIsEvicted | packages/cli/src/sse.ts:99-102 | a run in which 129 transitions logged before the pump next runs let a subscriber that holds the whole log and never stalled be evicted with one that subscribed before them |
| Streams.WindowStartIsIrrelevant | packages/cli/src/sse.ts:103-108 | what a subscriber is given does not depend on where the shared window begins |
| Streams.StalledIsCutOffExactly | packages/cli/src/sse.ts:114-123 | a stalled subscriber is cut off exactly when its queue would exceed 32, and loses nothing before |
| Streams.FastIsNeverCutOff | packages/cli/src/sse.ts:125-139 | a response that never asks to wait is never cut off by its queue |
| CatchingUp.DrainResumes | packages/cli/src/sse.ts:125-139 | a drain of an open stream writes frames up to and including the first that asks to wait again, all of them if none does |
| CatchingUp.DrainEmpties | packages/cli/src/sse.ts:130-136 | a response that takes everything from its drain on is sent all that was queued |
| CatchingUp.SubscriberIsServed | packages/cli/src/sse.ts:40-83 | a subscriber whose cursor is within retention is listed and sent the log from there at once, any other is sent nothing and not listed |
| CatchingUp.PumpCatchesUp | packages/cli/src/sse.ts:85-112 | one pump sends an open, willing subscriber the whole log, while the furthest behind is within retention |
| CatchingUp.DrainThenPump | packages/cli/src/sse.ts:85-139 | a stalled subscriber whose response drains is caught up by one pump as well |
| CatchingUp.CutOffIsTold | packages/cli/src/sse.ts:114-153 | a stream cut off for its queue is asked to resynchronise as its last frame |
| CatchingUp.ExpiredIsTold | packages/cli/src/sse.ts:93-102 | and so is a captured one when the furthest behind fell out of retention |
| CatchingUp.LeavingIsFinal | packages/cli/src/sse.ts:52-56 | a response that fails or is closed is delisted and sent nothing more |
| CatchingUp.ClosedHubIsEmpty | packages/cli/src/sse.ts:163-168 | a closed hub has closed all it held without another frame and takes nobody in |
| TransitionHubs.TransitionHub.Flush | packages/cli/src/sse.ts:125-139 | the write loop stops at back-pressure with the rest queued in order |
| TransitionHubs.TransitionHub.Enqueue | packages/cli/src/sse.ts:114-123 | a transition is skipped, queued and flushed, or overflows |
| TransitionHubs.TransitionHub.BeginSubscribe | packages/cli/src/sse.ts:40-56 | a subscriber is listed unless the hub is closed |
| TransitionHubs.TransitionHub.FinishSubscribe | packages/cli/src/sse.ts:57-83 | the replay is fed to a subscriber that is still open |
| TransitionHubs.TransitionHub.BeginPump | packages/cli/src/sse.ts:85-98 | one pump at a time captures the open subscribers and the least of their cursors |
| TransitionHubs.TransitionHub.FinishPump | packages/cli/src/sse.ts:99-112 | the two nested loops give each captured subscriber what feeding it alone would |
| TransitionHubs.TransitionHub.Drain | packages/cli/src/sse.ts:130-136 | a drain resumes flushing |
| TransitionHubs.TransitionHub.CloseSubscriber | packages/cli/src/sse.ts:155-161 | a closed subscriber is delisted and its queue dropped |
| TransitionHubs.TransitionHub.Close | packages/cli/src/sse.ts:163-168 | closing the hub closes every subscriber it holds |
| ExactlyOnce.RetryIsExactlyOnce | packages/cli/web/src/workspace-store.ts:245-306 | over a network that loses, delays, reorders and repeats, and with setup acknowledged only when idle: one commit per command, receipts that agree with it, onAccepted at most once and after it, and at most one command unresolved |
| ExactlyOnce.SetupIsSafeExactlyWhenIdle | packages/cli/web/src/workspace-store.ts:173-191 | acknowledging setup keeps every command accepted at most once, whatever follows with setup left alone while busy, if and only if the client is not busy |
| ExactlyOnce.BusySetupAcceptsTwice | packages/cli/web/src/workspace-store.ts:180-189 | whatever the client is busy with, acknowledging setup has a continuation, lawful for store and client and signed in throughout, in which onAccepted runs twice for one command |
| ExactlyOnce.InterruptedAcceptsTwice | packages/cli/web/src/workspace-store.ts:277-306 | when the call under way is one the store would accept, it is that very command whose onAccepted can run twice |
| ExactlyOnce.ActSound | packages/cli/web/src/workspace-store.ts:193-306 | each send, retry, check, answer, loss and server step keeps the client and the store in agreement |
| Retrying.SendKeepsCommand | packages/cli/web/src/workspace-store.ts:245-281 | a command that is sent is kept, and goes out at once unless the client is busy |
| Retrying.FailureKeepsCommand | packages/cli/web/src/workspace-store.ts:286-305 | a call that fails while the page is signed in leaves the client idle with the command kept and nothing given up, and the next try sends it again under a new number |
| Retrying.ReceiptLetsGo | packages/cli/web/src/workspace-store.ts:293-305 | a receipt lets the command go, and an accepted one runs onAccepted and refreshes before the client is idle |
| Retrying.RetryBringsHome | packages/cli/web/src/workspace-store.ts:272-306 | a kept command can always be brought home: sent again, served and answered it is committed, once however often it was tried |
| Retrying.OnlySigningOutGivesUp | packages/cli/web/src/workspace-store.ts:286-290 | over every run the commands given up are exactly those whose call ended signed out |
| Retrying.CheckLeavesNoTrace | packages/cli/web/src/workspace-store.ts:193-204 | a connection check runs only from an idle client, keeps it busy until it ends, and leaves no trace |
| ClientRefresh.SnapshotCatchesUp | packages/cli/web/src/workspace-store.ts:206-243 | for every interleaving of announcements with answers, at rest after a successful refresh the snapshot is not behind the pending cursor |
| ClientRefresh.AtMostThreeCalls | packages/cli/web/src/workspace-store.ts:213-229 | every answer ends the refresh or counts a regression, and the third regression ends it |
| ClientRefresh.RefreshJoins | packages/cli/web/src/workspace-store.ts:206-207 | a refresh under way is joined whatever is asked of it; at rest a status call goes out at once |
| ClientRefresh.LastAnswerIsShown | packages/cli/web/src/workspace-store.ts:213-229 | over every run the snapshot shown is the last status answer that arrived, whatever was announced and however refreshes ended |
| ClientRefresh.LostExactlyOnThirdRegression | packages/cli/web/src/workspace-store.ts:213-230 | a refresh that succeeds ends behind what was announced exactly on its third regression, and is left behind its stream exactly when besides the stream is open and it was not asked to reconnect |
| ClientRefresh.BehindExactly | packages/cli/web/src/workspace-store.ts:206-243 | after every run and for every move: a client not behind its open stream gets behind exactly by a third regressing answer that keeps the stream or by a failure that keeps a stream ahead of the snapshot; one behind stays so until an announcement, a refresh or the end of the stream |
| ClientRefresh.BehindStaysBehind | packages/cli/web/src/workspace-store.ts:365-378 | for every client, however its last refresh ended: once the stream has announced the rest of the log, it is at rest without all of the log exactly when it was behind and nothing was left to announce |
| ClientRefresh.WakeUpLost | packages/cli/web/src/workspace-store.ts:217-230 | a run from the first refresh on, against an honest server, that leaves the client at rest one transition behind and the open stream with nothing left to announce |
| ClientRefresh.WakeUpFailed | packages/cli/web/src/workspace-store.ts:231-241 | a run in which the refresh started by an announcement fails, leaving the client at rest one transition behind and the open stream with nothing left to announce |
| WorkspaceStores.WorkspaceStore.SendCommand | packages/cli/web/src/workspace-store.ts:245-270 | a command is kept for retrying and sent unless another is kept |
| WorkspaceStores.WorkspaceStore.RetryCommand | packages/cli/web/src/workspace-store.ts:272-281 | the kept command is sent again unless the client is busy |
| WorkspaceStores.WorkspaceStore.CheckConnection | packages/cli/web/src/workspace-store.ts:193-204 | a check starts only from an idle client |
| WorkspaceStores.WorkspaceStore.AcknowledgeSetup | packages/cli/web/src/workspace-store.ts:173-191 | keeps the protocol sound when it starts from an idle client, which it does not check |
| WorkspaceStores.WorkspaceStore.Finish | packages/cli/web/src/workspace-store.ts:283-305 | loss keeps the command for retrying, a receipt or sign-out lets it go |
| WorkspaceStores.WorkspaceStore.Refresh | packages/cli/web/src/workspace-store.ts:206-243 | the loop ends after at most three calls whatever is announced and dropped at its awaits, caught up with the pending cursor and with a stream open when it succeeds; announcements are lost just on the third regression with the stream kept, or on a failure that keeps a stream ahead of the snapshot |
| WorkspaceStores.WorkspaceStore.OnStatus | packages/cli/web/src/workspace-store.ts:216-230 | an answer counts a regression or catches up, and either calls again or ends the refresh and opens a stream unless one is kept |
| VerifiedFiles.OpenVerifiedFile | packages/cli/src/verified-file.ts:59-121 | a spool handed out holds exactly the recorded number of bytes with the recorded digest for every pattern of short reads and writes and a changing source; a stable matching file is always handed out whole |
| VerifiedFiles.WriteChunk | packages/cli/src/verified-file.ts:91-96 | the inner loop appends the whole chunk or reports failure, and terminates |
| VerifiedFiles.ReadVerifiedFile | packages/cli/src/verified-file.ts:29-57 | bytes returned have the recorded size and digest; for a stable file, exactly when its prefix of that size has it |

## Left out

- Containers, child processes, network and proxy setup, fixtures, image provisioning: foreign calls.
- The web page, command-line parsing, HTTP routing, cookies, static files, schema decoding: plumbing.
- SQL text, JSON encoding and hashing: tables are maps, bodies are datatypes, and a payload digest is the payload itself,
  so two different commands with one digest are not modelled.
- Message bodies, threads, evidence, source packets and bot configuration revisions: a message is its dedupe key, which
  is what makes a second insert a no-op.
- Columns that repeat others: waiting reasons, bot roles, pending prompts, provider failure texts and capabilities.
- Fresh identifiers, row orders, clocks, whether a source draft reads back intact, and whether a write fails are inputs.
  A failing write is placed after all others of its transaction; an earlier one leaves the same state.
- The browser session row is an input of a submission; issuing, exchanging and expiring browser sessions is left out.
- finishRun throws when its run is missing; the model leaves the rows alone there, and no reachable state gets there.
- The workspace snapshot, its projections and artifact previews would add only easy members.
- The Claude driver's prompts, session identity and inventory checks, output limits, answer validation and its refusal of
  tools it does not know; the store's side of its two turns (decide, claim, complete) is modelled.
- One live session per run: a launch repeated by a replayed submit while the first is under way is not modelled, and
  neither are the JSON-RPC calls the daemon itself makes to Codex, with their timeouts.
- Interrupt effects returned by the sweep are modelled as sessions that may be closed at any time.
- The stream's timer and frame syntax: a pump may start at any time, and a frame is its transition.
- The client's event generations and reconnect timers: a stream is open or closed, a closed one announces nothing, and
  the refresh that a timer starts may begin at any time.
- Releasing file handles and removing the spool's directory entry after a copy.
