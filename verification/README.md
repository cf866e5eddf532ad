# Verified models of the agent orchestrator

This project models the stateful core of the agent orchestrator and proves what that core is
there to guarantee. `dafny verify dfyconfig.toml` checks all of it.

The files fall into four parts.

**Sessions, runs and holds.** `RunTables`, `SessionProtocol`, `SessionInvariant`, `SessionSafety`,
`SessionSteps`, `SessionFinality` and `CloseStamps` treat the database as a transition system: any
number of pods open transactions, lock rows, keep their writes private until they commit, and
interleave statement by statement with heartbeats, reapers and closers. The invariant is proved for
every statement, so the theorems about it hold after every possible run. `SessionSteps` says of each
statement which row it changes and to what. `RunLifecycle` and `HoldTable` are the two
services as classes whose methods are proved against the tables they leave behind. `LegacyRunDedupe`
is the migration that establishes uniqueness on old rows. `ResumeProtocol` and `ResumeSettlement`
follow execute and resume through their separate transactions.

**The agent loop.** `Conversation` says which message sequences a provider accepts, `BatchResume`
answers a batch of pending calls, `InterruptResponses` turns client resume entries into responses,
`ToolLoop` is the budgeted loop with nested subagents, and `AgentSession` strings a fresh segment and
any number of resumes together. The model and the tools are arbitrary functions. `TurnLaws` and
`ResumeLaws` say by position what each prompt holds, what a pause stores and where a client's answer
ends up.

**Discovery and the catalog.** `WorkspaceWalk`, `Discovery`, `FairAllocation`, `CatalogRendering` with
`CatalogLaws`, and `EagerContext`.

**Rewriting and reassembly.** `RunBinding` and `RunBindingLaws`, `StreamAssembly`, `ToolResultDedupe`.

## What turned out not to hold

Six promises fail for some inputs. For each the model keeps the code as it is, exhibits the failure
and proves exactly when the promise holds.

- Closing a session reads the clock once to reap stale runs and again to look for live ones. A run
  whose heartbeat falls between the two cutoffs is neither reaped nor seen, so its session can be
  closed while it is unfinished (`SessionSafety.TwoClockReadingsCloseOverALiveRun`). A close leaves a
  run unfinished exactly when the run was in that gap at the judgement and nobody finished it before
  the close committed (`SessionFinality.ClosesOverExactlyTheOverlooked`). When every finalizer's two
  readings agree, every scope it closed is quiet for good (`SessionFinality.OneReadingClosesQuietly`).
- An execution's `closed_at` can be written twice: of two close requests that both wait for it to fall
  quiet, the second does not look at the column again (`CloseStamps.SecondFinalizerRestamps`). A
  committed timestamp changes exactly when a transaction commits whose closing statement met a row
  that was closed already (`CloseStamps.RestampedExactly`); with a recheck each is written once
  (`CloseStamps.RecheckedStampsStand`). Close requests and threads are written once as the code stands.
- An execution that awaits a response can lose its last resumable hold. The only step that can do it
  is the unconditional restore of the execution row, exactly when no awaiting hold is left
  (`ResumeProtocol.PromiseBreaksExactlyAtRestore`). Two provisos rule it out: no close discards a
  claimed hold, and a worker settles only while its own run is unfinished. Neither can be dropped:
  for each there is a run that respects the other and breaks the promise.
- `refresh_segment_run_binding` says it leaves the block exactly once. When erasing the old blocks
  leaves the insertion point inside a UI contract that only then becomes well formed, the new block
  is invisible to the parser and the next refresh adds another. That is the only exception
  (`RunBindingLaws.ExactlyOneBlockIff`, `RunBindingLaws.IdempotentIff`).
- Streamed calls come back intact exactly when each start is visible: both neighbours named, or both
  carrying different ids (`StreamAssembly.ReassemblyIff`). Otherwise calls merge
  (`StreamAssembly.TwoCallsCanMerge`).
- The allocator's comment says surplus is redistributed until the budget or the demand runs out. It
  stops earlier: of a budget of three, two demands of five get one unit each
  (`FairAllocation.SomethingCanBeLeftOver`). While somebody is unsatisfied the budget is spent exactly
  when some level pours out just that much (`FairAllocation.SpentIffALevelFits`).

## Model

| member | source | states |
|---|---|---|
| SessionInvariant.StepKeeps | src/app/services/run_lifecycle.py:296-406 | every statement of every pod, commit and rollback keeps the whole invariant: disjoint row locks, uniqueness of live runs, soundness of all uncommitted writes |
| SessionInvariant.RunKeeps | src/app/services/run_lifecycle.py:296-406 | the invariant holds after any possible interleaving of any length |
| SessionInvariant.BystanderKeeps | src/app/services/run_lifecycle.py:296-332 | another pod's commit never invalidates what a transaction has already checked under its locks |
| SessionInvariant.CommitKeeps | src/app/services/run_lifecycle.py:381-406 | publishing one transaction's writes preserves uniqueness and every other transaction's soundness |
| SessionInvariant.CommitKeepsUnique | src/app/services/run_lifecycle.py:308-332 | a commit cannot put two live runs on one execution or one thread |
| SessionSafety.InitSound | src/app/services/run_lifecycle.py:296-406 | unique, well-dated rows and no open transaction are a start from which the invariant holds |
| SessionSafety.AtMostOneLiveRun | src/app/services/run_lifecycle.py:334-406 | in every reachable state no two unfinished active or closing runs share an execution or a thread |
| SessionSafety.UniqueIndexNeverFires | src/app/services/run_lifecycle.py:381-406 | after a clean conflict check the insert conflicts with no committed or uncommitted live run, so the unique indexes never refuse it |
| SessionSafety.RivalInsertsElsewhere | src/app/services/run_lifecycle.py:334-380 | while one pod holds a checked claim, a rival's uncommitted insert is outside that claim |
| SessionSafety.CloseIsABarrier | src/app/services/run_lifecycle.py:94-105 | once a scope is asked to close or closed, it stays so, gains no run and its set of live runs only shrinks, provided a locked read shows the row as it is under the lock |
| SessionSafety.CloseTimestampsStand | src/app/services/run_lifecycle.py:162-227 | close requests and thread closes are written once, an execution's close is never cleared, and a closed thread was asked to close first |
| CloseStamps.RestampedExactly | src/app/services/session_close_service.py:598-624 | a step rewrites an execution's close timestamp exactly when it commits a closing statement that ran, at the new time, on a row already closed |
| CloseStamps.RecheckedStampsStand | src/app/services/session_close_service.py:656-658 | if every closing statement meets an open row, each execution's close timestamp is written once |
| CloseStamps.SecondFinalizerRestamps | src/app/services/session_close_service.py:450-505 | two waiting close requests write two different timestamps |
| CloseStamps.StampRun | src/app/services/session_close_service.py:586-690 | over any run, an open transaction would publish exactly the time of its latest closing statement |
| SessionSafety.StepForward | src/app/services/run_lifecycle.py:162-227 | no step of any pod moves a row backwards: finished runs stay as they are, flags are never unset |
| SessionSafety.RunForward | src/app/services/run_lifecycle.py:162-227 | the same over any run |
| SessionSafety.FinishedRunIsFrozen | src/app/services/run_lifecycle.py:423-479 | a run finishes at most once: its finished row is identical in every later state |
| SessionSafety.JudgementIsExact | src/app/services/session_close_service.py:507-584 | the unfinished runs a finalizer overlooks are exactly those whose heartbeat lies between its reaping cutoff and its live cutoff; with one cutoff there are none |
| SessionSafety.ClosesOnlyWhenQuiet | src/app/services/session_close_service.py:586-690 | from the judgement to the commit of the close, heartbeats and other pods notwithstanding, the scope has no unfinished run outside the gap, and none at all if the cutoffs agree |
| SessionSafety.ClosedStaysQuiet | src/app/services/session_close_service.py:586-690 | after a close whose two cutoffs agree commits, every run of the scope is finished in every later state |
| SessionFinality.OneReadingClosesQuietly | src/app/services/session_close_service.py:477-505 | if every finalizer of a run judges by the cutoff it reaped by, every finalized scope, every thread closed in the run and every execution closed other than as a member has only finished runs at its end |
| SessionFinality.FinalizedIsQuiet | src/app/services/session_close_service.py:586-690 | the same for any one scope, from any sound state |
| SessionFinality.ClosedThreadWasFinalized | src/app/services/session_close_service.py:637-690 | a thread found closed was closed by a finalizer of that very thread |
| SessionFinality.ClosedExecutionWasFinalized | src/app/services/session_close_service.py:598-658 | an execution found closed was finalized itself or closed as a member of a thread |
| SessionFinality.ClosesOverExactlyTheOverlooked | src/app/services/session_close_service.py:477-505 | a close leaves a run unfinished exactly when its heartbeat lay between the two cutoffs at the judgement and nobody finished it before the commit |
| SessionSafety.TwoClockReadingsCloseOverALiveRun | src/app/services/session_close_service.py:828-865 | a reachable state in which an execution is closed over an unfinished run |
| SessionSafety.ReapingStatement | src/app/services/run_lifecycle.py:423-450 | only the two conditional reaping updates finish a run inside a transaction, and only below their cutoff |
| SessionSafety.ReapedMeansStale | src/app/services/run_lifecycle.py:531-558 | a reaped run was older than the staleness bound at that very update |
| SessionSafety.FreshStepLeavesUnreaped | src/app/services/run_lifecycle.py:618-638 | no step of anybody else finishes a run whose heartbeat is within both bounds |
| SessionSafety.FreshRunIsNeverReaped | src/app/services/run_lifecycle.py:531-558 | a run whose heartbeat is within both bounds in every state stays live until its own finish |
| SessionSteps.BeatingRunIsNeverReaped | src/app/services/run_lifecycle.py:408-421 | read off the actions alone: when the clock never gets further past the run's last heartbeat than both bounds, the run stays live through any interleaving until its own finish |
| SessionSteps.HeartbeatMovesItsRun | src/app/services/run_lifecycle.py:408-421 | a heartbeat gives a live run the new time and changes nothing else, and a run that is not live stands |
| SessionSteps.HeartbeatAdvances | src/app/services/run_lifecycle.py:408-421 | no step sets a run's heartbeat back, and its own heartbeat sets it to its time |
| SessionSteps.FinishRecordsStatus | src/app/services/run_lifecycle.py:423-450 | a finish gives an unfinished run its status and time; a finished one stands |
| SessionSteps.InsertAddsTheRun | src/app/services/run_lifecycle.py:381-406 | the insert adds one active run, started and beating now, and nothing else |
| SessionSteps.CloseRequestStamps | src/app/services/run_lifecycle.py:162-199 | a close request stamps a session without close columns and leaves any other as it is |
| SessionSteps.CloseMarksRuns | src/app/services/run_lifecycle.py:496-529 | exactly the active unfinished runs of the scope become closing, stamped; every other run stands |
| SessionSteps.ListingIsExact | src/app/services/run_lifecycle.py:618-638 | a finalizer lists exactly the live runs of its scope older than the bound |
| SessionSteps.ClaimReapsTheStale | src/app/services/run_lifecycle.py:365-379 | reaping for a claim fails the unfinished run below the cutoff and no other row |
| SessionSteps.CloseReapsTheStale | src/app/services/session_close_service.py:507-584 | reaping for a close does so by the cutoff the finalizer read first |
| SessionSteps.ThreadCloseWritesTheTime | src/app/services/run_lifecycle.py:201-213 | closing a thread writes its close time once and nothing else |
| SessionSteps.ExecutionCloseWritesTheTime | src/app/services/session_close_service.py:586-636 | closing an execution writes its close time, whatever was there, and nothing else |
| SessionSteps.CommitPublishes | src/app/services/run_lifecycle.py:381-406 | a commit puts the transaction's rows over the committed ones, row by row |
| RunLifecycle.RunLifecycleService.HeartbeatRun | src/app/services/run_lifecycle.py:408-421 | a live run gets the new heartbeat time, and every other row and field stands |
| RunLifecycle.RunLifecycleService.FinishRun | src/app/services/run_lifecycle.py:423-479 | finishes an unfinished run unless its heartbeat is too recent, and moves the parent execution as the status demands |
| RunLifecycle.RunLifecycleService.MarkStaleRunsFailed | src/app/services/run_lifecycle.py:531-558 | fails exactly the runs of the scope older than the cutoff, their parents with them, and counts them, although listing and update read the clock separately |
| RunLifecycle.RunLifecycleService.FailEach | src/app/services/run_lifecycle.py:531-558 | the loop over listed runs fails those still older than the cutoff, whatever the order |
| RunLifecycle.ReapedRowByRow | src/app/services/run_lifecycle.py:531-558 | reaping row by row: which runs become failed and finished, and which executions fail with them |
| RunLifecycle.RunLifecycleService.TryCreateActiveRun | src/app/services/run_lifecycle.py:334-406 | claims exactly when the row exists, the sessions are open and no rival is left after both staleness passes; otherwise says which of the three it was |
| RunLifecycle.RunLifecycleService.FinalizeExecutionIfReady | src/app/services/session_close_service.py:507-635 | closes the execution exactly when nothing live is seen and cleanup succeeded, and terminalizes its status |
| RunLifecycle.RunLifecycleService.FinalizeThreadIfReady | src/app/services/session_close_service.py:507-690 | closes the thread exactly when nothing live is seen, every member's cleanup completed and the runtime was deleted; the members closed are exactly the open ones whose own cleanup completed |
| RunLifecycle.RunLifecycleService.CloseMembers | src/app/services/session_close_service.py:638-658 | the member loop passes over failed cleanups, other origins and closed rows, and reports whether all completed |
| RunLifecycle.RunLifecycleService.CleanMembers | src/app/services/session_close_service.py:715-757 | for a thread closed before, reports whether every member's cleanup completed, changing nothing |
| RunLifecycle.RivalsAreTheFreshOnes | src/app/services/run_lifecycle.py:365-380 | what blocks a claim is exactly a live run of that execution or thread within the staleness bound |
| RunLifecycle.CrashedRunDoesNotBlock | src/app/services/run_lifecycle.py:365-380 | a run silent for longer than the bound does not block a claim |
| RunLifecycle.ClaimKeepsUnique | src/app/services/run_lifecycle.py:308-406 | a granted claim preserves uniqueness of live runs |
| RunLifecycle.QuietLeavesOnlyTheGap | src/app/services/session_close_service.py:828-865 | after reaping and an empty live query, the runs still live are exactly those between the two cutoffs |
| LegacyRunDedupe.Migration.DedupeGroup | alembic/versions/20250816_phase3_lifecycle_persistence.py:379-426 | of one crowded group the newest run survives and all others are terminalized |
| LegacyRunDedupe.Migration.DedupePass | alembic/versions/20250816_phase3_lifecycle_persistence.py:379-426 | after a pass at most one live run is left per key, and each loser lost to a newer run of its group |
| LegacyRunDedupe.Migration.DedupeActiveRuns | alembic/versions/20250816_phase3_lifecycle_persistence.py:379-426 | from arbitrary rows both passes establish uniqueness, changing only runs outranked by a newer one |
| LegacyRunDedupe.SecondPassKeepsTheFirst | alembic/versions/20250816_phase3_lifecycle_persistence.py:403-426 | the thread pass does not undo the execution pass |
| LegacyRunDedupe.MigrationLeavesAStart | alembic/versions/20250816_phase3_lifecycle_persistence.py:379-426 | what the migration leaves is a state the session protocol may start from, given past heartbeats and unfinished legacy runs being active or closing |
| LegacyRunDedupe.TerminalizedWereOutranked | alembic/versions/20250816_phase3_lifecycle_persistence.py:379-426 | every changed row had a newer rival among the original rows |
| LegacyRunDedupe.UnrivalledRunSurvives | alembic/versions/20250816_phase3_lifecycle_persistence.py:379-426 | a run without a live rival comes out unchanged |
| LegacyRunDedupe.NewestExists | alembic/versions/20250816_phase3_lifecycle_persistence.py:379-402 | a crowded group has a row that no other outranks |
| HoldTable.ExecutionStateService.TryClaimStateForResume | src/app/services/execution_state_service.py:312-325 | wins exactly on an awaiting hold and makes it pending |
| HoldTable.ExecutionStateService.CompleteClaimedState | src/app/services/execution_state_service.py:327-340 | completes exactly a pending hold |
| HoldTable.ExecutionStateService.RestoreClaimedState | src/app/services/execution_state_service.py:342-355 | returns exactly a pending hold to awaiting |
| HoldTable.ExecutionStateService.RecoverStalePendingClaims | src/app/services/execution_state_service.py:283-310 | gives back exactly the stale claims in scope, row by row, counts them, and leaves no stale claim behind; a timeout of zero or less changes nothing |
| HoldTable.RecoveredCanBeClaimed | src/app/services/execution_state_service.py:283-325 | the next claim on a recovered hold wins, and recovering again finds nothing |
| HoldTable.DiscardRowByRow | src/app/services/execution_state_service.py:385-503 | what each of the three discards does to a hold, row by row |
| HoldTable.ExecutionStateService.RollbackPartialResumeSettlement | src/app/services/execution_state_service.py:357-377 | restores the claim and discards the hold created by the same settlement |
| HoldTable.ExecutionStateService.DiscardHolds | src/app/services/execution_state_service.py:385-503 | discards exactly the targeted holds, row by row, leaves none behind, and fails exactly their awaiting parents |
| HoldTable.LedgerBalances | src/app/services/execution_state_service.py:283-503 | over any statement log, claims won equal completions, restores, recoveries and discards while pending, plus one if pending now |
| HoldTable.NewHoldBalances | src/app/services/execution_state_service.py:106-128 | the balance holds from the hold's creation on |
| HoldTable.SettledStaysSettled | src/app/services/execution_state_service.py:327-503 | completed and discarded are absorbing unless a rollback names that hold as its new one |
| HoldTable.TableIsItsRows | src/app/services/execution_state_service.py:283-503 | the table after any log is each row's own history, so the balance is per hold in every interleaving |
| ResumeProtocol.PromiseBreaksExactlyAtRestore | src/app/controllers/orchestrator_controller.py:434-450 | of all steps only the restore of the execution row can leave an awaiting execution without a resumable hold, exactly when none is left |
| ResumeProtocol.StepKeeps | src/app/controllers/orchestrator_controller.py:871-1120 | under the two provisos each transaction of each worker keeps the promise and each worker's grip on its claim |
| ResumeProtocol.RunKeeps | src/app/controllers/orchestrator_controller.py:693-1120 | the same over any orderly interleaving of execute, resume, rivals, recovery and crashes |
| ResumeProtocol.AwaitingAlwaysResumable | src/app/controllers/orchestrator_controller.py:693-1120 | in every orderly run an execution that awaits a response has an awaiting hold |
| ResumeProtocol.AbandoningAClaimBreaksThePromise | src/app/services/execution_state_service.py:473-503 | some run in which every worker settles only while its run is unfinished breaks the promise, so sparing claimed holds is needed |
| ResumeProtocol.SettlingAfterReapBreaksThePromise | src/app/controllers/orchestrator_controller.py:1036-1120 | some run in which nobody discards a claimed hold breaks the promise, so settling only while running is needed |
| ResumeProtocol.OrderlyIsBoth | src/app/controllers/orchestrator_controller.py:693-1120 | a run is orderly exactly when it respects both provisos throughout |
| ResumeProtocol.StatusesRecorded | src/app/controllers/orchestrator_controller.py:343-353 | which status each transaction leaves on its execution: running at a start, completed on success and at finalizing, awaiting on a pause and at the restore; every other execution stands |
| ResumeProtocol.FailuresRecorded | src/app/services/execution_state_service.py:385-503 | a reap fails the execution of its run unless completed, a discard fails exactly the awaiting parents |
| ResumeProtocol.HoldsRecorded | src/app/services/execution_state_service.py:312-377 | which hold each transaction moves and where; every other hold stands |
| ResumeProtocol.SweptHoldsRecorded | src/app/services/execution_state_service.py:283-503 | recovery and discards move exactly the holds they name |
| ResumeSettlement.SettleResume | src/app/controllers/orchestrator_controller.py:963-1120 | success on a pending claim leaves claim, run and execution completed; an awaiting outcome completes the claim and saves one new awaiting hold; a failure gives a pending claim back; a cancellation changes nothing |
| ResumeSettlement.SettlementKeepsPromise | src/app/controllers/orchestrator_controller.py:398-450 | settling a claimed hold, whatever the outcome, leaves an awaiting execution resumable |
| Conversation.PairedMeans | src/app/services/tool_hub.py:646-795 | in a paired conversation each tool call of each assistant message has exactly one result, after it and before the next assistant message |
| Conversation.OpenMeans | src/app/services/tool_hub.py:646-795 | mid-conversation, a call is still open exactly when it belongs to the last turn and has no result yet |
| Conversation.CleanAfterResult | src/app/services/tool_hub.py:755-795 | appending the result of an open call closes that call and no other |
| Conversation.CleanAfterAssistant | src/app/services/tool_hub.py:646-650 | an assistant turn with fresh ids opens exactly its calls |
| BatchResume.ApplyResponses | src/app/services/tool_hub.py:260-335 | the loop over the dictionary with its two spellings per call: the messages grow by one result per named call, with that call's name and the content of the first response naming it, in the order of these responses, and exactly the unnamed calls stay pending |
| BatchResume.ResponsesLand | src/app/services/tool_hub.py:273-325 | the same of answering call by call: where each response lands, with what name and content, and what stays pending |
| BatchResume.AnswerConserves | src/app/services/tool_hub.py:273-325 | one response removes at most the call it names, appends one result under its id, and leaves the rest pending |
| BatchResume.ResponsesConserve | src/app/services/tool_hub.py:260-335 | for any response list, a pending call is answered once if named and otherwise still pending in its original order |
| BatchResume.SnapshotIsTransparent | src/app/services/tool_hub.py:863-869 | storing the enriched batch between two resumes changes neither messages nor what is pending |
| BatchResume.EnrichKeeps | src/app/services/tool_hub.py:863-869 | the stored batch has the same calls and stays answerable under either spelling |
| InterruptResponses.CallOfInterrupt | src/app/services/agui_interrupt.py:243-264 | on a batch of the loop, every id of the interrupt map leads to its own call |
| InterruptResponses.Normalize | src/app/services/agui_interrupt.py:267-296 | turns resume entries into responses in order, dropping those that name nothing, and adds the older single response unless an entry answers its call |
| InterruptResponses.NamedCallsAnsweredOnce | src/app/services/agui_interrupt.py:267-296 | however often a client names a pending call it gets one result; a call nobody names stays pending |
| InterruptResponses.AnsweringEveryInterruptSettles | src/app/services/agui_interrupt.py:51-98 | answering every interrupt shown, in any order, leaves nothing pending |
| ResumeLaws.RespondedInOrder | src/app/services/agui_interrupt.py:276-288 | each entry that speaks for a call becomes one response to it, in order, with its own content |
| ResumeLaws.ResponseComesFrom | src/app/services/agui_interrupt.py:276-288 | and every such response comes from an entry |
| ResumeLaws.ClientAnswersLand | src/app/services/agui_interrupt.py:267-296 | for each pending call the first entry that speaks for it becomes the content of that call's own tool message, whatever else is sent |
| ResumeLaws.SingleAnswerLands | src/app/services/agui_interrupt.py:290-296 | the older single response lands likewise for a call that no entry speaks for |
| ResumeLaws.ResumeByCases | src/app/services/tool_hub.py:239-357 | nothing pending enters the loop as it is, pending calls without a response fail, otherwise the responses land and the loop is entered exactly when every pending call was named; else the snapshot pauses again with exactly the unnamed calls |
| ToolLoop.RunLoop | src/app/services/tool_hub.py:557-813 | the loop's turns form a chain whose prompts and ending `TurnLaws` spells out, and the budget of model and tool calls is kept, subagents included |
| TurnLaws.SegmentTurnByTurn | src/app/services/tool_hub.py:557-795 | the first prompt is the start, each later one is the prompt before it, its reply, then one message per call in call order with the call's id and name and the rendered output; the calls run in the order of the reply, numbered on |
| TurnLaws.EndingByCases | src/app/services/tool_hub.py:646-813 | what a segment returns by what happened in its last turn, and for a pause the stored conversation, counters and waiting calls by position |
| TurnLaws.FaithfulMeans | src/app/services/tool_hub.py:1478-1505 | a call is faithful exactly when its record is what its tool's outcome calls for; a delegation is refused for the first reason that applies |
| TurnLaws.PauseStores | src/app/services/tool_hub.py:840-909 | the snapshot of a pause: results in place, counters, and each waiting call with its name and arguments |
| ToolLoop.RunBatch | src/app/services/tool_hub.py:688-753 | runs the requested calls in order, stopping only at a crash or the budget |
| ToolLoop.SettleTurn | src/app/services/tool_hub.py:651-795 | ends the segment exactly when the turn failed, answered, overran the budget or has calls waiting; otherwise appends all results |
| ToolLoop.ExecuteToolCall | src/app/services/tool_hub.py:911-1131 | one call becomes a result, a wait or a failure as its tool says; delegation is refused exactly when disabled, empty or too deep |
| ToolLoop.RunSubagent | src/app/services/tool_hub.py:1478-1568 | a child runs its own well-formed loop within the cost of one tree node |
| ToolLoop.TurnLeaves | src/app/services/tool_hub.py:755-795 | after a turn the conversation waits for exactly the turn's pending calls |
| ToolLoop.PromptReady | src/app/services/tool_hub.py:557-795 | with fresh ids every prompt of a segment is a well-formed conversation with nothing open |
| ToolLoop.ChainStaysPaired | src/app/services/tool_hub.py:557-795 | hence every model call of a segment sees each earlier call paired with its result |
| ToolLoop.SumByFactoring | src/app/services/tool_hub.py:1478-1540 | the cost of a tree of depth D is one node plus S trees of depth D - 1 |
| AgentSession.CountersSurviveTheSnapshot | src/app/services/tool_call_counters.py:16-32 | a resume starts its segment at zero and carries the cumulative count on, through old snapshots too |
| AgentSession.EnterResumed | src/app/services/tool_hub.py:239-357 | a resume enters the loop, pauses again or fails as the answered batch decides, without a model call |
| AgentSession.ProcessRequest | src/app/services/tool_hub.py:365-813 | a fresh request runs a chain from its start messages at a tree cost of at most M(1+S+...+S^D) |
| AgentSession.ResumeRequest | src/app/services/tool_hub.py:239-357 | a resume continues the conversation the batch left, counts on from the snapshot, and stays within the same bound |
| AgentSession.TreeCost | src/app/services/tool_hub.py:1478-1568 | M own calls and their subagents cost at most M(1+S+...+S^D) |
| AgentSession.PauseIsResumable | src/app/services/tool_hub.py:840-909 | a pause stores a conversation waiting for exactly its pending calls, with the cumulative count |
| AgentSession.AnswersClose | src/app/services/tool_hub.py:273-325 | each response closes the call it answers and no other |
| AgentSession.ResumeKeepsOrder | src/app/services/tool_hub.py:239-357 | a partial resume stores a resumable snapshot again; a complete one starts the loop in good order |
| AgentSession.TwoDeliveries | src/app/services/tool_hub.py:239-357 | resuming from the snapshot a partial resume stored ends as one resume with both lists of responses |
| AgentSession.DeliveriesAddUp | src/app/services/tool_hub.py:239-357 | responses delivered over any number of resumes, through their stored snapshots, end as delivered all at once |
| AgentSession.EmptyDeliveryFails | src/app/services/tool_hub.py:358-359 | a resume without responses on a stored batch is refused |
| AgentSession.RunSession | src/app/services/tool_hub.py:181-838 | across any number of pauses and partial resumes every model call is well formed and the cumulative counter is the sum over all segments |
| WorkspaceWalk.Walk | src/app/services/harness/base.py:523-567 | the stack walk terminates, lists exactly the files below the root with safe components and no pruned directory on the way, in increasing order for a sorted scan, only direct ones without recursion, and holds at most depth times width entries |
| WorkspaceWalk.Frontier | src/app/services/harness/base.py:554-567 | a directory's share of the stack stands for exactly its files, in order |
| WorkspaceWalk.FilesAreResolved | src/app/services/harness/base.py:529-567 | a path is listed exactly when a plain lookup leads to a file, all its components are safe names, none of its directories is pruned, and without recursion it has one component |
| WorkspaceWalk.WalkIncreases | src/app/services/harness/base.py:529-540 | the listing is strictly increasing in component order, so nothing comes twice |
| WorkspaceWalk.WalkIsSorted | src/app/services/harness/base.py:529-540 | it equals sorting the reachable files |
| WorkspaceWalk.IncreasingUnique | src/app/services/harness/base.py:529-540 | sorting has only one outcome |
| WorkspaceWalk.NameOrder | src/app/services/harness/base.py:529-540 | names compare by the first character that differs, a prefix first |
| WorkspaceWalk.PathOrder | src/app/services/harness/base.py:529-540 | paths compare by the first component that differs, a directory before what it holds |
| Discovery.DiscoveryContext.constructor | src/app/services/harness/base.py:672-686 | starts with exactly the listed paths seen and nothing capped |
| Discovery.DiscoveryContext.Consider | src/app/services/harness/base.py:730-774 | duplicate before ceiling before read before append, and for each outcome the whole new state |
| Discovery.ConsideredTransacts | src/app/services/harness/base.py:730-774 | the transaction outcome by outcome: the entry is appended to the list of its kind with scanned name and path, and nothing else changes |
| Discovery.DiscoveryContext.Discover | src/app/services/harness/base.py:874-903 | skipping a capped kind and stopping at the first overflow gives the state of considering every candidate |
| Discovery.DiscoveryContext.DiscoverPrimitives | src/app/services/harness/base.py:905-941 | the same for all capability roots, early returns included |
| Discovery.ConsiderAllKeeps | src/app/services/harness/base.py:663-774 | seen equals the listed paths, no path is listed twice across kinds, no bucket exceeds 200, each overflow is announced once |
| Discovery.NothingLostSilently | src/app/services/harness/base.py:730-774 | a candidate is listed, unreadable, or its kind's overflow was announced |
| Discovery.CappedKindIgnores | src/app/services/harness/base.py:704-728 | considering more of a capped kind changes nothing |
| Discovery.ListedAsScanned | src/app/services/harness/base.py:753-774 | every entry stands in the list of its kind under the name its file was scanned with |
| FairAllocation.Allocate | src/app/services/harness/registry.py:131-151 | gives every kind the smaller of its demand and the highest level whose total fits, which is affordable, envy-free and at least what any other such split gives to anybody |
| FairAllocation.RaiseAll | src/app/services/harness/registry.py:143-150 | one round lifts every unsatisfied kind by the share, spends it, and makes progress |
| FairAllocation.PourIsEnvyFree | src/app/services/harness/registry.py:131-137 | in the split itself nobody who went short has less than anybody else |
| FairAllocation.NoFairSplitIsBetter | src/app/services/harness/registry.py:131-137 | no affordable split in which the unsatisfied envy nobody gives anyone more |
| FairAllocation.LevelMonotone | src/app/services/harness/registry.py:131-151 | a larger budget takes nothing from anybody |
| FairAllocation.LevelIsDetermined | src/app/services/harness/registry.py:131-151 | demands and budget determine the split |
| FairAllocation.OrderDoesNotMatter | src/app/services/harness/registry.py:131-137 | permuting the kinds permutes the shares |
| FairAllocation.SatisfiedIffItFits | src/app/services/harness/registry.py:131-151 | everybody is satisfied exactly when the total demand fits |
| FairAllocation.LeftoverIsSmall | src/app/services/harness/registry.py:139-142 | less is left over than there are unsatisfied kinds |
| FairAllocation.SpentIffALevelFits | src/app/services/harness/registry.py:131-151 | while somebody is unsatisfied the budget is spent exactly when some level pours out just that much |
| FairAllocation.SomethingCanBeLeftOver | src/app/services/harness/registry.py:139-142 | demands of five and five under a budget of three leave one unit |
| CatalogRendering.RenderCatalog | src/app/services/harness/registry.py:154-215 | the text and the omission counts are those of a fair split of what the header leaves |
| CatalogRendering.Fill | src/app/services/harness/registry.py:120-128 | keeps a prefix of the lines |
| CatalogRendering.FillIsMaximal | src/app/services/harness/registry.py:120-128 | the prefix fits and one line more would not |
| CatalogRendering.SectionWithinShare | src/app/services/harness/registry.py:196-212 | heading, entries, notice and blank line stay within the section's share |
| CatalogRendering.TextWithinBudget | src/app/services/harness/registry.py:154-215 | the whole text never exceeds the budget, for fewer than a billion entries a kind |
| CatalogRendering.ShownPlusOmitted | src/app/services/harness/registry.py:196-215 | shown plus omitted is visible, for every kind |
| CatalogRendering.CutOnlyWhenFull | src/app/services/harness/registry.py:196-204 | a section is cut only if its entries do not fit, and then one more would leave no room for the notice |
| CatalogRendering.EverythingShownWhenItFits | src/app/services/harness/registry.py:154-215 | nothing is omitted when the whole demand fits |
| CatalogLaws.VisibleInOrder | src/app/services/harness/registry.py:95-105 | the entries listed are exactly those not in the prompt already and not left to the user, commands apart, in their order |
| CatalogLaws.LineSays | src/app/services/harness/registry.py:108-111 | a line begins with name and path, shows the scope next and ends with the description |
| CatalogLaws.SectionHolds | src/app/services/harness/registry.py:204-212 | a section is its heading, its first entries, a notice if some are missing, and a blank line |
| CatalogLaws.NoticeAnnounces | src/app/services/harness/registry.py:209-210 | the notice says in decimal how many entries are missing |
| CatalogLaws.DemandIsFullCost | src/app/services/harness/registry.py:175-179 | a section asks for what showing all its entries costs |
| CatalogLaws.EntryInPlace | src/app/services/harness/registry.py:194-211 | in the whole catalog each entry its section has room for has its line, in its place under that section's heading |
| CatalogLaws.TextHolds | src/app/services/harness/registry.py:183-215 | the text is the header, a blank line and the lines, but for white space around them |
| EagerContext.Assemble | src/app/services/harness/base.py:821-872 | fails exactly when root instructions exceed the budget, and otherwise emits a text within it |
| EagerContext.WholeOrOmitted | src/app/services/harness/base.py:829-838 | mandatory blocks come first, every optional block is whole or reported as omitted |
| EagerContext.AllThere | src/app/services/harness/base.py:853-872 | with nothing omitted all blocks are there, in order |
| EagerContext.BlockHolds | src/app/services/harness/base.py:845-846 | a block is its heading, a blank line and the whole body, but for white space at the end |
| EagerContext.BlocksInOrder | src/app/services/harness/base.py:842-847 | each root instruction with a body has its block, in order, and there is no other |
| EagerContext.TakenIffItFits | src/app/services/harness/base.py:857-865 | an optional entry is taken whole exactly when the text with it still fits, and is reported otherwise; both stay |
| RunBinding.Parse | src/app/services/binding_runtime.py:131-168 | accepts exactly content whose markers outside the contract alternate start, end, and pairs them |
| RunBinding.Erase | src/app/services/binding_runtime.py:180-183 | erasing from the back removes exactly the covered positions |
| RunBinding.ApplyRunBinding | src/app/services/binding_runtime.py:171-189 | rejects malformed content and otherwise writes the block at the seam |
| RunBinding.SpanOfContract | src/app/services/binding_runtime.py:45-62 | the opaque span is found exactly around a contract without further delimiters |
| RunBindingLaws.OnlySpaceAtTheSeam | src/app/services/binding_runtime.py:184-189 | outside the blocks only white space next to the seam changes |
| RunBindingLaws.BlockOnItsOwnLine | src/app/services/binding_runtime.py:172-189 | the block starts and ends on a line of its own, and what is added next to it is a blank line |
| RunBindingLaws.ErasedIsQuiet | src/app/services/binding_runtime.py:131-183 | erasing leaves no marker the parser would look at, whatever happened to the contract |
| RunBindingLaws.ContractStaysVerbatim | src/app/services/binding_runtime.py:45-70 | a contract no block runs over is kept word for word, markers inside it included |
| RunBindingLaws.SeamAvoidsOldContract | src/app/services/binding_runtime.py:171-189 | content that already has a contract never triggers the exception below |
| RunBindingLaws.ExactlyOneBlockIff | src/app/services/binding_runtime.py:192-196 | one block outside the contract afterwards, except exactly when the seam falls inside a contract of the erased content |
| RunBindingLaws.LastRewriteWins | src/app/services/binding_runtime.py:192-214 | away from that exception, a second refresh gives what it would have given without the first |
| RunBindingLaws.IdempotentIff | src/app/services/binding_runtime.py:171-189 | repeating a refresh changes nothing, with the same single exception |
| RunBindingLaws.RewriteCanBeSwallowed | src/app/services/binding_runtime.py:171-189 | the exception occurs |
| RunBindingLaws.RefreshSegment | src/app/services/binding_runtime.py:192-214 | changes only the first system message, adds one when there is none, fails exactly when it is malformed |
| RunBindingLaws.RefreshesReplaceEachOther | src/app/services/binding_runtime.py:192-214 | away from that exception in the first system message, consecutive segments do not accumulate blocks |
| StreamAssembly.Assemble | src/app/services/mcp_agent_service.py:640-658 | the accumulation loop is a left fold of the fragments |
| StreamAssembly.ReassemblyIff | src/app/services/mcp_agent_service.py:564-595 | streamed calls come back identical exactly when each start is visible |
| StreamAssembly.NamedCallsComeBack | src/app/services/mcp_agent_service.py:564-595 | named calls come back with the same ids, names and arguments however they were cut |
| StreamAssembly.WholeFragmentsStream | src/app/services/mcp_agent_service.py:575-580 | one whole fragment per call is one of the covered styles |
| StreamAssembly.HiddenStartLosesACall | src/app/services/mcp_agent_service.py:564-595 | if some start is hidden, fewer calls come back |
| StreamAssembly.TwoCallsCanMerge | src/app/services/mcp_agent_service.py:582-595 | two streamed calls of which one comes back |
| StreamAssembly.FoldConserves | src/app/services/mcp_agent_service.py:640-658 | for every stream all names and arguments arrive, in order |
| ToolResultDedupe.Dedupe | src/app/services/agui_messages.py:149-200 | the index and fill loops compute the first message of each id with its merged content, and the repeated ids |
| ToolResultDedupe.KeptInPlace | src/app/services/agui_messages.py:149-164 | every kept message stands in its original relative position |
| ToolResultDedupe.OnlyKept | src/app/services/agui_messages.py:199-200 | and nothing else is in the result |
| ToolResultDedupe.DroppedIff | src/app/services/agui_messages.py:169-181 | a message is dropped exactly when it is a tool message with a non-blank id that an earlier tool message has |
| ToolResultDedupe.RepeatedIdsMean | src/app/services/agui_messages.py:176-179 | the reported ids are exactly the repeated ones, each once |
| ToolResultDedupe.OneMessagePerId | src/app/services/agui_messages.py:149-164 | each non-blank id is left exactly once |
| ToolResultDedupe.MergedSays | src/app/services/agui_messages.py:139-146 | a kept message says something exactly when one of its copies did, and only its content can change |
| ToolResultDedupe.MergedTakesEarliest | src/app/services/agui_messages.py:187-197 | and it says what the earliest such copy said |
| ToolResultDedupe.DedupeIsIdempotent | src/app/services/agui_messages.py:149-200 | a second pass finds nothing to do |

## Left out

- SQLAlchemy and Postgres: conditional updates are atomic, row locks last until commit, the clock is shared and monotone. Unit-of-work write-back is not modelled, except that an execution's `closed_at` is written without a guard. Deadlock freedom is not claimed.
- SessionSafety.CloseIsABarrier: assumes that a locked read shows the row as it stands under the lock. `execute` loads the execution before it claims a run in the same session, and whether the locked read then refreshes those attributes is up to SQLAlchemy.
- The session protocol leaves out the execution status column, which only removes locks and so admits more interleavings; `RunLifecycle` and `ResumeProtocol` have it.
- In the session protocol heartbeats and a worker's own finish are one statement each, claim-path reaping may use any cutoff up to the code's, and closing a member execution has no guard; all three admit more behaviour than the code.
- SessionSafety.ClosesOnlyWhenQuiet: does not mention cleanup, which in the session protocol may come out either way; the finalizers of `RunLifecycle` do, with the outcomes of deleting paths as parameters.
- SessionFinality.OneReadingClosesQuietly: leaves out executions closed as members of a thread, whose finalizer looks at the thread's runs and not at the member's.
- The polling of a close request, its timeouts, the pod-local cancellation registry and the cleanup details of `_wait_and_finalize`.
- LegacyRunDedupe.Migration.DedupeActiveRuns: assumes that an unfinished legacy row is active or closing, which is what the backfills before it write.
- The execution status PENDING is called `NotStarted`, to keep it apart from a pending hold. Statements of `rollback_partial_resume_settlement` inside the orchestrator are undone with their session when the HTTP error leaves it, and are modelled that way.
- `resumeRun` of the agent controller and the AG-UI stream settlement, which stay outside the claim protocol or lean on stale recovery.
- Hook-permission pauses and context compaction: both break the pairing of calls and results, and the loop is modelled without them. Multimodal attachments, cancellation, token counts and usage are left out with them.
- AgentSession.RunSession: pairing is stated for providers that give each reply fresh, distinct, non-empty call ids and for well-formed initial messages.
- Tool arguments are passed on as text; parsing them and falling back to an empty object is part of the tool function. Tool results are rendered by an arbitrary function standing for serialization and offloading.
- BatchResume.ApplyResponses: equals the specification on batches as the loop builds them, with distinct non-empty ids and each interrupt named after its call.
- InterruptResponses.Normalize: leaves out interrupts nested inside a pending entry, which only hook permissions carry.
- WorkspaceWalk: the workspace is a finite tree of uniquely named entries already sorted by the scan; symbolic links and special files are one kind of entry that is never followed. The note counting skipped links is left out, because early exit does change it.
- Discovery: candidates are arbitrary lists of paths, so file-name patterns and front matter do not matter; scanning is an arbitrary function.
- CatalogRendering.TextWithinBudget: needs fewer than 10^9 entries per kind, since the room reserved for a notice holds nine digits.
- CatalogRendering: four sections are always passed to the allocator, empty ones with demand zero, where the code leaves those out of the dictionary.
- RunBinding: content is a sequence of tokens. Markers that only form when pieces of text are joined, delimiters that overlap, and stripping the line break at the end of the opening contract delimiter are not captured. A list of content parts is taken as already joined.
- RunBindingLaws.ExactlyOneBlockIff: takes the rendered prompt to be one marker pair around text without markers or delimiters, as the two templates are.
- StreamAssembly.NamedCallsComeBack: a call's name arrives in its first fragment; for a provider that streams names in pieces only `StreamAssembly.FoldConserves` is claimed.
- HTTP handlers, event streams, pydantic shapes, configuration parsing, logging, the TypeScript demo, path and shell policy, storage backends and git provisioning: plumbing without a state machine of its own.
