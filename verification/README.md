# A verified model of the debug agent's runtime

The debug agent runs a language model in a loop with tools and keeps every conversation twice: in the process, where old
history may be blanked or replaced by a summary to fit the context window, and in SQLite, where it is an append-only log of
closed message groups under a re-orderable projection. Sessions and runs are rows that several processes create, own, end,
fail, resume and roll back. This project models that machinery in Dafny and proves what it guarantees, for every input, every
adapter, every interleaving and every run of operations.

| files | what they model |
|---|---|
| `QueryControl`, `ContextManager`, `EvictionLaws`, `ModelContext` | model-call groups, the protected suffix, omission, compression planning, history replacement, token estimates |
| `Retry`, `RetryLaws` | retry rules and the retry loop around a model call |
| `ConversationLog`, `ConversationStore`, `ConversationLaws` | the durable log, its projection, fact cuts, the append transaction |
| `RecoveryConversation` | the conversation part of a terminal checkpoint and the conversation restored from it |
| `Lifecycle`, `LifecycleLaws`, `OwnershipLaws` | session, run, checkpoint, todo and event rows as a multi-process state machine |
| `StreamProtocol` | one threaded provider stream: producer, consumer, canceller |
| `ToolCallChunks`, `ProviderSegments`, `ProviderMessages` | reassembly of streamed calls, remapping of duplicate ids, merging of segments |
| `ToolLoopIds`, `TurnGroups` | tool-call ids of a turn and the closed group its tool loop becomes |
| `AdapterLoop`, `AdapterLaws` | the tool rounds of an adapter call with its stream fallback, and all adapter calls of a turn |
| `ReplConversation`, `ReplHistory` | the process conversation, and every conversation a process can come to hold |
| `ReplAlignment`, `SessionRecovery`, `ReplMirror` | the process conversation against the durable log over whole sessions |
| `ReplProjection`, `ReplDrift`, `ReplCases` | what omission, compression and interrupts do to the projection and to both kinds of index |
| `TurnNumbers`, `TurnReuse`, `ResumedSessions` | the turn number of a resumed process, when it is unused, and sessions resumed any number of times |
| `Wrappers`, `Sorting`, `Seqs`, `Decimal` | options and results, stable sorting, comprehensions, decimal printing |

Code that updates state is modelled as methods with loops, or as classes whose fields the methods update
(`ConversationStore`, `RuntimeDatabase`, `StreamCall`, `ReplRuntime`). Each such method is proved equal to a function of the
old state, and the properties are lemmas about those functions over whole runs. A transaction is one atomic step; where the
source writes several guarded statements with roll-backs, the method does too, and is proved to be that step. SHA-256 and
canonical JSON are free datatype constructors, that is, injective functions. JSON rendering and parsing of what is counted or reassembled are parameters.

`dafny verify dfyconfig.toml` checks everything.

## What the proofs found

Where a promise turned out not to hold of the code, the code is kept as it is, the failing input is a lemma, and another
lemma states exactly when the promise does hold.

- **Lifecycle.** That a workspace has at most one running session holds over every trace whatsoever
  (`OneRunningThroughout`). That a terminal session naming a checkpoint has a terminal run naming the same one, both in the
  checkpoint's status, fails if one of two writes comes late. The run's terminal UPDATE (`persistence/runs.py:234-275`) has no
  status guard, so a process that saw its run running may overwrite a run another process has since ended with a checkpoint;
  and a rollback of a failed resume does not look at either row count. `StepKeepsIff` and `TraceKeepsIff` show that these two
  are the only ways, and exactly when they happen; `LateFailureBreaks` and `LateRollbackBreaks` are complete interleavings from
  an empty database. A status guard in that UPDATE would remove the first (`GuardedRunWriteIsSafe`).
- **A half-failed session is stuck.** If a process dies between failing its run and failing its session
  (`DyingLeavesHalfFailed`), then over every interleaving no stale proof ever closes that session and its workspace takes no
  new one, until its own ending or a rollback of its resume, the only two steps that get it out (`HalfFailedStaysIff`,
  `HalfFailedForGood`).
- **A turn number can be used twice, and then the log is poisoned.** A resumed process counts turns from the rows its
  projection names (`runtime/orchestrator.py:3177-3202`). In a log of turns 1 to m the next number is unused exactly when one of
  those rows carries m in its turn id or its model call id (`NextTurnFreshIff`), which can be read off the projection before
  resuming. Otherwise the id of the next turn's user group is in the log; `append_closed_group` accepts it, no fact cut past it
  ever is accepted, and no terminal checkpoint of the run can be built again (`ResumedCheckpointIff`). Sessions whose turns all
  end meet the condition, whatever omissions they persist, handed back or lost (`FinishedTurnsResume`), and so does a turn that
  persists a compression and then writes nothing more, because the summary's row carries its number (`CompressedTurnResumes`).
  A turn that persists an omission, then fails to compress and writes no row but the user's
  (`runtime/prompt_executor.py:488-489`) does not (`NextTurnReused`, `AbortedTurnPoisons`), and a session in which the omission
  has something to blank is given (`OmissionThenReuse`). Two compressions of one turn cannot be the cause: without stored
  estimates a compression takes everything evictable, so a turn compresses at most once (`OneCompressionPerTurn`).
- **Resumes leave no trace in the log.** Where the condition holds, any alternation of sessions and resumes writes the log that
  one process would have written, every alignment check passes, no group id repeats, and each end can be checkpointed and
  resumed (`LivesAreOneSession`).
- **Retry after an executed tool.** The retry loop goes by reported results, and an adapter call may lose what it should
  report: a stream that turns out unsupported after a tool round starts the call over, dropping the results, and a broker that
  raises in the first round drops them too. Under the default rules a retry follows an executed tool exactly in these two cases
  (`RetryAfterToolIff`, `ToolRunsAgain`). A failed compression reports nothing either, but is not retried.
- **Repeated tool-call ids.** After such a fallback numbering starts over, and the turn's call ids are distinct exactly when no
  model call number and position was used in two phases (`TurnIdsDistinctIff`, `FallbackRepeatsId`). The group is accepted and
  pair-closed in any case, the rounds of a denied first round aside (`TurnLoopIsSound`).
- **Evictable groups.** After every answered turn of every run, omissions, compressions, failed turns and resumes included, the
  evictable groups are all closed groups but the last max(1, retain) (`AnsweredTurnEvicts`). After other turns the answer that
  counts is one before it (`UnansweredTurnEvicts`). A group counts as consumed when it begins exactly when an earlier message
  already marks its id, and that happens only to the raw ids of a turn denied approval in its first round
  (`BornConsumedInRuns`, `RawIdBornConsumedReached`).
- **Two durable indexes.** A process message carries one beside the message, handed out by place at each sync, and one in its
  metadata, which overwrites of the projection read. An omission leaves the protected suffix out and the turn's next append puts
  it behind everything kept. The next alignment check passes in any case; the compared indexes are the messages' own exactly
  when nothing followed the suffix (`ComparedIndexesIff`). The stored ones stay right as long as every turn hands its blanked
  history back (`SessionTracked`); a turn that persists an omission but is interrupted or exceeds the context limit does not,
  and then shifted indexes become stored ones (`LostOmissionIff`, `LostOmissionSpoils`).
- **Compression drifts.** An append names every left-out row again, so after a compressing turn the projection is longer than
  the process conversation, sync does nothing, and the next alignment check fails, whether the turn hands the compressed
  history back or not (`CompressionDrifts`, `CompressionApart`); after a manual compression it fails one turn later
  (`ManualCompressionDrifts`).
- **Interrupts.** After a turn that is interrupted the next alignment check passes exactly when the turn had by then written one
  row, the user's (`InterruptIff`).
- **Stored estimates are absent.** The compression budget counts stored estimates and the final check the estimator's own.
  When the stored ones cover the estimator's, `input_too_large` is unreachable (`CoveredHistoryFits`); the runtime stores none
  on conversation messages, and then it occurs exactly when all evictable messages together exceed budget and slack
  (`UncountedPlanning`), in histories as plain as two answered turns (`UncountedHistoryOverflows`). The slack under a previous
  summary is larger than intended because its estimate counts frame and instruction a second time.
- **A truncated answer can surface as completed**, exactly when it came from a repeated call (`TruncatedSurfaces`).
- **An empty registry means the default one** (`ControllerRules`), since the constructor tests it for truth.
- **Names differ between process and log.** An answer's group is `repl_turn_k_assistant` in the process and
  `turn-k:assistant` in the log, and a cancellation recorded by the executor stays a failure in the process; `Mirrors` says
  what does agree.

## Model

| member | source | states |
|---|---|---|
| QueryControl.OrderedIdsMeaning | src/debug_agent/runtime/query_control.py:113-146 | The derived group list names every model call of the history once, in strict order of start (ties by id), each with its own summary; nothing else is listed. |
| QueryControl.GroupOfMeaning | src/debug_agent/runtime/query_control.py:183-210 | A listed summary's start, status and consumption are what the raw messages say: closed exactly when nothing streams or is pending and every tool call has a terminal result; consumed exactly when some message names it. |
| QueryControl.DeriveModelCallGroups | src/debug_agent/runtime/query_control.py:113-146 | The grouping loops over dictionaries return that ordered list. |
| QueryControl.SuffixIds | src/debug_agent/runtime/query_control.py:148-180 | The set built from open, unconsumed and the last `retain` closed groups is the rank-based set: open, unconsumed, or fewer than `retain` closed groups after it. |
| QueryControl.ComputeNonEvictableRawSuffix | src/debug_agent/runtime/query_control.py:148-180 | The computed suffix holds exactly the protected groups, their messages' numbers, and the current turn's. |
| ContextManager.OmitOldToolResults | src/debug_agent/runtime/context_manager.py:55-114 | Retained history, snapshot, count and artifact references of one omission pass, message by message. |
| EvictionLaws.OnlyShapeMatters | src/debug_agent/runtime/query_control.py:113-210 | Groups, their starts, closedness, consumption, protection and evictability depend on nothing but sequence numbers, kinds, ids and marks: not on contents, references or durable indexes. |
| EvictionLaws.OmissionKeepsStructure | src/debug_agent/runtime/context_manager.py:55-114 | Omission keeps length, order and every field but content; it changes only tool results of evictable groups, to the marker, and moves no group in or out of protection. |
| EvictionLaws.OmissionIdempotent | src/debug_agent/runtime/context_manager.py:55-114 | A second pass changes nothing and counts zero omissions. |
| ContextManager.LatestSummaryMeaning | src/debug_agent/runtime/context_manager.py:247-253 | The previous summary is a context summary with the highest sequence number, and exists whenever any does. |
| ContextManager.SelectGroups | src/debug_agent/runtime/context_manager.py:164-181 | The greedy loop fails exactly when the oldest group alone is over budget, and otherwise takes the groups and messages of the specified prefix. |
| ContextManager.PrepareCompression | src/debug_agent/runtime/context_manager.py:116-204 | The planning method computes the specified plan or the specified one of its four errors. |
| EvictionLaws.PlanEvicts | src/debug_agent/runtime/context_manager.py:116-204 | A plan evicts exactly the messages of its selected groups, and every selected group is evictable. |
| EvictionLaws.LongestPrefix | src/debug_agent/runtime/context_manager.py:164-181 | Every non-empty prefix taken fits the budget, and one group more would not. |
| EvictionLaws.SelectionIsMaximal | src/debug_agent/runtime/context_manager.py:164-181 | With no negative group, j groups or more are taken exactly when the first j together fit the budget. |
| EvictionLaws.PlanFailures | src/debug_agent/runtime/context_manager.py:116-204 | Each of the four planning errors occurs exactly under its own condition, the input being too large exactly when the estimator's count of the evicted messages is over budget and slack. |
| ModelContext.StoredCoversEstimate | src/debug_agent/runtime/model_context.py:184-232 | If every stored estimate covers the estimator's own figure, so does the sum. |
| EvictionLaws.CoveredHistoryFits | src/debug_agent/runtime/context_manager.py:141-196 | Then the too-large error is unreachable and every plan leaves at least the frame's structural tokens of the window free. |
| EvictionLaws.UncountedPlanning | src/debug_agent/runtime/context_manager.py:116-204 | Without stored estimates and with a positive budget, planning fails exactly when nothing is evictable, or as too large exactly when all evictable messages together exceed budget and slack; else the plan takes every evictable group. |
| ReplHistory.LongGroupOverflows | src/debug_agent/runtime/context_manager.py:141-196 | For every prompt, window and reserve with a positive budget: once an answer follows a closed group holding a long enough message, planning fails as too large when at most one call is retained. |
| ReplHistory.UncountedHistoryOverflows | src/debug_agent/runtime/context_manager.py:141-196 | Two answered turns of the REPL whose first answer is long enough are such a history, with the real message text counted. |
| ContextManager.ReplaceCompressedHistory | src/debug_agent/runtime/prompt_executor.py:1807-1850 | The loop returns, in sequence order, the kept messages and one summary in the place of the earliest evicted one. |
| EvictionLaws.ReplacementContents | src/debug_agent/runtime/prompt_executor.py:1807-1850 | Exactly the evicted messages and the previous summary go, exactly one new summary comes, and sequence numbers stay strictly increasing. |
| EvictionLaws.SurvivingGroups | src/debug_agent/runtime/prompt_executor.py:1807-1850 | An unselected group keeps exactly its messages; a selected one is gone. |
| EvictionLaws.CompressionKeepsProtected | src/debug_agent/runtime/prompt_executor.py:1807-1850 | Every protected group keeps all its messages and is still protected when the set is recomputed; the evictable set strictly shrinks. |
| EvictionLaws.ChainEnds | src/debug_agent/runtime/prompt_executor.py:1807-1850 | Any chain of compressions, each with its own budget, is no longer than the number of groups evictable at its start, and protection holds throughout. |
| EvictionLaws.CompressionTakesAll | src/debug_agent/runtime/prompt_executor.py:1807-1850 | Without stored estimates one compression leaves nothing evictable. |
| ReplHistory.OneCompressionPerTurn | src/debug_agent/runtime/prompt_executor.py:1104-1237 | Of the optimizations of one turn at most one is a compression, whatever windows and prompts are tried. |
| ReplHistory.NoSecondManualCompression | src/debug_agent/runtime/prompt_executor.py:740-853 | A manual compression is not followed by another before the next turn. |
| Retry.RunAdapterWithRetry | src/debug_agent/runtime/prompt_executor.py:509-628 | The two nested loops with their switch of strategy compute the recursive specification of a run, for any valid registry and any adapter. |
| RetryLaws.ControllerRules | src/debug_agent/runtime/retry.py:74-78 | A controller exists exactly when all rules are valid; an empty registry, like none, means the default rules. |
| RetryLaws.RetriesEarned | src/debug_agent/runtime/retry.py:80-121 | Every call a run makes beyond its first was called for: the call before it has a key whose enabled rule applies to it, within that rule's attempts, and reported no tool results; or it continues a continuation that began so. |
| RetryLaws.RunIsBounded | src/debug_agent/runtime/prompt_executor.py:509-628 | Every run makes at most 1 + repeat budget + continuation budget calls, notes one attempt per further call, and returns the last result, an output-limit failure, or partial text followed by continuation text. |
| RetryLaws.AtMostFourCalls | src/debug_agent/runtime/retry.py:124-210 | Under the default registry a model call is made at most four times. |
| RetryLaws.FourCallsHappen | src/debug_agent/runtime/retry.py:124-210 | An adapter that needs all four. |
| RetryLaws.ToolEndsTheRun | src/debug_agent/runtime/prompt_executor.py:2596-2673 | No call follows one that reported tool results, for every adapter, exactly when no applicable continuation rule allows two attempts. |
| RetryLaws.TruncatedSurfaces | src/debug_agent/runtime/prompt_executor.py:560-591 | Under any valid registry, repeating output-limit rules included, a truncated answer comes back as completed exactly when the last call was a repeat of the original request that ended truncated. |
| RetryLaws.TruncatedRepeatReturned | src/debug_agent/runtime/prompt_executor.py:560-591 | An adapter for which the default rules return a truncated answer that ran tools. |
| ConversationStore.ConversationStore.AppendClosedGroup | src/debug_agent/persistence/conversation.py:114-204 | An append succeeds exactly when the group is acceptable and some attempt commits after at most three busy failures before the first insert; then exactly its rows and the extended projection are added, and otherwise nothing changes. |
| ConversationStore.ConversationStore.CommitGroup | src/debug_agent/persistence/conversation.py:129-204 | The retry loop commits exactly under that condition and else leaves rows and projection as they were. |
| ConversationStore.ConversationStore.TryAppend | src/debug_agent/persistence/conversation.py:133-190 | One transaction is all or nothing, wherever among its statements the database fails. |
| ConversationStore.ConversationStore.OverwriteProjection | src/debug_agent/persistence/conversation.py:305-343 | Accepted exactly when the reason is known and every reference is well formed and inside the log; replaces the projection and no row. |
| ConversationStore.ConversationStore.ValidateFactCut | src/debug_agent/persistence/conversation.py:237-266 | The cut check in the order of its errors. |
| ConversationStore.ValidateRows | src/debug_agent/persistence/conversation.py:404-439 | Row, group and pairing checks report the first error in the source's order. |
| ConversationStore.SelectRows | src/debug_agent/persistence/conversation.py:598-638 | Resolving references returns the rows or the first error. |
| ConversationStore.ConversationStore.ValidateProjectionSnapshot | src/debug_agent/persistence/conversation.py:268-290 | The snapshot check: references, content checksums, projection checksum. |
| ConversationStore.ConversationStore.ValidateAlignment | src/debug_agent/persistence/conversation.py:345-359 | Passes exactly on explicit resume or when the process holds exactly the projection's expansion in order. |
| ConversationLog.RowsForRefsMeaning | src/debug_agent/persistence/conversation.py:598-638 | References resolve exactly when all are well formed and inside the watermark, and then pick those rows in that order. |
| ConversationLaws.AppendKeepsLog | src/debug_agent/persistence/conversation.py:491-531 | An append keeps the log valid, and the new expansion is the old one followed by every index missing from it, ascending. |
| ConversationLaws.AppendCoversLog | src/debug_agent/persistence/conversation.py:491-531 | After an append the expansion has the old one as a prefix and covers exactly 1..n, without repeats if it had none. |
| ConversationLaws.OverwriteKeepsLog | src/debug_agent/persistence/conversation.py:305-343 | An overwrite is accepted exactly for resolvable references, keeps the log valid and touches no row. |
| ConversationLaws.RunKeepsLog | src/debug_agent/persistence/conversation.py:114-343 | Over any run of appends and overwrites the log only grows, and watermark, references and checksum of the projection always fit it. |
| ConversationLaws.RowsOfRun | src/debug_agent/persistence/conversation.py:114-204 | The log of any run is the concatenation of its accepted appends, whatever overwrites came between. |
| ConversationLaws.CutOfLog | src/debug_agent/persistence/conversation.py:237-266 | Over a valid log a cut depends only on whole groups and call/result pairing of its prefix; cuts past the end or negative fail. |
| ConversationLaws.CutAccepted | src/debug_agent/persistence/conversation.py:237-266 | A cut is accepted exactly when it is 0 or ends a group such that all groups up to it have distinct ids and their call and result keys match. |
| RecoveryConversation.FreshGroupsCutAtBoundaries | src/debug_agent/persistence/conversation.py:237-266 | With fresh group ids and pair-closed groups the accepted cuts are exactly 0 and the group boundaries. |
| RecoveryConversation.RepeatedIdPoisonsLog | src/debug_agent/persistence/conversation.py:404-423 | Once a group id was used twice, no cut past the second use is ever accepted. |
| RecoveryConversation.PoisonedLogHasNoCheckpoint | src/debug_agent/persistence/checkpoints.py:246-316 | After any run that used one group id twice no terminal manifest can be built. |
| RecoveryConversation.WhenManifestBuilds | src/debug_agent/persistence/checkpoints.py:246-316 | A terminal manifest builds exactly when the cut at the end of the log is accepted, or the log is empty and the reason allows that; it then holds that cut and the current projection. |
| RecoveryConversation.CutIsStable | src/debug_agent/persistence/conversation.py:237-266 | A cut's verdict and digest are the same in every longer log. |
| RecoveryConversation.SnapshotIsStable | src/debug_agent/persistence/conversation.py:268-290 | A valid snapshot stays valid in every longer log and restores the same messages. |
| RecoveryConversation.CheckpointStaysValid | src/debug_agent/persistence/checkpoints.py:451-483 | The conversation part of a checkpoint is valid when written and after any later appends and overwrites, and restoring from it then gives what it would have given at once. |
| RecoveryConversation.RestoreConversation | src/debug_agent/runtime/orchestrator.py:2520-2561 | Restoring succeeds exactly when the snapshot validates, and yields messages numbered 1..k with exactly the snapshot's indexes. |
| Lifecycle.RuntimeDatabase.TerminalizeWithCheckpoint | src/debug_agent/persistence/checkpoints.py:93-134 | The transaction with its guarded updates and row counts ends run and session together under the new checkpoint, or changes nothing. |
| Lifecycle.RuntimeDatabase.FailCloseStaleOwner | src/debug_agent/persistence/sessions.py:172-289 | The token-fenced close, statement by statement with its roll-backs, is the specified all-or-nothing step. |
| Lifecycle.RuntimeDatabase.ReviveSameLineage | src/debug_agent/runtime/orchestrator.py:2901-2928 | Restoring the todo plan, reviving the run and reviving the session is one step or none. |
| Lifecycle.RuntimeDatabase.RollbackFailedResume | src/debug_agent/runtime/orchestrator.py:2939-2981 | Each row is put back under its own guard, and the resume events go. |
| Lifecycle.RuntimeDatabase.DeleteResumeEvents | src/debug_agent/runtime/orchestrator.py:2984-3016 | Walking back from the newest entry deletes one matching event of each resume kind and keeps all others in order. |
| LifecycleLaws.StepKeepsIff | src/debug_agent/persistence/sessions.py:172-420 | Each step a process can take keeps the lifecycle invariant exactly when it is not an unguarded run write over a checkpointed session or a rollback whose plan no longer fits. |
| LifecycleLaws.OneRunningThroughout | src/debug_agent/persistence/settings.py:277-279 | Over every trace of any steps at all, overwriting ones included, each workspace has at most one running session. |
| LifecycleLaws.StructureThroughout | src/debug_agent/persistence/sessions.py:19-135 | Over every interleaving the programs can produce, late writes and rollbacks included, a session keeps its one run and a run its session. |
| LifecycleLaws.TraceKeeps | src/debug_agent/persistence/checkpoints.py:93-134 | Over every interleaving without an overwriting step, sessions, runs and checkpoints agree throughout. |
| LifecycleLaws.TraceKeepsIff | src/debug_agent/persistence/sessions.py:172-420 | The invariant holds throughout an interleaving exactly when no step of it is such a write. |
| LifecycleLaws.InvariantMeans | src/debug_agent/persistence/checkpoints.py:357-421 | A terminal session naming a checkpoint has a terminal run naming the same one, and checkpoint, run and session record one status. |
| LifecycleLaws.WriteRunKeepsIff | src/debug_agent/persistence/runs.py:234-275 | The unguarded run write keeps the invariant exactly when the session has not meanwhile ended with a checkpoint. |
| LifecycleLaws.RollbackKeepsIff | src/debug_agent/runtime/orchestrator.py:2939-2981 | A rollback keeps the invariant exactly when its plan still fits the rows it finds. |
| LifecycleLaws.GuardedRunWriteIsSafe | src/debug_agent/persistence/runs.py:234-275 | With the run still running, as a status guard in the update would ensure, the write is harmless. |
| LifecycleLaws.LateFailureBreaks | src/debug_agent/persistence/runs.py:234-275 | An interleaving from the empty database in which a late run failure breaks the invariant. |
| LifecycleLaws.LateRollbackBreaks | src/debug_agent/runtime/orchestrator.py:2939-2981 | An interleaving in which a late rollback does. |
| OwnershipLaws.GoneStays | src/debug_agent/persistence/sessions.py:137-170 | An owner token that no longer owns a running session never does again, whatever step follows. |
| OwnershipLaws.HalfFailedStaysIff | src/debug_agent/persistence/sessions.py:172-289 | Of all steps the programs can take, exactly the session's own ending and the rollback of its resume get a running session over an ended run out of that state. |
| OwnershipLaws.HalfFailedForGood | src/debug_agent/persistence/sessions.py:172-289 | Over every interleaving without those two the session stays half failed, no stale proof closes it, and its workspace takes no new session. |
| OwnershipLaws.DyingLeavesHalfFailed | src/debug_agent/runtime/orchestrator.py:2213-2350 | An interleaving from the empty database that ends there: a process dies after failing its run. |
| OwnershipLaws.StaleProofIsFenced | src/debug_agent/runtime/orchestrator.py:2714-2767 | A proof captured before an interleaving is refused after it, changing nothing, if at any moment in between the session was not running under its token. |
| OwnershipLaws.AtMostOneCloser | src/debug_agent/runtime/orchestrator.py:665-728 | Of any number of closers of one owner, in any interleaving, at most one succeeds. |
| OwnershipLaws.ResumeEventsRemoved | src/debug_agent/runtime/orchestrator.py:2984-3016 | Exactly the newest pair of resume events is removed; events before, between and after them stay. |
| OwnershipLaws.PlanRead | src/debug_agent/runtime/orchestrator.py:2939-2981 | A failed resume reads back the checkpoint and status it resumed from. |
| OwnershipLaws.ResumeThenRollback | src/debug_agent/runtime/orchestrator.py:2901-2981 | Resume then rollback restores every status, every checkpoint reference and the event log; only the todo plan stays restored and owner and active run are cleared. |
| OwnershipLaws.RestoredPlanStays | src/debug_agent/persistence/todo_plans.py:139-221 | After a resume the check of the restored todo snapshot against the current plan keeps succeeding, over every interleaving, until some process changes that run's plan. |
| OwnershipLaws.PlanStep | src/debug_agent/persistence/todo_plans.py:63-221 | One step leaves that check succeeding exactly when it does not change the plan. |
| StreamProtocol.StreamCall.CollectBoundary | src/debug_agent/runtime/provider_execution.py:635-673 | One turn of the drain loop: deadline first, then at most one item. |
| StreamProtocol.RunKeeps | src/debug_agent/runtime/provider_execution.py:381-488 | Every interleaving of producer, single consumer and canceller keeps the protocol invariant. |
| StreamProtocol.OneTerminalItem | src/debug_agent/runtime/provider_execution.py:402-418 | At most one terminal item is ever put, nothing after it, and the producer has stopped. |
| StreamProtocol.YieldsInOrder | src/debug_agent/runtime/provider_execution.py:429-488 | Yielded chunks are an in-order prefix of the chunks put, and all of them when the call completes. |
| StreamProtocol.AtMostOneLateChunk | src/debug_agent/runtime/provider_execution.py:429-488 | At most one chunk is handed out after cancellation is set. |
| StreamProtocol.ClosedMeansClosed | src/debug_agent/runtime/provider_execution.py:635-673 | Once the boundary is reported closed the queue is empty and nothing is ever put again. |
| StreamProtocol.OutcomeMeaning | src/debug_agent/runtime/provider_execution.py:429-488 | A call that could not be closed fails as such, is cancelled only if someone cancelled, and completes only on the producer's own end of stream. |
| ToolCallChunks.ToolCallsFromChunks | src/debug_agent/adapters/langchain_adapter.py:1313-1355 | The loop over per-call states equals reassembly by first appearance and each call's own fragments. |
| ToolCallChunks.InterleavingIrrelevant | src/debug_agent/adapters/langchain_adapter.py:1313-1365 | The calls depend only on the order of first appearance and on each call's own fragments. |
| ToolCallChunks.SwapNeighbours | src/debug_agent/adapters/langchain_adapter.py:1313-1365 | Two neighbouring fragments of different calls may be exchanged unless both are the first of their call. |
| ToolCallChunks.SplitFragment | src/debug_agent/adapters/langchain_adapter.py:1313-1378 | A text fragment of arguments may arrive in two pieces, anywhere in the stream. |
| ProviderSegments.FindDuplicates | src/debug_agent/adapters/langchain_adapter.py:630-649 | The counting loop finds exactly the ids that more than one call carries. |
| ProviderSegments.RemapDuplicates | src/debug_agent/adapters/langchain_adapter.py:652-718 | The loops updating the id map in place equal the segment-by-segment remapping. |
| ProviderSegments.NewIdIffShared | src/debug_agent/adapters/langchain_adapter.py:630-718 | A call gets a new id exactly when another call of the context shares its id; everything else about it stays. |
| ProviderSegments.RemappedIdsDistinct | src/debug_agent/adapters/langchain_adapter.py:630-718 | After remapping no two calls of the context share an id. |
| ProviderSegments.ResultFollowsCall | src/debug_agent/adapters/langchain_adapter.py:669-718 | A result that names a call of its own turn names the same call after remapping. |
| ProviderMessages.MergedMessage | src/debug_agent/adapters/langchain_adapter.py:597-627 | A merged message stands for the longest stretch of two or more segments of one model call, with its first text and all its calls. |
| ProviderMessages.MessagesFromSegments | src/debug_agent/adapters/langchain_adapter.py:579-594 | The index loop renders every segment once, in order, and leaves no two messages that should have been one. |
| ProviderMessages.CallsConserved | src/debug_agent/adapters/langchain_adapter.py:579-627 | Merging loses, repeats and reorders no call. |
| ToolLoopIds.ModelCallOfJoined | src/debug_agent/runtime/prompt_executor.py:2265-2270 | Splitting an id at its last marker undoes joining, for every model call id and any tail without an underscore. |
| ToolLoopIds.RawToolIdReadsBack | src/debug_agent/adapters/langchain_adapter.py:1405-1432 | Reading back a generated tool-call id gives its model call. |
| ToolLoopIds.RawToolIdInjective | src/debug_agent/adapters/langchain_adapter.py:1405-1432 | Different calls of one adapter run have different ids. |
| AdapterLoop.InvokeToolCalls | src/debug_agent/adapters/langchain_adapter.py:327-350 | The calls of a round are invoked in order until one aborts or the broker raises, which loses the round's results. |
| AdapterLoop.RunPhase | src/debug_agent/adapters/langchain_adapter.py:79-180 | The round loop of a plain or streaming call, with every way it ends, computes the recursive specification for any model, broker and refresh. |
| AdapterLoop.InvokeAdapter | src/debug_agent/adapters/langchain_adapter.py:182-325 | One adapter call: the streaming loop, and on an unsupported stream the plain loop over again, the rounds already recorded staying recorded. |
| AdapterLaws.RoundsNumbered | src/debug_agent/adapters/langchain_adapter.py:79-180 | A phase hands over rounds numbered from 1, each with its calls under increasing positions. |
| AdapterLaws.UnreportedIff | src/debug_agent/adapters/langchain_adapter.py:79-325 | A call that ran a tool reports no results exactly when the phase that ends it never brings a round back or stops by a failed compression, and a tool ran in that phase's first round or in the streaming loop it fell back from. |
| AdapterLaws.FirstCallRetriedIff | src/debug_agent/runtime/prompt_executor.py:509-628 | The first adapter call of a turn is followed by another exactly when its own result calls for one. |
| AdapterLaws.RetryAfterToolIff | src/debug_agent/runtime/prompt_executor.py:2596-2624 | Under the default rules a retry follows an executed tool exactly when a retried call fell back after the tool or had its first round broken after it. |
| AdapterLaws.ToolRunsAgain | src/debug_agent/adapters/langchain_adapter.py:289-299 | Two such adapter calls: a timeout after the fallback, and one out of the broker. |
| AdapterLaws.TurnIdsDistinctIff | src/debug_agent/adapters/langchain_adapter.py:1405-1432 | The ids of all tool calls a turn records are pairwise distinct exactly when no model call number and position was used in two phases. |
| AdapterLaws.FallbackRepeatsId | src/debug_agent/adapters/langchain_adapter.py:289-290 | A streamed round, a fallback and a plain round give two calls one id. |
| ToolLoopIds.ConvertMessages | src/debug_agent/runtime/prompt_executor.py:2008-2087 | The loop over messages, id map and ordinal computes the specified conversion. |
| ToolLoopIds.RoundConverts | src/debug_agent/runtime/prompt_executor.py:2008-2144 | A round converts to one row per call and one per result, both under the same turn-scoped ids. |
| TurnGroups.BuildLoopAppends | src/debug_agent/runtime/prompt_executor.py:684-713 | The durable messages of a tool loop, filtered and numbered within one group. |
| TurnGroups.CallKeysDistinct | src/debug_agent/runtime/prompt_executor.py:2132-2144 | No two calls of a turn share a scoped id, across all its rounds. |
| TurnGroups.LoopGroupAccepted | src/debug_agent/persistence/conversation.py:361-402 | The tool-loop group of a turn is always accepted by the store. |
| TurnGroups.LoopGroupPairs | src/debug_agent/persistence/conversation.py:425-439 | In that group call keys and result keys are equal. |
| AdapterLaws.OnlyLastRecords | src/debug_agent/runtime/prompt_executor.py:509-738 | Where no call falls back after recording a round, all rounds of a turn are those of its last adapter call, numbered from 1. |
| AdapterLaws.TurnLoopIsSound | src/debug_agent/runtime/prompt_executor.py:672-738 | Over all retries, a denied first round aside, the tool loop a turn records is accepted as one closed group in which call and result keys are equal; and unless a call fell back after recording a round no two of its calls share an id. |
| ReplConversation.ReplRuntime.ConsumedModelCallIds | src/debug_agent/runtime/orchestrator.py:3205-3211 | The model call ids of the conversation in order of first appearance. |
| ReplConversation.ReplRuntime.SyncDurableIndexes | src/debug_agent/runtime/orchestrator.py:442-451 | Every message gets the index at its place, or nothing changes when the counts differ. |
| ReplConversation.ReplRuntime.AppendTurn | src/debug_agent/runtime/orchestrator.py:296-440 | One turn takes over the history handed back, if any, and appends the user's message, the tool loop's and the ending, numbered on. |
| ReplConversation.ReplRuntime.constructor | src/debug_agent/runtime/orchestrator.py:158-196 | A process counts turns from the highest number a turn id or model call id of its conversation names. |
| ReplConversation.ConversationMessages | src/debug_agent/runtime/prompt_executor.py:1973-1996 | Turning dictionaries into messages puts the index into the metadata unless one is there. |
| ReplConversation.TurnKeepsOrder | src/debug_agent/runtime/orchestrator.py:3166-3174 | A turn keeps sequence numbers strictly increasing. |
| ReplHistory.RunStaysGood | src/debug_agent/runtime/orchestrator.py:198-477 | Over every run of turns with any omissions and compressions, turns that fail at their start, manual compressions and resumes: strict order, no id of a later turn, and marks that name exactly the groups begun before them. |
| ReplHistory.ReachableOrdered | src/debug_agent/runtime/orchestrator.py:3166-3174 | In every reachable process conversation sequence numbers strictly increase. |
| ReplHistory.ReachableEvictable | src/debug_agent/runtime/query_control.py:113-209 | In every reachable conversation the evictable groups are exactly the closed ones that have `retain` closed groups after them and are marked by an answer of this process that came after their beginning, or by one older than them, which only raw ids are. |
| ReplHistory.AnsweredTurnEvicts | src/debug_agent/runtime/orchestrator.py:336-354 | After every answered turn of every run the evictable groups are exactly the closed ones with at least max(1, retain) closed groups after them. |
| ReplHistory.UnansweredTurnEvicts | src/debug_agent/runtime/orchestrator.py:355-440 | After every turn without an answer, for every group id: evictable exactly when it is closed, was consumed in the history the turn went on from, and has `retain` closed groups after it; under an id of its own turn such a group began before this turn. |
| ReplHistory.ConvertedLoopOk | src/debug_agent/runtime/prompt_executor.py:2008-2144 | Whatever messages a round consists of, their converted forms carry ids of their turn only. |
| ReplHistory.BornConsumedIff | src/debug_agent/adapters/langchain_adapter.py:1475-1513 | When a turn's tool loop has been appended, a group id is consumed exactly when an earlier message marks it; for a group the turn began that makes it a raw id. |
| ReplHistory.BornConsumedInRuns | src/debug_agent/runtime/query_control.py:183-210 | The same for every turn of every run and every history it may go on from. |
| ReplHistory.RawIdBornConsumed | src/debug_agent/adapters/langchain_adapter.py:1475-1513 | Such a raw id of a denied first round, marked before and removed by compression, stays consumed to the end of its turn without an answer after it. |
| ReplHistory.RawIdBornConsumedReached | src/debug_agent/adapters/langchain_adapter.py:1475-1513 | It happens: a denied turn, an answered one, a third that compresses and is denied again. |
| ReplAlignment.TurnAccepted | src/debug_agent/runtime/prompt_executor.py:630-738 | Every group a turn writes is accepted, and together they hold one row per message the process adds. |
| ReplAlignment.AppendsToCovering | src/debug_agent/persistence/conversation.py:491-531 | Any number of appends extends a covering expansion by exactly the new indexes in order. |
| ReplAlignment.TurnKeepsStep | src/debug_agent/runtime/orchestrator.py:442-451 | A turn without omission or compression adds the same count on both sides, sync assigns every index, and the next alignment check passes. |
| ReplAlignment.SessionStaysSound | src/debug_agent/persistence/conversation.py:345-359 | Over any number of such turns process and log stay in step and sequence numbers strictly increase. |
| SessionRecovery.SessionIdsDistinct | src/debug_agent/runtime/prompt_executor.py:630-738 | No group id repeats over any number of such turns. |
| SessionRecovery.SessionCanBeCheckpointed | src/debug_agent/persistence/checkpoints.py:246-316 | After any number of such turns a terminal manifest can be built. |
| SessionRecovery.ResumeRestoresSession | src/debug_agent/runtime/orchestrator.py:2520-2561 | Resuming from it, whatever was appended or overwritten since, gives back as many messages, in order, with the process's own durable indexes. |
| ReplMirror.TurnKeepsMirror | src/debug_agent/runtime/prompt_executor.py:630-738 | A turn adds, on both sides, messages of the same role, turn, call and kind, and moves no earlier pairing. |
| ReplMirror.SessionMirrors | src/debug_agent/runtime/orchestrator.py:296-451 | Over any number of such turns every process message mirrors the row its index names. |
| ReplProjection.BuildProjectionRefs | src/debug_agent/runtime/prompt_executor.py:1573-1610 | The loop over retained messages returns the new references or the first error; a summary row no message stands for comes first. |
| ReplProjection.RefsMeaning | src/debug_agent/runtime/prompt_executor.py:1573-1610 | References exist exactly when every message stands for a row inside the watermark, and name those rows in order. |
| ReplProjection.SnapshotRefsAre | src/debug_agent/runtime/context_manager.py:104-114 | The snapshot of an omission names exactly the rows of the messages outside the protected suffix, in order. |
| ReplDrift.AppendsNameEverything | src/debug_agent/persistence/conversation.py:491-531 | The first append after an overwrite names every left-out row again, ascending, before its own. |
| ReplDrift.TurnGrows | src/debug_agent/persistence/conversation.py:491-531 | After a turn with a persisted omission the expansion is what the omission kept, then the protected suffix, then the turn's rows; without one it just grows. |
| ReplDrift.OmissionStaysInStep | src/debug_agent/persistence/conversation.py:345-359 | Whatever the omission, written back or not, the next turn's alignment check passes. |
| ReplDrift.ComparedIndexesIff | src/debug_agent/runtime/orchestrator.py:442-451 | The top-level indexes the check compares are the messages' own rows exactly when no message outside the protected suffix came after one of it. |
| ReplDrift.OverwriteIndexesIff | src/debug_agent/runtime/prompt_executor.py:1979-2005 | The indexes overwrites read, from metadata first, stay the messages' own rows unless a lost omission moves a message that had none in its metadata. |
| ReplDrift.LostOmissionIff | src/debug_agent/runtime/prompt_executor.py:340-371 | Where no history was ever handed back, an omission persisted but not written back spoils them exactly when something followed the protected suffix. |
| ReplDrift.SessionTracked | src/debug_agent/runtime/orchestrator.py:296-451 | Over any number of turns with and without written-back omissions, the check passes, message i mirrors row i, and every overwrite names the messages' own rows. |
| ReplCases.LostOmissionSpoils | src/debug_agent/runtime/prompt_executor.py:340-371 | A tool turn, an answered turn and a failed one, and then a lost omission that has something to blank, end with wrong indexes of both kinds and a passing check. |
| ReplDrift.CompressedIsNoLonger | src/debug_agent/runtime/prompt_executor.py:1807-1850 | A replacement never lengthens a history. |
| ReplDrift.CompressionDrifts | src/debug_agent/runtime/prompt_executor.py:1481-1610 | After a turn that persists a compression the process is shorter than its log, the sync leaves it alone and the next alignment check fails, whether the compressed history was handed back or not. |
| ReplDrift.ManualCompressionDrifts | src/debug_agent/runtime/orchestrator.py:457-477 | After a manual compression the next check passes and the one after the next turn fails. |
| ReplDrift.InterruptIff | src/debug_agent/runtime/orchestrator.py:355-413 | However many of its groups an interrupted turn had written, the next alignment check passes exactly when they held one row. |
| ReplCases.CompressionApart | src/debug_agent/runtime/prompt_executor.py:1481-1610 | A tool turn and an answered one after which, for some window, the third turn compresses and drifts. |
| TurnNumbers.NextTurnFreshIff | src/debug_agent/runtime/orchestrator.py:3177-3202 | In a log of turns 1 to m, with any projection that resolves: the resumed process's next turn number is unused, for its user group and for every id of its scope alike, exactly when m is 0 or a row the projection names carries m; the number is then m + 1 and otherwise at most m. |
| TurnNumbers.ResumedCheckpointIff | src/debug_agent/persistence/checkpoints.py:246-316 | After the user row of that turn a terminal checkpoint can be built exactly under the same condition; without it none ever can, whatever follows. |
| TurnNumbers.PoisonedForGood | src/debug_agent/persistence/checkpoints.py:246-316 | Once a log holds two groups of one id, no later state of it has a terminal checkpoint. |
| TurnReuse.FinishedTurnsResume | src/debug_agent/runtime/orchestrator.py:3019-3106 | After any number of turns that end, with any omissions handed back or lost, a resumed process goes on with the number after the last, none of whose ids is in use, and can be checkpointed again. |
| TurnReuse.CompressedTurnResumes | src/debug_agent/runtime/prompt_executor.py:1481-1610 | The same after a further turn that persists a compression and then writes nothing more. |
| TurnReuse.NextTurnReused | src/debug_agent/runtime/prompt_executor.py:465-490 | After a further turn that persists an omission and writes only its user row, the resumed process's next turn gets a number whose user id is in the log. |
| TurnReuse.AbortedTurnPoisons | src/debug_agent/runtime/prompt_executor.py:465-490 | A checkpoint can then be written, but after the resumed process's next user row no terminal checkpoint of the run is ever possible again. |
| TurnReuse.OmissionThenReuse | src/debug_agent/runtime/prompt_executor.py:465-490 | A tool turn and an answered one, after which an omission has something to blank and an aborted third turn has that effect. |
| ResumedSessions.WakesAt | src/debug_agent/runtime/orchestrator.py:3019-3106 | A process resumed from a complete log is in step with it, holds its messages in strict order, and counts on from the last turn. |
| ResumedSessions.LivesAreOneSession | src/debug_agent/runtime/orchestrator.py:2520-2561 | Over any alternation of sessions and resumes, at the end of each: the log is what one process would have written, the next alignment check passes, no group id repeats, the next number is the one after the last, and a terminal checkpoint can be built and read back. |

## Left out

Members whose statement is narrower than the source's behaviour:

- Retry.RunAdapterWithRetry: cancellation, trace events, sleeping between attempts and metadata added to results are left out; the adapter is an arbitrary function of the call's number and request.
- ConversationStore.ConversationStore.AppendClosedGroup: values that canonical JSON cannot encode are not represented, so that error is left out; one store holds one run's rows.
- Lifecycle.RuntimeDatabase.ReviveSameLineage: run types other than prompt, todo ownership checks and the checks that precede the transaction (approval, active skills, frozen snapshots) are left out.
- LifecycleLaws.TraceKeepsIff: a session is taken to have one run, which is what the programs create, and owner tokens to be fresh.
- OwnershipLaws.ResumeThenRollback: the state before is one the lifecycle invariant holds of, and events recorded in between do not name the same resume.
- StreamProtocol.RunKeeps: one consumer drains the queue; a boundary collector called from another thread at the same time is left out, and so are worker liveness flags.
- TurnGroups.BuildLoopAppends: the fallback that reads a missing tool call id out of a message's content is left out.
- AdapterLoop.RunPhase: a provider boundary that cannot be closed, and an interrupt, leave the turn by an exception and are left out, as are token observations and stream events.
- AdapterLaws.RetryAfterToolIff: under the default rules; whether a raising broker ran the tool is the environment's choice.
- AdapterLaws.TurnLoopIsSound: of a call denied in its first round the source records the adapter's raw rows, where one assistant row may stand for several calls without an id; here it records no round.
- ReplConversation.ReplRuntime.AppendTurn: error payloads of failure and cancellation messages are blank.
- ReplHistory.RunStaysGood: rows restored on resume carry none of the metadata keys the runtime reads; no row the runtime writes does.
- ReplAlignment.TurnAccepted: an interrupted turn is taken to have written its user row and no row of its tool loop; what an interrupt at another moment does is `ReplDrift.InterruptIff`.
- ToolLoopIds.ConvertMessages: presentation metadata and artifact ids of tool results are left out.
- RecoveryConversation.RestoreConversation: contents are carried over as they are; unwrapping the stored content object is left out.
- ReplAlignment.TurnKeepsStep: turns in which neither omission nor compression fires; what those do is the subject of `ReplDrift`.
- EvictionLaws.CompressionKeepsProtected: sequence numbers are distinct and summaries carry no model call id, which the REPL maintains.
- ResumedSessions.LivesAreOneSession: turns without omission and compression, from any log whose projection names every row, such as those of `TurnReuse.StartedIsComplete`; each resume is from the checkpoint at the end of the life before.

Parts of the repository that are not modelled:

- SQLite, the file system, JSON text and SHA-256 themselves.
- The asynchronous stream and the one-result call task of `runtime/provider_execution.py`: the threaded stream is the harder case.
- Real clocks and sleeps: deadlines are choices of the environment.
- The model call that writes a compression summary, its own retry, and the ratios that trigger omission and compression.
- The approval, active-skill, frozen-snapshot and artifact parts of a checkpoint: they compare current rows and would add single-branch checks.
- Rows written outside a turn, such as the fact recorded when an idle session is cancelled.
- Policy, ToolBroker, shell and native tools, skills, vision and model clients.
- CLI, interactive views, trace and metrics rendering, configuration and exit-code tables.
