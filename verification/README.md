# FrostAgent protocols in Dafny

FrostAgent is a chat-agent server. This project models the parts of it that are hard to get right by reading: the
concurrent protocols guarded by epochs, generations and barriers, the crash-safe file protocols, the dotenv editor, and
the derived structures that have to agree with a simple source. Each lock-protected section is one atomic step, and the
main results hold for every interleaving, every run or every input.

Check everything with `dafny verify dfyconfig.toml`.

## How it is laid out

| files | what they model |
|---|---|
| `GroupBuffer`, `CompactionRuns` | the buffer of group-chat messages, and its summaries over whole runs |
| `SummaryStore`, `SummaryReset` | the durable summary store with its aliases, and summaries against a session reset |
| `Distillation`, `ExtractionBarriers` | the two kinds of commit barrier against drops and resets |
| `Lanes`, `Messages`, `TurnTranscript`, `ToolTranscript`, `LaneAttempts`, `History`, `Billing` | execution lanes: queueing, inherited transcripts, tool answers, attempts that follow each other, history handles and reply logs, settlement and prices |
| `McpRuntime`, `McpManager` | one MCP server runtime, and the manager that owns many |
| `CopyTransaction`, `DeletionStages` | copying an instance's configuration, and deleting an instance |
| `EnvScanner`, `EnvMeaning`, `EnvFormat`, `EnvEdit` | splitting, reading, writing and editing a .env file |
| `LogStore`, `Embeddings`, `ImageCleanup` | the log ring, the embedding index and its worker, the container clean-up plan |
| `Text` | trimming and small sequence facts |

State that the source updates in place is a class whose methods are proved against a specification function (`View()`
equals that function of the old `View()`); what the source promises is then proved about the specification, over whole
runs. Where a run needs to know which message is which, the model gives messages an identity that the source does not
have; no operation looks at it.

## Where the code does less than it seems to promise

Each of these is stated with the exact condition under which the promise does hold.

- A drop that falls between a reset clearing its register of distillations and aborting them returns although a
  distillation of the dropped message goes on to write (`Distillation.DropStopsDistillation`, with a run in
  `DropMissesDistillationBeingReset`).
- `ResetSession` keeps the list of committed sources, so a batch committed before it may still be distilled afterwards;
  `ResetGroupCompact` forgets it (`Distillation.DistillationAfterReset`).
- `RollbackPersistence` asks for the store's generation when it writes, not when its caller read the summary, and can
  restore a summary that a reset has deleted in between (`SummaryReset.RollbackKeepsExactly`, with a run in
  `StaleRollbackRestores`).
- Recovery of a copy goes forward on a committing marker whose directory sync failed or was never reached, although the
  comment in `Copy` says that a retry re-establishes it. A power loss after the first item is installed can then leave a
  mixture (`CopyTransaction.SafeExactlyWhenMarkerDurable`).
- A proactive lane hides an interrupted attempt's inputs from the history and passes no transcript on, so its successor
  does not see them at all (`TurnTranscript.SuccessorSeesEachInputOnce`); renumbering the history makes the successor of
  any other lane see them twice (`TurnTranscript.RenumberingRepeats`).
- Editing a .env file that ends inside an open quote can write into that quote (`EnvEdit.EditIsExact`), and a
  double-quoted value that ends in a backslash does not close (`EnvFormat.FormattedIsOneEntry`).
- A charge whose rounded-up numerator exceeds an int64 comes out too low or negative (`Billing.ChargeIsCeiling`).

## Model

| member | source | states |
|---|---|---|
| GroupBuffer.EvictionMeetsOutcome | internal/llm/session.go:1465-1496 | for every buffer and ceiling, eviction keeps a subsequence of the right size from which committed items leave oldest first and staged items only when no committed one is left |
| GroupBuffer.SessionBuffer.EvictPasses | internal/llm/session.go:1465-1496 | the two passes of the eviction loop leave exactly what the specification says |
| GroupBuffer.SessionBuffer.AppendMessage | internal/llm/session.go:1422-1499 | a blank message changes nothing; any other gets the next number, and eviction follows |
| GroupBuffer.SessionBuffer.PromoteSlot | internal/llm/session.go:1665-1698 | exactly the selected staged items become committed |
| GroupBuffer.SessionBuffer.DescribeSlot | internal/llm/session.go:1536-1553 | only the staged user message with this number gets the description, and the result says whether there is one |
| GroupBuffer.SessionBuffer.DropSlot | internal/llm/session.go:1731-1847 | the item goes, a summary that holds the message is rolled back with its mapping, the generation moves on, the message is revoked, and the result says whether anything was dropped |
| GroupBuffer.SessionBuffer.SnapshotBatch | internal/llm/session.go:2002-2037 | a snapshot holds all committed items before the first staged one, and is taken only when they reach the batch size |
| GroupBuffer.SessionBuffer.CommitSummary | internal/llm/session.go:2046-2134 | a commit of the same generation and persisted removes the snapshot's items and records the batch for roll-back; otherwise nothing changes |
| GroupBuffer.SessionBuffer.ResetForSession | internal/llm/session.go:1032-1045 | a reset clears buffer, summary and mapping, moves the generation on, and keeps the committed sources |
| GroupBuffer.WithoutShape | internal/llm/session.go:1731-1760 | dropping removes exactly the discarded items and keeps the order of the rest |
| GroupBuffer.EligiblePrefix | internal/llm/session.go:2002-2025 | what a snapshot may take is a prefix without staged items |
| GroupBuffer.AfterShape | internal/llm/session.go:2123-2134 | a commit keeps exactly the items after the snapshot's last number, in order |
| GroupBuffer.KeepNewestShape | internal/llm/session.go:2080-2097 | of the committed sources no newer one goes before an older one, never more than the limit are kept, and none goes while there is room |
| CompactionRuns.StepKeeps | internal/llm/session.go:1422-2134 | every step keeps numbers increasing and the account of every message right |
| CompactionRuns.NothingLost | internal/llm/group_compactor.go:314-400 | in every run each accepted message is buffered, summarised, evicted, dropped, rolled back or reset, and the account says which |
| CompactionRuns.CommitTakesOnlyItsSnapshot | internal/llm/session.go:2046-2134 | in every run a commit removes only committed messages of its own snapshot, never a staged or later one |
| CompactionRuns.DeletedStaysDeleted | internal/llm/session.go:1731-1847 | a message that was dropped, rolled back or cleared never comes back to the buffer or to a summary |
| CompactionRuns.EvictedStaysOut | internal/llm/session.go:1465-1496 | an evicted message never returns to the buffer, and reaches a summary only through the request that was in flight with it; otherwise it stays evicted |
| CompactionRuns.CeilingHolds | internal/llm/session.go:1465-1499 | in every run the buffer stays within the ceiling that came with the latest accepted append |
| CompactionRuns.StaleSnapshotNeverCommits | internal/llm/session.go:2056-2064 | a snapshot of an earlier generation cannot commit in any continuation |
| CompactionRuns.DropUndoesLatestBatch | internal/llm/session.go:1762-1800 | in every run, while a batch is recorded, a drop by number or by ID of one of its messages gives back exactly the summary, mapping and account from before that batch, and a drop of any other ID leaves them as they are |
| Distillation.DropStopsDistillation | internal/llm/session.go:1731-1847 | whatever has happened before, a drop stops every distillation of its message for good, in every continuation, if and only if all of them that may still write are registered when it is made |
| Distillation.UnregisteredIsBeingReset | internal/llm/session.go:1023-1027 | that fails only for a distillation that a reset has taken off the register and not aborted yet |
| Distillation.DropSparesOthers | internal/llm/session.go:1815-1847 | a drop leaves distillations without its message alone |
| Distillation.DropMissesDistillationBeingReset | internal/llm/session.go:1023-1027 | it does fail: a concrete interleaving in which the drop returns and the distillation writes |
| Distillation.CommittedBatchIsVouched | internal/llm/session.go:2080-2097 | that interleaving starts from a state which every ordinary commit leaves |
| Distillation.DistillationAfterReset | internal/llm/session.go:786-862 | after a reset a committed batch may still be distilled if and only if the reset was of the session and nothing revoked the batch |
| ExtractionBarriers.ExtractionBarrier.TryBeginCommit | internal/llm/session.go:596-613 | writing starts exactly from a pending, unaborted barrier of the current epoch |
| ExtractionBarriers.ExtractionBarrier.EndCommit | internal/llm/session.go:615-636 | the writer's channel is closed, and a reusable barrier gets a new one |
| ExtractionBarriers.ExtractionBarrier.CloseBarrier | internal/llm/session.go:638-650 | closing ends a pending or writing barrier and its channel |
| ExtractionBarriers.ExtractionBarrier.AbortAndWait | internal/llm/session.go:652-667 | an abort waits on the channel of the writer it finds, or ends the barrier at once |
| ExtractionBarriers.NoStaleWriterAfterReset | internal/llm/session.go:996-1070 | when a reset returns, no barrier of an earlier epoch is writing or can write again |
| ExtractionBarriers.WritesOnlyInOwnEpoch | internal/llm/agent.go:533-546 | a batch starts to write only in the epoch it was enqueued in, and while it writes that epoch is the present one or one that a reset still waits for this batch to end |
| ExtractionBarriers.TerminatedStays | internal/llm/session.go:638-676 | a barrier that has ended never writes again |
| ExtractionBarriers.WaitsOnTheRightChannel | internal/llm/session.go:554-676 | a waiting reset always watches the channel that the present writer will close, however often the barrier is reused |
| ExtractionBarriers.ResetSparesNewEpoch | internal/llm/session.go:906-952 | barriers of the new epoch are untouched by the reset |
| SummaryStore.CanonicalIdempotent | internal/groupsummary/store.go:123-131 | a canonical session ID is its own canonical form |
| SummaryStore.AliasesAgree | internal/groupsummary/store.go:133-147 | every alias of a session has the same canonical ID |
| SummaryStore.UpsertVisibleToAliases | internal/groupsummary/store.go:207-259 | a summary written under one alias is found under every other |
| SummaryStore.DeleteShutsOut | internal/groupsummary/store.go:261-307 | a deletion removes the summary for every alias and moves the generation on |
| SummaryStore.DeleteRefusesOldWrites | internal/groupsummary/store.go:207-307 | a write prepared before a deletion is refused under every alias |
| SummaryStore.UpsertRefinesCell | internal/groupsummary/store.go:207-259 | for every alias the store behaves as one cell per session when written |
| SummaryStore.DeleteRefinesCell | internal/groupsummary/store.go:261-307 | and likewise when deleted |
| SummaryStore.SummaryFile.UpsertSummary | internal/groupsummary/store.go:207-259 | records and generations change as specified, and not at all when saving fails |
| SummaryStore.SummaryFile.DeleteSummary | internal/groupsummary/store.go:261-307 | records of all aliases go and their generations move, or saving failed |
| SummaryReset.NoSummaryFromBeforeReset | internal/llm/group_compactor.go:352-356 | in every run without stale roll-backs neither the running nor the stored summary comes from before the last reset whose deletion succeeded |
| SummaryReset.RollbackKeepsExactly | internal/llm/group_compactor.go:734-810 | after a roll-back in any run that promise holds for good, in every continuation, if and only if the text is empty or not older than the reset, or the store refuses writes, or the one write of a SQL store fails |
| SummaryReset.StaleRollbackRestores | internal/llm/group_compactor.go:734-810 | a roll-back that read before a reset puts the old summary back into the store |
| McpRuntime.ServerRuntime.ReserveStart | internal/mcp/server.go:135-175 | a start takes a new generation and gives up the session before it, unless the runtime is disabled or retired |
| McpRuntime.ServerRuntime.FinishReservedStart | internal/mcp/server.go:256-390 | a connection is published only for the current generation of a runtime that is not retired |
| McpRuntime.ServerRuntime.HandleTermination | internal/mcp/server.go:392-405 | only the current session of the current generation can report its end |
| McpRuntime.ServerRuntime.StopRuntime | internal/mcp/server.go:407-424 | stopping ends the session and every reservation |
| McpRuntime.ServerRuntime.SetEnabledFlag | internal/mcp/server.go:504-535 | the flag is set and a start or stop is to follow, unless the runtime is retired or already as asked for |
| McpRuntime.ServerRuntime.RetireRuntime | internal/mcp/server.go:217-239 | retirement ends the session and every reservation |
| McpManager.InactiveMeansDisconnected | internal/mcp/manager.go:438-485 | once deactivation has returned, no server of the manager is connected, whatever was queued or running |
| McpManager.SessionsAreCurrent | internal/mcp/server.go:256-424 | a published session always belongs to the current generation |
| McpManager.RetiredStaysDown | internal/mcp/manager.go:273-346 | a retired runtime never connects again |
| McpManager.OvertakenStartNeverConnects | internal/mcp/server.go:256-390 | a start that a newer reservation, a stop or a retirement has overtaken never connects its runtime, whatever follows |
| Lanes.SessionLanes.ReserveSequenceTurn | internal/llm/sequence.go:28-62 | the new turn waits for the tail, and interrupting cancels along the chain exactly the unfinished turns |
| Lanes.SessionLanes.FinishSequence | internal/llm/sequence.go:215-240 | the lane's task is kept exactly when the turn was interrupted and is not the tail |
| Lanes.SessionLanes.CancelSequences | internal/llm/sequence.go:242-253 | a reset cancels every unfinished turn of every current lane |
| Lanes.OneAtATime | internal/llm/session.go:184-200 | in every run a turn that has entered finds all earlier turns of its lane finished, and is the only one running |
| Lanes.OldestMayEnter | internal/llm/session.go:184-188 | in every run the oldest unfinished turn of a lane may enter, so that no lane is stuck |
| Lanes.TakesOverFromInterrupted | internal/llm/sequence.go:215-240 | in every run a turn takes over the inputs of exactly the unbroken run of interrupted turns before it |
| Lanes.InterruptCancelsItsLane | internal/llm/sequence.go:50-58 | an interrupting reservation cancels every unfinished turn of its own lane and none elsewhere; a plain one none |
| Lanes.RunKeeps | internal/llm/sequence.go:77-88 | over every run cancellation is permanent, and a turn of an ended epoch prepares nothing more |
| Lanes.ResetEndsEveryTurn | internal/llm/session.go:1003-1015 | after a reset every earlier turn is cancelled for good and none prepares an input |
| TurnTranscript.Conversation.PrepareTurnMessages | internal/llm/sequence.go:125-191 | the request is the visible history, the inherited transcript and the input, and the checkpoint is left in the lane |
| TurnTranscript.Conversation.SaveTranscript | internal/llm/sequence.go:193-213 | the saved transcript is the part after the history, with the durable input and without system messages |
| TurnTranscript.SaveUndoesPrepare | internal/llm/sequence.go:125-213 | whatever system messages are inserted, however the input is rewritten and whatever is appended, saving leaves the inherited transcript, the durable input and the appended messages |
| TurnTranscript.AppliedFlat | internal/llm/agent.go:762-787 | in the list as a whole an edit of the attempt inserts, rewrites or appends just one message |
| TurnTranscript.SuccessorSeesEachInputOnce | internal/llm/sequence.go:158-173 | after any run the next attempt sees every earlier input of its task exactly once, if and only if the lane is not proactive |
| TurnTranscript.RenumberingRepeats | internal/llm/sequence.go:132-138 | after renumbering it sees an earlier input once more than the history holds it |
| ToolTranscript.ClosedIsWellFormed | internal/llm/agent.go:1182-1405 | reading front to back accepts exactly the transcripts in which each call is answered right after its batch and each answer has a call |
| ToolTranscript.CompleteInterruptedTranscript | internal/llm/inflight.go:184-214 | the loops compute the completion of the specification |
| ToolTranscript.CompletedIsClosed | internal/llm/inflight.go:184-214 | completing only appends, and the result is closed |
| ToolTranscript.CompletedTwice | internal/llm/inflight.go:184-214 | completing again adds nothing |
| ToolTranscript.CompletedLabels | internal/llm/inflight.go:203-212 | each added answer goes to an unanswered call and says whether the call had started |
| ToolTranscript.SavedTranscriptIsClosed | internal/llm/agent.go:762-787 | wherever the agent loop is left, also inside a batch, the transcript it hands to saveTranscript is well formed and extends its messages |
| LaneAttempts.LaneTranscriptStaysClosed | internal/llm/sequence.go:193-213 | however many attempts a lane goes through and wherever each is left, the transcript it keeps for the next is well formed after every step, given a closed visible history |
| LaneAttempts.SaveKeeps | internal/llm/agent.go:762-787 | what is stored is the inherited transcript, the durable input and what the loop added, without system messages, and it is closed |
| ToolTranscript.NonSystemClosed | internal/llm/sequence.go:193-203 | leaving out system messages keeps a transcript closed |
| ToolTranscript.RefreshedClosed | internal/llm/skills.go:284-301 | replacing the skills message at the front changes nothing else and keeps a transcript closed |
| ToolTranscript.TrimMessages | internal/llm/agent.go:1478-1497 | the loop finds the start of the batch that the first kept tool message belongs to |
| ToolTranscript.TrimmedIsClosed | internal/llm/agent.go:1478-1497 | trimming a closed transcript leaves a closed one |
| ToolTranscript.TrimmedKeepsLatest | internal/llm/agent.go:1478-1497 | trimming keeps the first message and at least the configured number of latest ones, without a gap |
| History.StepKeeps | internal/llm/session.go:1092-1399 | every operation on the history keeps numbers increasing and handles, snapshots and logs true |
| History.HandleRemovesItsOwn | internal/llm/sequence.go:256-266 | a handle is never given out twice and at any later time removes its own message or nothing |
| History.CompactKeepsOthers | internal/llm/session.go:1132-1193 | a private compaction drops only messages of its own snapshot and keeps all others in order, however compactions overlap |
| History.OneFinalAtMost | internal/llm/public_replies.go:73-81 | a reply log accepts one final at most |
| History.FinalReplacesOwnReplies | internal/llm/public_replies.go:99-123 | a final that is not interrupted replaces exactly the log's own replies that still have their number, and nothing else |
| History.StaleLogChangesNothing | internal/llm/public_replies.go:29-60 | after a reset an old log changes the history no more, whatever is called on it or still in progress |
| History.SessionHistory.DropMessage | internal/llm/sequence.go:256-266 | the search loop removes exactly the message with this number |
| History.SessionHistory.CommitPrivateCompact | internal/llm/session.go:1132-1193 | later messages follow the summary with fresh numbers, or nothing changes |
| History.SessionHistory.CommitFinal | internal/llm/public_replies.go:73-123 | the nested loops leave the history as specified |
| History.SessionHistory.FinishLog | internal/llm/public_replies.go:127-139 | an uninterrupted log takes its replies with it, when nothing else happens in between |
| History.FinishStepsEnd | internal/llm/public_replies.go:127-139 | the separate sections of Finish come to the same when nothing else happens in between |
| Billing.ChargeIsCeiling | internal/billing/pricing.go:57-73 | a charge covers the exact price and exceeds it by less than a minor unit, if and only if the rounded-up numerator fits in an int64 |
| Billing.EveryRunSettles | internal/llm/inflight.go:110-180 | in every run each reservation is settled once and never twice, abandoned or not, the total is the sum of the commits, and a true Wait means that every call begun before it has ended |
| Billing.AllCanSettle | internal/llm/inflight.go:115-172 | from every state of every run the workers alone, abandoned or not, can end every call; then every reservation is settled and nothing is pending |
| Billing.RunsChargeFairly | internal/billing/pricing.go:57-73 | after any run n billed iterations charge at least the exact price and less than n minor units more |
| Billing.BillingRunState.EndCall | internal/llm/inflight.go:37-44 | the channel is closed exactly when nothing is pending any more |
| Billing.BillingRunState.BeginCall | internal/llm/inflight.go:28-35 | a new channel is opened exactly when nothing was pending |
| Billing.BillingRunState.Watch | internal/llm/inflight.go:48-54 | Wait watches the channel that belongs to the calls begun so far |
| CopyTransaction.KilledRunsAreAllOrNothing | internal/instance/copy_transaction.go:57-200 | however often the process is killed or an operation fails, without a journal the items are all old or all new, and a committing journal has its complete stage |
| CopyTransaction.GuardedRunsSurvivePowerLoss | internal/instance/manager.go:1138-1224 | the same through power losses, if recovery goes forward only on a durable committing marker |
| CopyTransaction.SafeExactlyWhenMarkerDurable | internal/instance/copy_transaction.go:150-182 | an open transaction ends all old or all new whatever follows, if and only if its committing marker is durable, or at most one item changes, or neither a credential nor the first config file changes |
| CopyTransaction.MarkerCanBeUndurable | internal/instance/manager.go:1194-1202 | a copy killed after the committing rename and before the directory sync leaves a marker that is not durable |
| CopyTransaction.Target.Recover | internal/instance/copy_transaction.go:138-200 | wherever recovery stops it has only made moves of the protocol; when it ends the journal is gone and the items are all new, or untouched if the marker said preparing, and a further recovery changes nothing |
| CopyTransaction.Target.InstallAll | internal/instance/copy_transaction.go:165-178 | the install loop leaves every item new and durable, or gives up with the journal in place |
| DeletionStages.FilesOutliveTheRow | internal/instance/sql_backup.go:415-491 | through any crashes, failures and recoveries, an instance's files are there as long as its row is, and in its own directory once no stage is left |
| DeletionStages.StepHoldsOnly | internal/instance/deletion_stage.go:38-84 | no step makes up files for an instance, or gives it another's |
| DeletionStages.RecoveryStopsOnlyOnConflict | internal/instance/deletion_stage.go:38-84 | recovery stops exactly when an instance could be restored from two places; otherwise it clears all stages, and it never touches directories without a row |
| DeletionStages.Manager.RecoverDeletionStages | internal/instance/deletion_stage.go:38-84 | the loop over the stages does that, in steps of the protocol |
| DeletionStages.Manager.ConfirmDeletion | internal/instance/sql_backup.go:447-491 | it succeeds exactly when the rename and the SQL delete do; a failure whose rename back works leaves the directories as they were |
| EnvScanner.ParseIsLossless | internal/instanceconfig/envfile.go:127-286 | for every byte string the statements' texts make up the file again |
| EnvScanner.ParseStatements | internal/instanceconfig/envfile.go:127-286 | the scanning loops end and compute these statements |
| EnvScanner.ParseKeyAndSep | internal/instanceconfig/envfile.go:96-123 | the loop finds the key and the separator of the specification |
| EnvMeaning.ParseMeans | internal/instanceconfig/envfile.go:127-286 | the keys and value texts of the statements are those found by reading the file front to back |
| EnvMeaning.StatementSays | internal/instanceconfig/envfile.go:209-283 | an ended statement says the same in front of any text |
| EnvFormat.FormatEnvEntry | internal/instanceconfig/envfile.go:27-83 | the entry is written in the one of three forms that its value needs, or refused |
| EnvFormat.FormattedIsOneEntry | internal/instanceconfig/envfile.go:33-68 | a written entry is one statement for its key with exactly its text, unless it is double-quoted and ends in a backslash |
| EnvEdit.MutateStatements | internal/instanceconfig/envfile.go:291-319 | the loop replaces the first statement of the key, drops the others, or appends one |
| EnvEdit.MutateEnv | internal/instanceconfig/envfile.go:348-360 | the new file, or an error for a value that cannot be written |
| EnvEdit.EditedShape | internal/instanceconfig/envfile.go:287-332 | an edit leaves all other entries in order, and the key once at its first old place, else at the end, or not at all |
| EnvEdit.EditIsExact | internal/instanceconfig/envfile.go:287-360 | reading the edited file back gives the edited entries, if and only if nothing is written into a quote that the file leaves open |
| EnvEdit.OpenQuoteExample | internal/instanceconfig/envfile.go:308-318 | after a single open quoted entry no other key can be set |
| LogStore.RunKeepsLatest | internal/logs/logs.go:97-169 | after any run the live entries are the latest logged, with IDs up to the last one, within ring and budget |
| LogStore.Store.LogWithImages | internal/logs/logs.go:128-169 | the ring, byte total and image counts change as the bounded queue does |
| LogStore.Store.EvictOverBudget | internal/logs/logs.go:101-118 | the loop empties the oldest slots until the budget is kept |
| LogStore.Store.Snapshot | internal/logs/logs.go:274-289 | once round the ring gives the live entries in order |
| LogStore.Store.SetMaxBytes | internal/logs/logs.go:300-305 | a new budget takes effect at once |
| LogStore.Store.Clear | internal/logs/logs.go:292-298 | nothing is live, counted or cached, and IDs go on |
| LogStore.Store.RetainImages | internal/logs/images.go:108-127 | each image's count grows by its references |
| LogStore.Store.ReleaseImages | internal/logs/images.go:129-140 | each count shrinks by its references, and no image stays at zero |
| Embeddings.SnapshotMatches | internal/memory/embedding.go:413-427 | true exactly when both lists hold the same IDs with the same hashes |
| Embeddings.RankEmbedded | internal/memory/embedding.go:683-704 | the loop returns the ranking of the specification |
| Embeddings.RankedIsBest | internal/memory/embedding.go:683-704 | only live memories with a matching hash, by distance then ID; what is left out comes later, and only when the limit is reached |
| Embeddings.UpdatesAreNotLost | internal/memory/embedding.go:280-349 | in every run of a living runtime a pending update has an active worker, which takes up everything asked for |
| Embeddings.PublishedIsCurrent | internal/memory/embedding.go:500-530 | in every run, whenever the index is ready its fingerprint is the one in force at the latest publication and its vectors are for exactly the memories then held under lock, save those skipped |
| Embeddings.OldQueryIsHarmless | internal/memory/embedding.go:665-676 | a query that looked up an earlier publication cannot invalidate a later one |
| Embeddings.SearchReturnsLive | internal/memory/embedding.go:605-625 | every search of every run returns only memories that exist with the hash they had at the latest publication, in order, and leaves one out only when the limit is reached |
| Embeddings.EmbeddingScope.EnsureLocked | internal/memory/embedding.go:199-255 | a changed fingerprint or source makes the state of the specification and asks for work |
| Embeddings.EmbeddingScope.TakeWork | internal/memory/embedding.go:290-302 | the worker ends only when nothing is pending or the runtime is over |
| Embeddings.EmbeddingScope.InvalidateDimensions | internal/memory/embedding.go:665-676 | the index is invalidated only for its own fingerprint and generation |
| ImageCleanup.Closure | scripts/ghcr_cleanup.py:272-294 | the worklist ends on every finite graph and keeps exactly the reflexive-transitive closure; it gives up if and only if something reachable cannot be resolved |
| ImageCleanup.RetainedAreNewest | scripts/ghcr_cleanup.py:257-270 | the retained images are the ten newest unprotected commit images, or all if there are fewer |
| ImageCleanup.Plan | scripts/ghcr_cleanup.py:239-297 | there is a plan if and only if metadata and registry agree and all dependencies resolve, and it is exactly the versions outside the closure, tagged ones first |
| ImageCleanup.PlannedIsUnneeded | scripts/ghcr_cleanup.py:295-297 | a planned version is neither protected nor retained nor referred to by anything kept |
| ImageCleanup.Cleanup | scripts/ghcr_cleanup.py:239-317 | what is deleted is the plan up to the first version that has changed, the whole plan if none has, and nothing if anything else changed since planning; no deleted version is protected, retained or reachable |
| ImageCleanup.UnchangedPrefixShape | scripts/ghcr_cleanup.py:309-317 | deletion stops at the first candidate that has changed, and not before |

## Left out

- Model calls, the SQL engine, JSON, YAML, SHA-256, clocks and timers: their results are inputs.
- HTTP and WebSocket handlers, adapters, authentication and the front end: plumbing over libraries.
- Decoding of .env values by godotenv: its verdict on a line is an arbitrary input. Values are byte strings; the source replaces invalid UTF-8 inside double quotes and godotenv then rejects the line.
- EnvEdit.EditIsExact: for keys that a scanner reading `key=` finds again, and for values whose quote closes; other lines are the ones the decoder rejects.
- LaneAttempts.LaneTranscriptStaysClosed: takes the visible history as closed; what other senders and adapters put into the history is not modelled there.
- An extraction closes its own barrier after its writes, as the worker of the source does; closing it from elsewhere while it writes is not modelled.
- GroupBuffer.SessionBuffer.DropSlot: the aborted distillations, which also make the result true, and the purge of the group store are not part of the buffer; a staged message's guard is taken as open.
- The group distillation barrier is modelled on values, without a class of its own: its operations are those of the extraction barrier without reuse.
- The MCP manager is modelled on values over a class for each runtime; the explicit `SyncCatalog`, tool-name maps and saving of the configuration are not part of this model, and `Load` is only the initial state.
- The exit of `persistWorker`, which clears "pending" and "active" in separate sections, is not modelled; its generation check is.
- `SetGroupRunningSummary`, the legacy `RunWithSession` and repeated `Load`: they bypass what the protocols guard.
- Roll-back deeper than the latest summary batch: the code records only that one.
- Mutual exclusion of private compactions: a stale commit clears the flag, so overlapping ones are allowed in the model.
- SummaryReset.NoSummaryFromBeforeReset: needs roll-backs to read the summary after the last completed reset, which the code does not ensure; the exact condition is RollbackKeepsExactly.
- Endpoint ownership (`reserveEndpointsLocked`, `nextEndpointOwnersLocked`) in a copy, and validation of the journal's names: a copy that fails them aborts, and that path is modelled.
- Credential promotion is one immediate write for each credential; a missing `dialogue.yml` in a stage is modelled as a step that cannot occur.
- Creation of instances and reuse of instance IDs in DeletionStages.
- The lane's skills, memory flags and receipts; only the inputs that the lane's state holds are tracked.
- ToolTranscript: the two texts of a filled-in answer are shortened, and the content of messages is not inspected.
- History: the marker in front of a compaction's summary and the roles of messages are left out; the summary is taken as already trimmed.
- An index loaded from PostgreSQL at start-up, and scores computed there.
- Retries, back-off and reflection of the embedding worker, vectors themselves and the cosine distance: distances are real numbers, and IDs stand for strings in their order.
- Refusal to start a worker is possible only once the runtime is over.
- Media types and descriptor syntax of manifests: a manifest that `manifest_references` rejects counts as one that cannot be resolved.
- Subscribers of the log and its console output.
