# librecode: verified models of its long-running state

librecode is a terminal AI agent. This project models the parts of it that keep state over long runs or under
concurrency, and proves what they promise:

- **Context compaction** (`Planner`, `BranchPlan`, `RecentTail`, `SessionContexts`, `Compactions`, `KeptCompactions`,
  with `Text`, `Integers` and `Entries` below them). A branch is a sequence of entries. The planner picks a cut, the
  history before it is summarised, and a compaction entry that names the first kept entry is appended; later contexts
  are rebuilt from the branch.
- **Summary requests** (`Groups`, `SummaryBudget`, `Reducer`, `PlannedReductions`, `SplittingRuns`): the greedy
  packer, the token budget of a request, the repair of a badly structured summary and the bounded reducer, against
  every behaviour of the provider.
- **Checkpoint texts** (`Checkpoint`, `CheckpointTexts`, `Appendices`, `StoredSummaries`): the line scanner against a
  grammar, the pair that appends and strips deterministic appendices, and what becomes of an accepted summary when it
  is stored.
- **Nested tool events** (`ToolEvents`): the depth-first merge, on arbitrary and possibly cyclic parent links.
- **In-process protocols**, as state machines over interleaved steps: steering inboxes (`Steering`, `SteeringRuns`,
  `SteeringThreads`), the per-session operation coordinator (`SessionOperations`), cancellation against start
  (`TaskCancellation`), lease renewal against recovery (`Timestamps`, `TaskLease`), and the one replay after a context
  overflow (`OverflowRecovery`).
- **The completion outbox** (`Utf8`, `CompletionText`, `CompletionOutbox`, `CompletionRepositories`): projection,
  quotas, gap-free sequence numbers, prefix consumption, and the envelope's writer and reader.
- **Persistence budgets** (`PersistenceBudget`).

Code that updates objects in place is modelled by classes and loops, which are proved against value functions; lemmas
then state what those functions promise. The classes of the steering and session protocols record the steps they take,
and are proved to be in the state of that execution. A state machine has one function per step, and an execution is
the fold of arbitrary events, so a lemma about executions speaks of every interleaving. Steps that are not enabled
leave the state as it is. Provider replies, redactors, clocks and the database's own IDs are parameters or events.

## What the models show about the code

- `Partition` refuses every history whose first message does not start a turn, at every budget
  (`Groups.OrphanedHistoryIsRefused`). What a plan summarises begins with the first history entry from the boundary
  on, which after a compaction is the entry that it kept first (`BranchPlan.PlanStartsAtBoundary`,
  `PlannedReductions.PreviousCutDecides`). So a compaction whose first kept message does not start a turn makes a
  truncated summary of the next one final (`PlannedReductions.ReducedAfterCompaction`);
  `PlannedReductions.SplitTurnIsNeverReduced` gives such a run, for every accepted summary. Planner and packer tell
  turns differently: a split turn may be continued by a command or a branch summary, with which a turn of the packer
  starts (`PlannedReductions.TurnsTheyTell`, `SplittingRuns.SplitTurnMayStartTurn`).
- An extension may choose a compaction entry of the planned tail to be kept first. The planner's fold and the store's
  context then send the model different messages (`KeptCompactions.ReconstructionsMayDiffer`), and they agree after
  every other compaction (`Compactions.AgreeExactlyUnlessCompactionKept`).
- A summary that quotes an appendix heading may pass every check of the reducer, and is cut there before the last
  validation. It survives exactly when the ninth heading and a bullet under it come before the quotation
  (`StoredSummaries.AcceptableIsAccepted`): one that quotes early is refused however it is stored, one that quotes
  behind that bullet is accepted without the quotation (`StoredSummaries.QuotedHeadingIsRefused`,
  `StoredSummaries.LateQuotationIsAccepted`).
- Two errors never occur: the planner's "no model-facing history was selected" (`BranchPlan.PlanBranch`) and the
  packer's empty chunk (`Groups.Partition`).
- Lease times are compared as texts, and trailing zeros of the fraction are not stored. Two times in the same second
  are compared the wrong way round exactly when one printed fraction is a proper prefix of the other
  (`Timestamps.TextOrder`), so a recovery can take a lease that its owner still counts on, less than a second early
  (`TaskLease.RecoveryTakesValidLeaseExactlyWhenMisordered`, `TaskLease.ValidLeaseTaken`).
- A cancellation is lost exactly when recovery took the agent task between its claim and the worker's re-read and the
  run then goes on; every other recovery leaves it effective (`TaskCancellation.NoLostCancellation`,
  `TaskCancellation.EffectiveUnlessRecovered`, `TaskCancellation.RecoveryLosesCancellation`).
- Nested tool events whose parent is unknown keep their input order, not their sequence order
  (`ToolEvents.MergeNestedToolEvents`, `RootsInOrder`). Call IDs need not be unique for the ordering to hold.
- Of the six reasons to refuse an overflow recovery the runtime gives only three: the class, a stale identity, and
  dispatched tools. What happened before the decision determines it: the request is replayed exactly when an overflow
  was the last word of its attempts and the replay is safe. A lineage that advanced shows as a stale identity first
  (`OverflowRecovery.Prompt.CompleteWithProviderOverflowRecovery`).
- A run that has not left finds its own inbox whenever it looks, so its drains never fail, and its restores fail only
  for the capacity (`SteeringThreads.Threads.Drain`, `SteeringThreads.Threads.Restore`).

## Model

| member | source | states |
|---|---|---|
| Planner.EffectiveModelFacingEntries | internal/compaction/plan.go:434-462 | The incremental reconstruction: the loop computes the fold in which each compaction replaces everything before its first kept entry, and an unknown first kept entry keeps nothing |
| Planner.BranchTokens | internal/compaction/plan.go:418-432 | The token count of a branch is that of the messages its effective entries replay |
| Planner.PreviousCompactionBoundary | internal/compaction/plan.go:201-219 | The newest compaction's summary, and the index of its first kept entry or the next index when that entry is unknown |
| Planner.FindCutPoint | internal/compaction/plan.go:237-282 | The cut that the backward scan finds equals its specification over the reaching index and the history entries, with the turn it splits |
| Planner.TailTokensShrink | internal/compaction/plan.go:237-319 | The tail of a later entry never counts more tokens |
| Planner.ValidCutPoints | internal/compaction/plan.go:284-294 | The cut points are exactly the history entries from the start on, increasing |
| Planner.FindTurnStart | internal/compaction/plan.go:322-330 | The nearest turn start at or before an entry and not before the boundary, or none |
| RecentTail.RecentTailTarget | internal/contextwindow/recent_tail.go:16-29 | The target is positive, keeps less than a third of the current tokens below it, and respects a third of the window |
| RecentTail.CompactionTailTokens | internal/assistant/context_compaction.go:160-175 | The runtime's target keeps both bounds and a positive configured maximum |
| BranchPlan.SummaryPayload | internal/compaction/plan.go:172-199 | Messages, IDs and split-turn text of the history before the cut, for split and whole turns |
| BranchPlan.PlanBranch | internal/compaction/plan.go:57-112 | The plan or the reason why there is none, in the source's order; the last reason never occurs |
| BranchPlan.PlanBranchFromFirstKept | internal/compaction/plan.go:114-165 | The plan from an entry that an extension chose, or the reason why there is none; the last reason never occurs |
| BranchPlan.ChosenInTailIsPlanned | internal/assistant/context_compaction_lifecycle.go:119-126 | Every entry of the planned tail may be chosen: it always gives a plan, which keeps no more than that tail |
| BranchPlan.PlanAdvances | internal/compaction/plan.go:57-165 | Every plan, the planner's own or one from a chosen entry, moves the boundary strictly forward and summarises exactly the history between; it keeps a history entry first unless a compaction was chosen |
| BranchPlan.RetainedTailIsTight | internal/compaction/plan.go:237-319 | Content after the first kept entry is below the target; with that entry it reaches the target unless only the entry at the boundary was summarised |
| BranchPlan.RetainedTailUnderAThird | internal/assistant/context_compaction.go:160-175 | With the runtime's own target, that content is less than a third of the branch |
| BranchPlan.SomethingSelected | internal/compaction/plan.go:84-94 | A cut past the first history entry always leaves messages to summarise |
| BranchPlan.PlanStartsAtBoundary | internal/compaction/plan.go:172-199 | What a plan summarises starts with the first history entry from the boundary on, whether or not a turn is split |
| SessionContexts.BuildContext | internal/database/session_store.go:184-223 | A blank leaf is refused; otherwise the walk builds the specified context, or stops at the first entry whose data it needs and cannot decode |
| SessionContexts.SessionContext.ApplyEntryToContext | internal/database/session_store.go:680-745 | One entry's effect on messages, thinking level and usage anchor, or its failure to decode |
| SessionContexts.SessionContext.ApplyCompactionWithTail | internal/database/session_store.go:747-811 | A compaction resets the messages to its summary, clears the usage anchor and replays the retained tail |
| SessionContexts.ContextIsLastSummaryAndTail | internal/database/session_store.go:184-223 | On every branch the context is the last summary followed by the entries from its first kept one: earlier compactions have no effect |
| SessionContexts.UsageAnchorIsCurrent | internal/database/session_store.go:708-778 | The usage anchor names the newest assistant message with usage since the last compaction, at its place in the context |
| Compactions.RunsAreGood | internal/compaction/plan.go:57-165 | Every run of appends and compactions, extensions' choices included, keeps distinct IDs and first kept IDs that resolve to increasing history entries, while no extension chooses a compaction |
| Compactions.HistoryIsTiled | internal/compaction/plan.go:57-112 | After every run the summarised IDs, in order, followed by the retained history are the whole history |
| Compactions.SummarizedExactlyOnce | internal/compaction/plan.go:57-112 | Each history entry is in exactly one compaction's summarised IDs or verbatim at its own place in the rebuilt context, never both, never neither; and that context holds nothing else but the summary |
| Compactions.CutsStrictlyIncrease | internal/compaction/plan.go:201-219 | Every step either keeps the boundary or moves it strictly forward, and records what it summarised |
| Compactions.ContextCanBeBuilt | internal/database/session_store.go:184-223 | On every reachable branch the context can be built |
| Compactions.EffectiveIsSummaryAndTail | internal/compaction/plan.go:434-462 | The incremental fold has the closed form: last summary, then the history from its first kept entry |
| Compactions.ReconstructionsAgree | internal/compaction/plan.go:434-462 | After every run the fold and the facing part of the rebuilt context replay the same messages |
| Compactions.AgreeExactlyUnlessCompactionKept | internal/compaction/plan.go:406-462 | After such a run one more compaction leaves fold and context agreeing exactly when the entry that it keeps first is not a compaction |
| KeptCompactions.ReconstructionsMayDiffer | internal/assistant/context_compaction.go:177-208 | For every accepted summary a run that ends with the extension's choice of a compaction in the planned tail, after which they differ |
| Groups.GroupsFromMessages | internal/compaction/groups.go:31-58 | The loop's groups are the specified ones |
| Groups.GroupsPreserveMessages | internal/compaction/groups.go:31-58 | Grouping loses nothing, cuts exactly before turn starts and measures what it holds |
| Groups.ValidateGroups | internal/compaction/groups.go:113-132 | The first unpackable group and its reason, or none exactly when all are packable |
| Groups.PackChunk | internal/compaction/groups.go:134-151 | The longest run of groups from a start that fits |
| Groups.Partition | internal/compaction/groups.go:75-111 | Succeeds exactly when an admissible contiguous partition exists, with the fewest chunks possible; every refusal is explained, and an empty chunk is impossible |
| Groups.ChunksSendEverything | internal/compaction/groups.go:75-111 | The chunks together send every message exactly once, in order |
| Groups.SpanMeasuresMessages | internal/compaction/groups.go:134-151 | A chunk's token count is the estimate of the messages it sends |
| Groups.OrphanedHistoryIsRefused | internal/compaction/groups.go:113-132 | Planned history is packable exactly when it begins with a turn and every turn costs something and fits |
| Entries.ImageCostsItsTiles | internal/contextwindow/tokens.go:72-92 | An image of a valid size costs its tiles within the bounds, although the product is never formed above the maximum; any other costs the maximum |
| SummaryBudget.OutputLimitIsLargest | internal/contextwindow/summary_budget.go:22-51 | The limit is the largest allowance under four fifths of the reserve and the model's limit, and is refused exactly when the smallest useful one is not allowed |
| SummaryBudget.RuntimeLimitIsLargest | internal/assistant/context_summary.go:25-40 | The runtime's limit is positive and the largest allowance that the configuration permits; the configuration never decides whether there is one |
| SummaryBudget.PreflightMeansItFits | internal/contextwindow/summary_budget.go:84-130 | A budget passes exactly when the whole demand fits the window with room for a reply; the fixed defect means no history would fit |
| SummaryBudget.AvailableIsWhatPasses | internal/contextwindow/summary_budget.go:106-108 | The available history tokens are exactly the histories that pass |
| Reducer.CompleteSummary | internal/assistant/context_summary.go:59-107 | One attempt and at most one repair, against the specification over the conforming texts |
| Reducer.ReplyIsSummaryExactly | internal/assistant/context_summary.go:161-200 | Which replies become summaries, and which count as truncated, both directions |
| Reducer.SummaryPromises | internal/assistant/context_summary.go:59-159 | At most two requests, none when the budget does not pass; a returned summary conforms, is visible and keeps the output limit; a truncated one had passed its budget |
| Reducer.PartitionReductionGroups | internal/assistant/context_compaction.go:564-587 | Splits exactly when a partition exists and needs two chunks, or two are forced and possible |
| Reducer.SummarizeReductionChunks | internal/assistant/context_compaction.go:589-619 | One summary per chunk in order until the first failure, each as one user message group |
| Reducer.CompleteReducedSummaryLevel | internal/assistant/context_compaction.go:511-562 | Terminates for every provider and takes a course that the specification allows |
| Reducer.ReductionIsBounded | internal/assistant/context_compaction.go:511-562 | From any depth: bounded rounds, 32 summaries a round and one more, two requests a summary, an acceptable result |
| Reducer.ReductionFromTheTop | internal/assistant/context_compaction.go:502-562 | At most four rounds and 4 * 32 + 1 summaries |
| Reducer.EveryChunkPasses | internal/assistant/context_compaction.go:511-619 | Every summary that a reduction asks for passes its own budget |
| Reducer.RuntimeRequestsPass | internal/assistant/context_compaction.go:434-619 | With the runtime's own reply limit the reduction of a plan asks only for summaries that pass |
| Reducer.RoundSendsEverything | internal/assistant/context_compaction.go:564-619 | A round sends every message of its groups exactly once, in order |
| Reducer.TruncatedNeverRecurses | internal/assistant/context_compaction.go:434-562 | Entered from a truncated summary the reducer never recurses: two halves and one final request at most |
| Reducer.SummarizeCompaction | internal/assistant/context_compaction.go:434-481 | At most eight requests; the stored text strips to the accepted summary's stripped text; failures are those of the first summary or of the reduction |
| PlannedReductions.PlannedReduction | internal/assistant/context_compaction.go:434-587 | A planned, truncated summary is reduced exactly when the first history entry from the boundary on starts a turn and two turns are summarised; otherwise nothing more is sent |
| PlannedReductions.PreviousCutDecides | internal/compaction/plan.go:201-219 | After a compaction in a run that entry is the one which the compaction kept first |
| PlannedReductions.TurnsTheyTell | internal/compaction/groups.go:153-155 | The packer starts a turn exactly at the planner's turn starts, at commands and at summaries replayed as user messages |
| PlannedReductions.ReducedAfterCompaction | internal/assistant/context_compaction.go:434-587 | After a compaction a truncated summary is reduced exactly when the entry kept first is one of these and two turns are summarised |
| SplittingRuns.SplitTurnMayStartTurn | internal/compaction/plan.go:322-339 | A run in which the planner splits a turn at an entry that starts one for the packer |
| PlannedReductions.SplitTurnIsNeverReduced | internal/assistant/context_compaction.go:434-587 | A run that, with every accepted summary, plans a compaction of two groups which is never reduced |
| Checkpoint.ValidateCheckpoint | internal/compaction/checkpoint.go:48-130 | Accepts a text exactly when its lines conform: the nine headings in order, each with a bullet, nothing visible before, nothing reserved |
| Checkpoint.ConformingIsVisible | internal/compaction/checkpoint.go:48-76 | A conforming text is never blank |
| Appendices.StripDeterministicState | internal/compaction/appendices.go:457-472 | The stripper computes the specified cuts |
| Appendices.AppendDeterministicState | internal/compaction/appendices.go:355-393 | Stripping the result gives the stripped summary back; the result is that summary and, in order, a section for each kind of record with as many of the newest as fit |
| Appendices.StripUndoesAppend | internal/compaction/appendices.go:355-472 | For every summary and appendix text, strip undoes append |
| Appendices.StripCleans | internal/compaction/appendices.go:457-472 | A stripped summary holds no appendix heading and is trimmed |
| Appendices.AppendBoundedSection | internal/compaction/appendices.go:411-455 | A section shows as many of the newest records as fit together with the marker that counts the rest, and the estimates stay within the limit |
| Appendices.KeepNewest | internal/compaction/appendices.go:411-437 | The longest newest suffix that fits |
| CheckpointTexts.CutOffConforms | internal/compaction/checkpoint.go:48-130 | What is left of a conforming text whose end was cut off conforms exactly when the ninth heading and a bullet under it are left |
| StoredSummaries.AcceptableIsAccepted | internal/assistant/context_compaction.go:216-226 | The last validation accepts a summary that the reducer accepted exactly when its ninth heading and a bullet under it come before any appendix heading that it quotes |
| StoredSummaries.SomeSummaryIsAccepted | internal/assistant/context_compaction.go:216-226 | There are summaries that it accepts |
| StoredSummaries.QuotedHeadingIsRefused | internal/assistant/context_compaction.go:216-226 | A summary that the reducer accepts and that this validation refuses however it is stored: it quotes a heading in its first section |
| StoredSummaries.LateQuotationIsAccepted | internal/assistant/context_compaction.go:216-226 | A summary that quotes a heading in its last section and is accepted however it is stored |
| CheckpointTexts.SkeletonConforms | internal/compaction/checkpoint.go:48-130 | The nine headings with one plain bullet each conform |
| ToolEvents.SiblingsAreStable | internal/assistant/runtime_persist.go:205-243 | The siblings of a parent are its children, in stable sequence order |
| ToolEvents.NestedToolEventMerger.AppendNested | internal/assistant/runtime_persist.go:262-272 | One visit: terminates on cycles, keeps the order good, and appends the event unless it is being visited |
| ToolEvents.NestedToolEventMerger.AppendChildren | internal/assistant/runtime_persist.go:256-260 | All children of a parent are appended or being visited afterwards; all appended when links are acyclic |
| ToolEvents.MergeNestedToolEvents | internal/assistant/runtime_persist.go:163-185 | Terminates on every input; every event exactly once, outer order kept, nested before the outer events they name, roots last; with acyclic links nested before their parents and siblings in stable sequence order |
| ToolEvents.AppendedFromAbove | internal/assistant/runtime_persist.go:163-185 | With acyclic links the last pass finds nothing left |
| Steering.SteeringInbox.Accept | internal/assistant/steering_inbox.go:205-224 | The draft is appended, or refused for the run, the closing or the capacity, in this order |
| Steering.SteeringInbox.Drain | internal/assistant/steering_inbox.go:226-242 | Returns and removes the waiting drafts of an open inbox of this run |
| Steering.SteeringInbox.Restore | internal/assistant/steering_inbox.go:244-270 | Drafts go back in front, or are refused |
| Steering.SteeringInbox.Close | internal/assistant/steering_inbox.go:272-289 | Returns the waiting drafts and closes the inbox for good |
| Steering.SteeringInboxRegistry.Register | internal/assistant/steering_inbox.go:55-72 | A session gets a fresh open inbox unless it has one |
| Steering.SteeringInboxRegistry.SettleIfEmpty | internal/assistant/steering_inbox.go:89-119 | Closes and removes an inbox exactly when it is open, of this run and empty |
| Steering.SteeringInboxRegistry.DrainFinal | internal/assistant/steering_inbox.go:136-169 | Settles an empty inbox or drains it, in one step |
| Steering.RestoreUndoesDrain | internal/assistant/steering_inbox.go:226-270 | A restore within the capacity puts the drained drafts back before later ones |
| SteeringThreads.Threads.Register | internal/assistant/steering_inbox.go:55-72 | The registration of a new run is the protocol's step, on the objects |
| SteeringThreads.Threads.Accept | internal/assistant/steering_inbox.go:74-84 | The second half of a steering request is the protocol's step, whatever happened since the inbox was found |
| SteeringThreads.Threads.FindOwn | internal/assistant/steering_inbox.go:121-181 | A run that has not left finds its own inbox in the registry, before a drain and before a restore |
| SteeringThreads.Threads.Drain | internal/assistant/steering_inbox.go:121-131 | A run that has not left drains its own inbox: the step never fails and hands out what waits |
| SteeringThreads.Threads.DrainFinal | internal/assistant/steering_inbox.go:136-169 | The last checkpoint settles the run or drains once more |
| SteeringThreads.Threads.Restore | internal/assistant/steering_inbox.go:171-181 | A restore puts the failed drafts in front, or gives exactly these up for the capacity |
| SteeringThreads.Threads.Close | internal/assistant/steering_inbox.go:183-203 | Closing returns everything that was accepted up to then |
| SteeringRuns.SteeringIsConserved | internal/assistant/round_persistence.go:82-192 | In every interleaving, every accepted draft is settled, in flight or waiting, exactly once and in acceptance order; capacity is kept |
| SteeringRuns.FinishedRunsSettleEverything | internal/assistant/round_persistence.go:82-192 | When a run is over, each accepted draft has exactly one fate, in order |
| SteeringRuns.RestoreRefusedExactlyAtCapacity | internal/assistant/steering_inbox.go:171-270 | A restore is refused exactly when drafts accepted since the drain and those to restore exceed the capacity |
| SteeringRuns.OnlyRestoresLose | internal/assistant/round_persistence.go:139-192 | No other step loses a draft |
| SteeringRuns.NothingAcceptedAfterClose | internal/assistant/steering_inbox.go:205-289 | A settled or closed inbox stays closed and empty, and nothing is accepted any more |
| SessionOperations.SessionOperationCoordinator.Enter | internal/assistant/session_operations.go:34-43 | Finds or creates the session's slot and takes one reference: the protocol's step, on the objects |
| SessionOperations.SessionOperationCoordinator.Take | internal/assistant/session_operations.go:45-54 | Sends the token exactly when the channel has room |
| SessionOperations.SessionOperationCoordinator.Release | internal/assistant/session_operations.go:49-53 | A holder finds the token in the channel and takes it out |
| SessionOperations.SessionOperationCoordinator.ReleaseReference | internal/assistant/session_operations.go:65-76 | Gives one reference back and deletes the slot exactly with the last one; the table never holds another slot of the session |
| SessionOperations.CoordinatorIsGood | internal/assistant/session_operations.go:26-76 | In every interleaving a slot's references are its holders, waiters and pending releases, and its token is there exactly while one call holds it |
| SessionOperations.AtMostOneHolder | internal/assistant/session_operations.go:26-76 | At most one call holds a session, even across deletion and re-creation of its slot |
| SessionOperations.TableHoldsWhatIsUsed | internal/assistant/session_operations.go:65-76 | A session is in the table exactly while some call owns a reference |
| SessionOperations.OneSlotPerSession | internal/assistant/session_operations.go:34-43 | All calls of a session that own a reference share one slot |
| SessionOperations.NobodyIsStuck | internal/assistant/session_operations.go:45-62 | A release never waits, and a waiter may proceed when nobody holds its session |
| CompletionText.TruncateBytes | internal/database/completion_repository.go:362-374 | The walk back to a rune start ends at the longest prefix that fits, and there is only one |
| CompletionText.RuneStartsAreBoundaries | internal/database/completion_repository.go:366-371 | Rune starts are exactly the ends of encoded prefixes |
| CompletionText.DeliveryText | internal/database/completion_repository.go:345-394 | Whatever bytes the redactor returns, the delivered text is the longest prefix of 8192 bytes of their repaired and sanitised text, with truthful metadata |
| CompletionText.CleanTextIsKept | internal/database/completion_repository.go:379-394 | A valid text of safe characters is delivered unchanged |
| Utf8.FirstCharExactly | internal/database/completion_repository.go:379-381 | A character is decoded exactly when the bytes begin with its encoding |
| Utf8.OnlyInvalidIsChanged | internal/database/completion_repository.go:379-381 | The repair changes a text exactly when it is not valid UTF-8 |
| CompletionText.SetCompletionOutcome | internal/database/completion_repository.go:247-270 | Summary or error, by state, code, text and redactor failure |
| CompletionText.CompletionEnvelope | internal/database/completion_repository.go:215-245 | The stored record carries a summary or an error exactly when the outcome has one to show, unless its envelope is too large: then it is bare |
| CompletionText.ReaderAcceptsWriter | internal/database/completion_repository.go:478-547 | For every terminal source and redactor the stored record passes the reader exactly when owner and event are named and the sequence is positive |
| CompletionOutbox.OutboxIsGood | internal/database/completion_repository.go:155-343 | Over every run, with a redactor of its own for each writing: one delivery per owner and event, sequence numbers 1..n, a consumed prefix tied to exactly one entry each and replayed in order, quotas and stored sizes kept |
| CompletionOutbox.ProjectKeepsGood | internal/database/completion_repository.go:155-343 | Every projection keeps these invariants, whatever its outcome |
| CompletionOutbox.ConsumeKeepsGood | internal/database/completion_repository.go:599-754 | Every drain keeps these invariants, whatever its outcome |
| CompletionOutbox.MarkedPrefix | internal/database/completion_repository.go:712-754 | A drain extends the consumed prefix by exactly the drained rows |
| CompletionOutbox.PrefixIsLowest | internal/database/completion_repository.go:604-611 | A drain takes the pending rows with the lowest sequence numbers |
| CompletionOutbox.HeadCanBeDrained | internal/database/completion_repository.go:577-710 | The oldest pending delivery can be drained alone exactly when owner and event are named and its envelope keeps the limit, which only one without texts can exceed |
| CompletionRepositories.CompletionRepository.ProjectTerminalSource | internal/database/completion_repository.go:155-178 | The steps of a projection make exactly the specified change |
| CompletionRepositories.CompletionRepository.InsertCompletion | internal/database/completion_repository.go:308-343 | Advances the owner's sequence and inserts the row with it |
| CompletionRepositories.CompletionRepository.SettleCompletionRows | internal/database/completion_repository.go:712-754 | Ties every row to the entry and marks exactly these rows; the affected count always agrees |
| CompletionRepositories.CompletionRepository.ConsumeDeliveries | internal/database/completion_repository.go:577-754 | The steps of a drain make exactly the specified change or none |
| CompletionRepositories.CompletionRepository.RepairSources | internal/database/completion_repository.go:796-830 | Projects in order, counts what it inserted, and rolls back on the first failure |
| TaskCancellation.NoLostCancellation | internal/agenttask/service.go:514-601 | When a cancel call that hit completes, the run is stopped, over, or will be refused before it starts, exactly unless recovery took the agent task before the re-read and the run goes on |
| TaskCancellation.EffectiveUnlessRecovered | internal/agenttask/service.go:840-882 | An effective cancellation stays effective in every later interleaving, with the same exception |
| TaskCancellation.CancellationIsGood | internal/agenttask/service.go:707-902 | The invariant of every interleaving of cancels, worker, rejected and failing loads, other writers and recovery |
| TaskCancellation.NeverStarts | internal/agenttask/service.go:840-882 | A run not started when the cancellation took effect starts later only after a recovery between its claim and its re-read |
| TaskCancellation.RecoveryLosesCancellation | internal/agenttask/service.go:864-882 | The exception is reachable: a concrete run |
| Timestamps.TextOrder | internal/database/repository_helpers.go:87-89 | Stored texts order times correctly except exactly when both fall into one second and one printed fraction is a proper prefix of the other |
| Timestamps.FractionOrder | internal/database/repository_helpers.go:87-89 | How printed fractions compare |
| Timestamps.SecondsTextOrder | internal/database/repository_helpers.go:87-89 | Up to the second, texts order as times do, over the whole calendar |
| TaskLease.LeasesAreGood | internal/agenttask/service.go:904-1016 | The invariant of every mix of successful, delayed, failed and committed-but-failed renewals |
| TaskLease.DeadlineNeverExceedsLease | internal/agenttask/service.go:904-1016 | The heartbeat's deadline is never later than the stored lease |
| TaskLease.RecoveryTakesValidLeaseExactlyWhenMisordered | internal/database/task_repository.go:627-685 | A recovery takes a lease that its owner counts on exactly when the texts are misordered, and then less than a second early |
| TaskLease.RenewalIsRefusedExactlyWhenMisordered | internal/database/task_repository.go:284-311 | A renewal before the lease ends is refused exactly when the texts are misordered |
| TaskLease.ValidLeaseTaken | internal/database/task_repository.go:627-685 | Such a recovery is reachable with a lease of thirty seconds |
| OverflowRecovery.OverflowNeedsEvidence | internal/assistant/response_classification.go:94-184 | Only a structured error or documented metadata counts as overflow, never a reply at its limit |
| OverflowRecovery.Prompt.CompleteWithRetry | internal/assistant/runtime_model.go:333-415 | At most the configured attempts, and only the last can have dispatched a tool; the outcome is a cancellation exactly when the prompt was cancelled where an attempt would have followed |
| OverflowRecovery.Prompt.RecoverProviderContextOverflow | internal/assistant/context_overflow_compaction.go:104-182 | One replay after compaction and rebuild, or none; a second overflow fails |
| OverflowRecovery.Prompt.CompleteWithProviderOverflowRecovery | internal/assistant/context_overflow_compaction.go:49-102 | At most one recovery and twice the attempts, no attempt after any earlier one dispatched a tool; a replay exactly when an overflow ended the attempts and it is safe, and otherwise one of three reasons, each with what it means |
| PersistenceBudget.PromptPersistenceTimeout | internal/assistant/runtime_persist.go:461-486 | The ideal timeout capped at the largest duration, with every intermediate value in range |
| PersistenceBudget.AssistantBundleWriteCount | internal/assistant/runtime_persist.go:488-501 | Counts the entries of a successful bundle: visible thinking, tool results and the response |
| PersistenceBudget.Session.AppendAssistantSideEffects | internal/assistant/runtime_persist.go:54-103 | Appends the trimmed visible thinking, then the tool results, as one chain; a failure leaves a prefix of it and reports where it ends |
| PersistenceBudget.Session.PersistAssistantBundle | internal/assistant/runtime.go:458-485 | Success appends exactly the counted entries with their kinds and contents, one chain that ends in the response; failure appends a proper prefix |

## Left out

- Planner.BranchTokens: the default counter for a missing one is not modelled; every counter is a parameter.
- BranchPlan.PlanBranch: the record collections (file operations, validation, active work) of a plan are not part of
  it.
- BranchPlan.PlanBranchFromFirstKept: nor are those of this plan.
- Compactions.RunsAreGood: one branch at a time; switching branches, deleting sessions and entries, and the validation
  of the compacted budget before an append are left out. Nothing is said of a run after an extension has chosen a
  compaction, where the two reconstructions already differ.
- SessionContexts.BuildContext: the branch up to the leaf is a parameter, and usage is a decoded number.
- Reducer.SummarizeCompaction: operation IDs, usage diagnostics and error wrapping are left out; the retries inside
  one provider call are one reply.
- SummaryBudget.PreflightMeansItFits: sums of budget components are unbounded integers; only the output limit is
  modelled with the machine's integer width.
- SteeringThreads.Threads.Register: a run ID is used for one run only, as it is the ID of a new user entry.
- SteeringRuns.SteeringIsConserved: persisting the pending provider rounds is one step that succeeds or fails; buffers
  of image data are values, so their aliasing is not captured.
- SessionOperations.CoordinatorIsGood: the early return for a context that is already cancelled takes no slot and is
  left out; fairness among waiters is the runtime's.
- CompletionOutbox.OutboxIsGood: JSON is a size function and a round trip; deleting sessions or their child tasks,
  foreign keys and the selection query of a repair are left out, a repair takes any candidates.
- TaskLease.LeasesAreGood: one agent task and its one worker, since a claimed one is never queued again; nothing
  happens after the year 9999; the retry delays and the heartbeat's ticker are arbitrary elapsed time.
- TaskCancellation.NoLostCancellation: the recorded source of a cancellation is left out, and the finishing transition
  is one step to a terminal state; a late cancellation may still end in success.
- OverflowRecovery.OverflowNeedsEvidence: two percent of the output limit is computed exactly, without floating-point
  rounding.
- OverflowRecovery.Prompt.CompleteWithProviderOverflowRecovery: automatic compaction before the first attempt, hooks
  and events are left out.
- PersistenceBudget.Session.PersistAssistantBundle: lifecycle events between appends are left out.
- The SQL engine, JSON encoding, UUIDs, hashing, providers, tools and Lua hooks.
- Skills, the agent catalogue, configuration, authentication, the command line and the terminal interface.
