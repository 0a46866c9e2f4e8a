# Verified model of the Agent runtime

A Dafny model of one Agent's durable history and of the machinery around it:

- an append-only ledger whose projection is the Agent's whole visible context, the commit and
  compaction coordinators that keep a live copy of that context, and the text form of summaries
  (`Messages`, `Ledger*`, `Compaction*`, `Summary*`, `Section*`, `BoundedLoop`, `AtomicUnits`,
  `SnapshotIntegrity`);
- mailbox attention and the disclosure of queued mailbox rows (`Attention`, `CompactionAttention`,
  `LedgerAttention`, `MailboxKeys`, `Disclosure*`);
- one-shot schedules that survive a crash between any two writes (`Schedule*`);
- the lane scheduler, the per-key write lock, the loop policy and the tool round
  (`TaskScheduler*`, `WriteChain`, `LoopPolicy`, `ReactKernel`);
- memory entries, their references to one another and their markdown form (`Memory*`).

Code that computes is modelled by functions. Code that changes state is modelled by methods,
and by classes where the program has objects: each method is proved equal to a step function on
the state it changes, and the lemmas are about runs of those steps. `Prelude` and `Text` hold
sums, distinctness, trimming, splitting and searching.

What the proofs show that reading one function would not:

- The live messages equal the replay of the ledger through the held head in every run, but full
  replay itself survives a commit only if its call ids are new to the *permanent* ledger. The
  context checks visible ids only, and only after the rows are durable
  (`LedgerReplay.CommitReplays`). A tool round, a reset by the host itself and the same round
  again is a run that does it, from the start or from any other state
  (`LedgerReuse.ReuseAfterReset`, `LedgerReuse.ReusedIdBreaksReplay`).
- A compaction keeps the attention state exactly when the previous compaction's state is below
  what the active messages say; `docs/AGENT_CONTEXT.md` line 44 says attention state goes into
  the compaction payload, and the code takes it from the compressed messages alone
  (`CompactionAttention.CompactionKeepsAttention`). The second of two resets forgets every mailbox
  that nobody mentioned in between (`LedgerAttention.SecondResetForgets`).
- A cancelled schedule stays silent exactly when no half-failed firing had left it pending
  (`ScheduleDelivery.CancelIsFinal`); from any due schedule a run leads there
  (`ScheduleDelivery.CancelledWakeArrives`).
- A printed summary parses back exactly when no body starts like a heading and no split-turn
  marker has formed (`SummaryText.Reparse`). Both happen to summaries the parser accepts: it trims
  an indented line into a heading, and a line of blanks into half of a marker
  (`SummaryDrift.IndentedHeadingDrifts`, `SummaryDrift.BlankLineDrifts`).
- When rows arrive in order, the rows disclosed and on the way are the rows that arrived exactly
  when no commit failed while a newer row of one of its mailboxes was queued: such a failure
  requeues the batch behind the newer row, and the overtaken row is dropped for good
  (`DisclosureRuns.NothingSkipped`, `DisclosureRuns.OvertakenRowIsSkipped`).
- A memory file gives its entries back exactly when every content is there and holds no end marker,
  and no header value holds `-->` or a line separator (`MemoryFile.FileRoundTrip`). The operations
  that write entries look for no marker: content is cut at the marker (`MemoryFile.ContentIsCut`),
  and a topic title like `项目-->上线计划`, which becomes an alias, makes every later parse of its
  file fail (`MemoryUnreadable.AliasBreaksFile`, `MemoryUnreadable.TitleBreaksFile`).

## Model

| member | source | states |
|---|---|---|
| AtomicUnits.BuildAtomicUnits | src/agent/compaction.ts:406-447 | the scan succeeds exactly on sequences of complete units, and its units concatenate to the input with the right head roles and token sums |
| AtomicUnits.DecompositionUnique | src/agent/compaction.ts:406-447 | any reading of the messages as complete units is the one the scan finds |
| AtomicUnits.GrammarCut | src/agent/compaction.ts:406-447 | a sequence of whole units may be cut before any message that is not a tool result |
| SnapshotIntegrity.ValidateMessages | src/agent/snapshot-integrity.ts:109-206 | the index-skipping pass reports nothing exactly when the messages are whole units, call ids are all distinct, ids and names are usable, and tool results that open like JSON are JSON |
| SnapshotIntegrity.CompareRecognisers | src/agent/snapshot-integrity.ts:109-193 | the validator accepts exactly when the unit scan succeeds, call ids are distinct and fields are usable |
| SnapshotIntegrity.WellFormedCut | src/agent/snapshot-integrity.ts:125-170 | both parts of an accepted sequence cut before a non-tool message are accepted and share no call id |
| CompactionCut.SelectRawBoundary | src/agent/compaction.ts:469-479 | the backward token loop computes the raw boundary |
| CompactionCut.RawBoundaryLargest | src/agent/compaction.ts:469-479 | the raw boundary is the largest index whose suffix reaches the budget, or 0 |
| CompactionCut.FindPreferredUserBoundary | src/agent/compaction.ts:481-495 | the two search loops find the last user unit at or below the raw boundary, unless it is unit 0, and then the first one after it |
| CompactionCut.SelectAtomicBoundary | src/agent/compaction.ts:449-467 | the selection equals its specification for any units and budget |
| CompactionCut.BoundaryFacts | src/agent/compaction.ts:449-495 | a preferred boundary starts a user turn; a latest turn that fits the budget is not cut; a cut off a user turn lies inside the latest turn |
| CompactionPlan.PrepareCompaction | src/agent/compaction.ts:116-221 | the preparation equals its specification: every refusal, the reset and the cut |
| CompactionPlan.CutTheorem | src/agent/compaction.ts:179-221 | a ready cut splits the active messages into two non-empty runs of whole units, never keeps a tool result first, is a split turn exactly when it does not keep a user message first, and gives each summarised message to history or to the split prefix |
| CompactionPlan.ResetTheorem | src/agent/compaction.ts:155-175 | a behavioural reset summarises every active message and keeps none |
| CompactionPlan.TurnProtection | src/agent/compaction.ts:449-467 | the latest user turn is cut only if its own tokens exceed the budget |
| CompactionPlan.SelectCompactionCacheBreakpointMessageIndex | src/agent/compaction.ts:91-109 | the breakpoint is the last message before the selected boundary |
| CompactionPlan.BreakpointCuts | src/agent/compaction.ts:91-109 | the breakpoint leaves whole units on both sides |
| CompactionPlan.BreakpointIsCut | src/agent/compaction.ts:91-109 | over the same messages the breakpoint is where the next compaction would cut |
| Ledger.AssertStrictlyIncreasingIds | src/agent/agent-ledger-projection.ts:471-479 | comparing neighbours decides that all ids rise |
| Ledger.ValidateCompactionChain | src/agent/agent-ledger-projection.ts:383-398 | the loop accepts exactly the linked chains and returns the latest compaction |
| Ledger.SelectActiveMessages | src/agent/agent-ledger-projection.ts:400-440 | the loop returns the messages kept by the latest compaction, or the boundary error |
| Ledger.ProjectAgentLedger | src/agent/agent-ledger-projection.ts:37-79 | the replay equals its specification: checks in order, then summary, machine state and active tail |
| Ledger.RenderedAfterMessages | src/agent/agent-ledger-projection.ts:52-65 | appending messages adds exactly them at the end of what is visible |
| CompactionEffect.ActiveIsSuffix | src/agent/agent-ledger-projection.ts:424-440 | what stays visible is a suffix of the stored messages |
| CompactionEffect.ActiveCheckFollows | src/agent/agent-ledger-projection.ts:67-67 | the active-projection check follows from the permanent one when the tail does not start on a tool result |
| CompactionEffect.CompactedActive | src/agent/agent-ledger-projection.ts:400-440 | after a compaction exactly the planned tail is visible, whatever id above the head it got |
| CompactionEffect.PreparedAlwaysProjects | src/agent/compaction.ts:300-344 | a compaction prepared from a ledger that replays, with any non-blank summary and any id above the head, replays and shows the same messages |
| CompactionCandidate.CreateCompactionCandidate | src/agent/compaction.ts:227-345 | hooks, aborts, summaries, validation, one repair and the trial projection end as specified |
| CompactionCandidate.ProjectionNeverInvalid | src/agent/compaction.ts:319-344 | with matching heads no attempt ends in candidate_projection_invalid |
| CompactionCandidate.ReadyCandidateIsExact | src/agent/compaction-coordinator.ts:185-196 | a ready candidate has a valid summary within the limit, and the projection under the guessed id shows what the ledger shows under any id above the head |
| CompactionCandidate.CheckedSummaryGood | src/agent/compaction.ts:276-298 | a summary that is accepted, repaired or not, parses, is not blank and fits the limit |
| LedgerRepo.AgentLedgerRepo.AppendMessages | src/agent/agent-ledger-repo.ts:156-185 | the transaction compares the head, appends one row per message in order and moves the head to the last, or changes nothing |
| LedgerRepo.AgentLedgerRepo.AppendCompaction | src/agent/agent-ledger-repo.ts:187-201 | the transaction compares the head, appends one compaction row and patches the runtime row, or changes nothing |
| LedgerRepo.AgentLedgerRepo.UpdateRuntime | src/agent/agent-ledger-repo.ts:203-211 | the transaction patches the runtime row under an unchanged head, or changes nothing |
| LedgerRepo.TransactKeepsSound | src/agent/agent-ledger-repo.ts:289-323 | every transaction only adds rows, keeps ids rising, rows readable and the head on the last row, and adds none exactly when it is a runtime update |
| LedgerHost.AgentContext.InstallProjection | src/agent/agent-context.ts:91-103 | installs everything exactly when the messages are well formed, else nothing |
| LedgerHost.AgentHost.Commit | src/agent/ledger-commit-coordinator.ts:26-63 | append or runtime update, then install, then hold the new head; a refused install leaves rows durable and context and head as they were |
| LedgerHost.AgentHost.ReloadProjectionFromCanonical | src/agent/bot-loop-agent.ts:270-274 | a reload shows the full replay and holds its head, or changes nothing |
| LedgerHost.AgentHost.Compact | src/agent/compaction-coordinator.ts:65-232 | two attempts on a changed head, install of the candidate, reload, and back-off only for threshold compactions |
| LedgerRuns.CommitKeepsLive | src/agent/ledger-commit-coordinator.ts:26-63 | a commit keeps the live context a replay, and a failed one shows nothing of itself |
| LedgerRuns.CommittedCompaction | src/agent/compaction-coordinator.ts:185-196 | a committed compaction lands on the very ledger it was prepared from, and that ledger replays to what was installed |
| LedgerRuns.AlwaysLive | src/agent/compaction-coordinator.ts:88-231 | in every run of commits, failures, runtime updates, compactions, reloads and foreign writes the live messages are the replay of the ledger through the held head |
| LedgerReplay.CommitReplays | src/agent/ledger-commit-coordinator.ts:33-54 | a commit the database takes keeps the ledger replayable exactly when its messages are whole units with call ids new to the permanent ledger; installing it succeeds exactly when they are new to the visible one |
| LedgerReplay.AppendReplays | src/agent/compaction-coordinator.ts:185-196 | a ready candidate conflicts, is refused by the database or is shown; the context never refuses it |
| LedgerReplay.AlwaysReplays | src/agent/agent-ledger-loader.ts:40-52 | every run whose commits are fresh, and whose other writers add fresh messages or compactions prepared from the ledger, keeps the ledger replayable |
| LedgerReplay.FreshAgentReplays | src/agent/agent-ledger-projection.ts:37-79 | an Agent with an empty ledger is live and replays, so runs may start there |
| LedgerReplay.FocusAlwaysFollows | src/agent/ledger-commit-coordinator.ts:50-55 | in every run in which nobody else writes, the focus on display is the one the host holds |
| LedgerReuse.ReuseBreaksReplay | src/agent/ledger-commit-coordinator.ts:49-54 | a call id that is hidden but not new commits and shows, and no reload works any more |
| LedgerReuse.ResetHides | src/agent/compaction-coordinator.ts:88-231 | a reset that nothing hinders goes through: no call id stays visible, and every message stays stored |
| LedgerReuse.ResetsExist | src/agent/compaction.ts:227-298 | there is such a reset for the real summary format and any limit of 280 tokens or more |
| LedgerReuse.ReuseAfterReset | src/agent/ledger-commit-coordinator.ts:33-54 | from any state in step with its ledger, fresh messages with a call, a reset and the same messages again all succeed, and the ledger, which replayed until then, never does again |
| LedgerReuse.ReusedIdBreaksReplay | src/agent/ledger-commit-coordinator.ts:49-54 | such a run of an Agent that has not done anything yet |
| LedgerConservation.Conservation | src/agent/compaction.ts:390-404 | the blocks of successive compactions followed by the active tail are the permanent messages: nothing is lost, summarised twice or brought back |
| LedgerConservation.AlwaysConserved | src/agent/compaction-coordinator.ts:88-231 | every reachable ledger has such blocks, and later steps, foreign prepared compactions among them, only add to them |
| LedgerConservation.ConservedFromTheStart | src/agent/compaction-coordinator.ts:88-231 | from an empty ledger on, every run keeps summarised blocks and active tail equal to the permanent messages |
| SectionLayout.LayoutAccepted | src/agent/compaction-serialization.ts:222-246 | lines laid out as headings and plain blocks are accepted and read back as those blocks |
| SectionLayout.AcceptedLayout | src/agent/compaction-serialization.ts:222-246 | whatever the heading checks accept is such a layout |
| SectionText.ParsedCanonical | src/agent/compaction-serialization.ts:242-249 | every parsed body is non-empty, trimmed, right-trimmed on each line, and has no later line that looks like a heading |
| SectionText.RenderParse | src/agent/compaction-serialization.ts:216-250 | printed sections parse back exactly when no body starts like a heading, and fail otherwise |
| SummaryText.Reparse | src/agent/compaction-serialization.ts:252-279 | a parsed summary prints to a text that parses back to it exactly when no body starts like a heading and no opening marker has formed |
| SummaryText.NormalForm | src/agent/compaction-serialization.ts:216-279 | then parser and printer undo each other both ways |
| SummaryDrift.SectionsReadAs | src/agent/compaction-serialization.ts:222-249 | sections are read one by one: right-trimmed lines, joined and trimmed |
| SummaryDrift.IndentedHeadingDrifts | src/agent/compaction-serialization.ts:222-249 | a first section that opens with an indented heading is accepted, and what is printed from it is not read that way |
| SummaryDrift.BlankLineDrifts | src/agent/compaction-serialization.ts:222-222 | a line of blanks before a line like the opening marker is accepted, trimmed into the marker, and not read that way when printed |
| SummaryText.ParsedWellShaped | src/agent/compaction-serialization.ts:216-250 | a parsed summary has one canonical body per heading, and a trimmed prefix exactly for a split turn |
| CompactionFormat.CompactionFormatOk | src/agent/compaction-serialization.ts:9-21 | the seven headings and the two markers meet every condition the format lemmas need |
| SummaryRepair.ShrinkStrict | src/agent/compaction-serialization.ts:281-286 | a shrunk text is a non-empty, strictly shorter beginning of the old one plus an ellipsis; the fallback text is never used |
| SummaryRepair.LargestFound | src/agent/compaction-serialization.ts:188-197 | the target is the first of the largest pieces with more than two characters |
| SummaryRepair.RepairOversizedCompactionSummary | src/agent/compaction-serialization.ts:172-204 | the bounded loop equals its specification |
| SummaryRepair.RepairSound | src/agent/compaction-serialization.ts:185-203 | a repaired summary fits the limit, keeps all sections as abbreviations, and forms no heading or marker that was not there |
| SummaryRepair.RepairGivesUp | src/agent/compaction-serialization.ts:185-203 | with more attempts than the pieces can be shortened in all, by seven tenths at a time, repair fails only where no piece can be shortened |
| SummaryRepair.AttemptsSuffice | src/agent/compaction-serialization.ts:185-203 | the 256 attempts are more than that whenever no piece reaches 65536 characters |
| SummaryRepair.RepairedValidates | src/agent/compaction.ts:282-294 | a repaired summary passes validation when the original parsed, printed and parsed to itself |
| Attention.CaptureMailboxAttentionState | src/agent/mailbox-handled.ts:17-65 | the loop over messages computes the join of their contributions |
| Attention.CaptureConcat | src/agent/mailbox-handled.ts:17-65 | capturing a concatenation is joining the captures |
| Attention.RenderCapture | src/agent/mailbox-handled.ts:186-207 | rendering a state and capturing the message gives it back |
| Attention.CaptureValid | src/agent/mailbox-handled.ts:215-249 | a captured state is always one that the parsers accept |
| CompactionAttention.CompactionKeepsAttention | src/agent/compaction.ts:300-316 | on any ledger a prepared compaction keeps the visible attention state exactly when the previous compaction's state is below what the active messages say, so always without a previous compaction |
| CompactionAttention.AnswersKept | src/agent/mailbox-handled.ts:111-135 | mailbox by mailbox the cursors are kept exactly when the active messages reach as far as the previous compaction did, and then the pending row is the same; when they do for every mailbox, so is whether anything is pending |
| CompactionAttention.SilenceForgets | src/agent/compaction.ts:300-303 | a pending mailbox that only the previous compaction knew is forgotten by any further one |
| LedgerAttention.SecondResetForgets | src/agent/compaction.ts:300-303 | from any state in step with its ledger: a reset, fresh messages that do not mention the mailbox, and another reset leave it pending until then and forgotten after, with the ledger replaying all along |
| LedgerAttention.SecondCompactionForgetsPending | src/agent/compaction.ts:300-303 | such a run of an Agent that has not done anything yet |
| Disclosure.PlanMailboxDisclosures | src/agent/mailbox.ts:55-92 | the loop shows exactly the events beyond their cursors, gathered per mailbox, and advances the cursors |
| Disclosure.GatheredIsComplete | src/agent/mailbox.ts:81-88 | gathering keeps every row of a mailbox once and in order, in one group, and all single events |
| Disclosure.BatchesCompose | src/agent/mailbox.ts:55-92 | planning two batches in turn shows the rows and reaches the cursors of planning them at once |
| Disclosure.AllShownIff | src/agent/mailbox.ts:70-79 | everything queued is shown exactly when rows rise per mailbox from above the cursors |
| DisclosureRuns.AtMostOnce | src/agent/bot-loop-agent.ts:839-860 | over every run with failed commits, lost acknowledgements, duplicates and restarts, disclosed rows of a mailbox strictly rise |
| DisclosureRuns.FailOnTrack | src/agent/bot-loop-agent.ts:855-859 | a failed commit keeps what is on the way rising exactly when nothing newer of its mailboxes is queued |
| DisclosureRuns.RetryShowsAll | src/agent/bot-loop-agent.ts:839-860 | the retry after a failure discloses everything exactly then |
| DisclosureRuns.NothingSkipped | src/agent/bot-loop-agent.ts:313-355 | when rows arrive in order, rows disclosed and on the way are the rows that arrived exactly when no failed commit was ever overtaken; once nothing is on the way that decides what was dropped for good |
| DisclosureRuns.OvertakenRowIsSkipped | src/agent/bot-loop-agent.ts:855-859 | a run from the start on which a requeued row is overtaken and dropped |
| ScheduleRuntime.Runtime.Create | src/agent/schedule-runtime.ts:231-278 | create ends as specified for every input, and persists, holds and arms exactly one new job when it succeeds |
| ScheduleRuntime.Runtime.Cancel | src/agent/schedule-runtime.ts:295-313 | cancel removes the job from store, memory and timers, or changes nothing |
| ScheduleRuntime.Runtime.ProcessTimer | src/agent/schedule-runtime.ts:160-198 | a firing is the three writes in order, stopped by the first that fails, then the queue; a waiting job keeps its timer |
| ScheduleRuntime.Runtime.Enqueue | src/agent/schedule-delivery-coordinator.ts:18-24 | an id is let into the queue once until its delivery is complete |
| ScheduleRuntime.Runtime.ReplayOne | src/agent/schedule-delivery-coordinator.ts:37-53 | an active delivery is skipped, a committed one completed, any other queued |
| ScheduleRuntime.Runtime.MarkCommitted | src/agent/schedule-delivery-coordinator.ts:54-64 | a run of cleaning steps: exactly the deliveries before the first failing one leave the pending file and the queued ids |
| ScheduleRuntime.AlwaysWithinLimits | src/agent/schedule-store.ts:44-59 | in every run the stored files keep their size limits and unique names |
| ScheduleSafety.RecordedKeeps | src/agent/schedule-occurrence-store.ts:69-82 | recording an occurrence of a persisted schedule never conflicts, and records stay truthful |
| ScheduleSafety.CrashSafety | src/agent/schedule-runtime.ts:160-198 | with a crash or failure anywhere, each persisted and uncancelled schedule is in the job store, pending or committed, and no wake is committed twice or while its schedule waits |
| ScheduleDelivery.NothingStuck | src/agent/schedule-delivery-coordinator.ts:37-64 | after a replay, each of them is waiting, carried by queue or batch, or committed |
| ScheduleDelivery.CancelIsFinal | src/agent/schedule-runtime.ts:295-313 | a cancelled schedule is never delivered in any later run exactly when it was not pending at that moment |
| ScheduleDelivery.HalfFiringLeavesPending | src/agent/schedule-runtime.ts:175-186 | a firing whose last write fails leaves the job waiting and its delivery pending |
| ScheduleDelivery.CancelledWakeArrives | src/agent/schedule-runtime.ts:295-313 | from any state with a due schedule such a firing, a successful cancel, a restart and a commit put the cancelled wake into the ledger |
| ScheduleDelivery.CancelledTeaArrives | src/agent/schedule-runtime.ts:295-313 | such a run from the very start |
| TaskScheduler.OldestOfLine | src/agent/task-scheduler.ts:72-79 | the job begun is the oldest of its lane with its resource |
| TaskScheduler.PumpAllKeeps | src/agent/task-scheduler.ts:67-93 | one pass over the lanes leaves no lane with room and a job that could begin, and keeps every invariant |
| TaskScheduler.QuietMeansDrained | src/agent/task-scheduler.ts:55-65 | when nothing runs, nothing waits and every drain is resolved |
| TaskSchedulerRuns.AlwaysOrderly | src/agent/task-scheduler.ts:51-125 | in every reachable state concurrency, resources, dedupe keys and order within a lane and resource hold |
| TaskSchedulerRuns.DrainEnds | src/agent/task-scheduler.ts:122-125 | with no new tasks each end leaves one live task less, and after the last every drain is resolved |
| TaskSchedulerRuns.SomethingCanEnd | src/agent/task-scheduler.ts:84-91 | a scheduler that is not idle has a task running |
| TaskSchedulerRuns.Scheduler.ScheduleTask | src/agent/task-scheduler.ts:96-120 | an unknown lane is refused, a live key shares its promise, anything else is queued and pumped |
| TaskSchedulerRuns.Scheduler.TaskSettled | src/agent/task-scheduler.ts:86-91 | an end frees slot, resource and key and pumps every lane |
| TaskSchedulerRuns.Scheduler.WaitUntilDrained | src/agent/task-scheduler.ts:122-125 | resolves at once when idle, else registers a waiter |
| LoopPolicy.AlwaysInRange | src/agent/loop-policy.ts:52-138 | both counters stay within their limits over any rounds |
| LoopPolicy.QuietRoundsEnd | src/agent/loop-policy.ts:63-138 | from any counters in range at most N*(C+1)-1 quiet rounds in a row are followed by another round, although the correction counter resets in between |
| LoopPolicy.BoundIsReached | src/agent/loop-policy.ts:63-138 | from any counters a sequence of rounds reaches the bound |
| ReactKernel.RunToolCalls | src/agent/react-kernel.ts:205-288 | the loop executes the batches of the specification one after the other, each answer from all that happened before it, and appends one assistant message and the results in call order, with effects and outcomes in the same order |
| ReactKernel.EachRunsOnce | src/agent/react-kernel.ts:229-231 | over a round every call is started exactly once, in call order, and finished exactly once |
| ReactKernel.OneBatchEach | src/agent/react-kernel.ts:217-222 | every call belongs to one batch and to one only |
| ReactKernel.BatchesTile | src/agent/react-kernel.ts:217-302 | batches cover the calls without gap or overlap; each is one call or a longest run of parallel-safe ones |
| ReactKernel.ExclusiveRunsAlone | src/agent/react-kernel.ts:229-231 | under every interleaving inside batches an exclusive call runs beside no other |
| ReactKernel.RoundIsUnit | src/agent/react-kernel.ts:205-275 | what a round appends is one complete unit, and the context stays well formed exactly when ids and names are usable, distinct and new, and results that open like JSON are JSON |
| WriteChain.WritesAreSerial | src/agent/workspace-state-coordinator.ts:9-25 | under every interleaving one call per key writes, in call order, and the map holds exactly the keys with unreleased calls |
| WriteChain.OldestGoesOn | src/agent/workspace-state-coordinator.ts:10-18 | the oldest unreleased call of a key is writing or may enter |
| WriteChain.WorkspaceStateCoordinator.Acquire | src/agent/workspace-state-coordinator.ts:10-16 | a call takes the key's tail as its predecessor and becomes the tail |
| WriteChain.WorkspaceStateCoordinator.Release | src/agent/workspace-state-coordinator.ts:21-24 | a release takes the tail out of the map exactly when nobody queued behind |
| MemoryEntries.ApplyMemoryMaintenance | src/agent/memory-store.ts:941-1089 | the loop over operations equals its specification: first error, or the new entries |
| MemoryReferences.DeleteKeeps | src/agent/memory-store.ts:771-787 | a deletion that is let through leaves no dangling reference |
| MemoryReferences.CorrectKeeps | src/agent/memory-store.ts:712-769 | a correction retires the old entry and refers to it from the new one |
| MemoryReferences.SupersedeKeeps | src/agent/memory-store.ts:815-843 | superseding keeps all references sound |
| MemoryReferences.CompactKeeps | src/agent/memory-store.ts:845-890 | compacting retires every selected entry, all of which exist |
| MemoryMaintenance.MaintenanceKeepsEvidence | src/agent/memory-store.ts:987-1086 | a source row backs a live entry after a batch exactly when it backed one before that was not discarded |
| MemoryMaintenance.ReferencesStaySound | src/agent/memory-store.ts:712-1101 | over any operations with fresh ids every supersedes id names an existing entry that is not active, and ids stay unique |
| MemoryMaintenance.DiscardNeverDangles | src/agent/memory-store.ts:1011-1021 | an active entry, the only kind maintenance discards, is never referred to |
| MemoryFile.FileRoundTrip | src/agent/memory-store.ts:1325-1410 | entries written to a file and read back are the same entries, stable ones first, each group in order, exactly when every content is there and holds no end marker, and no header value holds the marker that closes the header or a line separator |
| MemoryFile.ContentIsCut | src/agent/memory-store.ts:1353-1357 | an entry whose content holds the end marker comes back with its content up to the marker |
| MemoryFile.EmptyFile | src/agent/memory-store.ts:295-299 | a file without entries, as it is before its first one is added, reads back as none exactly when its frontmatter holds no start marker |
| MemoryHeader.StumpDiffers | src/agent/memory-store.ts:1353-1379 | a header in which a value with the marker or a line separator was cut or lost is never read as the entry that was written |
| MemoryUnreadable.AliasBreaksFile | src/agent/memory-store.ts:1353-1376 | an entry with the closing marker inside its aliases makes a file unreadable whatever follows, unless white space or a dash comes right behind the marker |
| MemoryUnreadable.TitleBreaksFile | src/agent/memory-store.ts:1200-1202 | a topic title that becomes such an alias: the entry can be written, and its file can never be read |
| MemoryRoundTrip.RenderAgain | src/agent/memory-store.ts:1498-1516 | rendering what the file lists gives the same file |
| MemoryRoundTrip.FrontmatterStays | src/agent/memory-store.ts:1499-1503 | the next rendering finds the same frontmatter |
| MemoryRoundTrip.ParseMemoryEntries | src/agent/memory-store.ts:1347-1410 | the loop takes the entries off the text from left to right, as specified |

## Left out

- Databases, files, clocks, timers and logging: each write happens or fails with no change; database ids are the head plus one plus an arbitrary gap.
- The summariser, hooks, the contradiction check, token estimates per message and duplicate detection by normalised text: arbitrary values or functions.
- JSON and field-by-field parsing of ledger rows, runtime rows and events: datatypes, with the blank, sign and safe-integer checks kept; user content is the event it parses to.
- Checks of tool-result content blocks, of JSON serialisability and of the runtime state's cursor keys and focus strings. What JSON.parse accepts is part of a tool result's value.
- The checkpoint cache of the ledger loader: it only serves a projection equal to the replay.
- Mailbox continuity beyond its compaction epoch; notification rendering and the routing of disclosures into interrupting and passive ones.
- `highPriorityThroughRowId` absent and 0 are one value; the inbox read defaults query.
- UTF-16 surrogates: strings are sequences of code points; marker positions never fall inside one.
- LedgerHost.AgentHost.Compact: the provider-prefix token estimate and the reset's own sum are an input of each attempt, and the after-compaction hook, which changes nothing here, is not called.
- SummaryRepair.RepairOversizedCompactionSummary: the sort and the search after it are one scan for the same element, and the floating-point product is 7n/10 rounded down, or one less.
- ScheduleRuntime.Runtime.Create: setTimer never throws, and job, delivery and occurrence files are held as maps or sequences of records. An id that was drawn before is never drawn again.
- ScheduleRuntime.Runtime.ReplayOne: listing the active schedules and loading the pending deliveries are one step with the start, since a schedule created in between cannot fire within its 30 seconds; a wake is recognised in the ledger by its id, name and time rather than by its rendered text.
- ScheduleRuntime.Runtime.ProcessTimer: stopping the runtime is a crash, which loses at least as much.
- TaskSchedulerRuns.Scheduler.ScheduleTask: a task does not call the scheduler synchronously while it is being started; which task rejects or resolves is not recorded. A task that throws instead of returning a promise escapes the pump and keeps its slot, resource and key for ever; here every task returns one.
- DisclosureRuns.NothingSkipped: restarts lose the queue, and its refill from the database is not part of this model; lost acknowledgements are covered by AtMostOnce.
- DisclosureRuns.AtMostOnce: how a disclosure is rendered, and that a row's text may be left out of an oversized batch.
- MemoryFile.FileRoundTrip: the syntax of single values (JSON lists, comma lists, time stamps, kinds) is a parameter under the laws of `MemoryHeader.Lawful`; an entry is given by values that this syntax reads back and that are trimmed, not empty and without a line feed, so ids in a comma list hold no comma. A frontmatter that holds a start marker is covered for files without entries only (MemoryFile.EmptyFile): the store parses a new file before it adds an entry, and adds none to such a file. The fields of the frontmatter, rewriting its time stamp line, and which of several format errors is reported first are left out.
- MemoryReferences.CompactKeeps: the order in which merged sources and aliases are listed is modelled but no law is stated about it.
- ReactKernel.RunToolCalls: the model call, its output-budget retry and the conversion of results to durable content; the JSON report of a failed execution and the target named by an invoke call are inputs.
- Recall scoring, search, browser, gateways, media, configuration, prompts and the admin interface.
