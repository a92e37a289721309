# VeriForge: verified core protocols

VeriForge is an agent runtime. It lets isolated workers change copies of a workspace and
integrates what they changed, drives a language model through turns of tool calls, suspends and
wakes sessions, and shows their state to clients. This project models the parts of it where an
invariant has to survive every run, and proves those invariants for all inputs and all runs.

`dafny verify dfyconfig.toml` checks everything.

## What is modelled

* **Integrating isolated changes.** `LineMerge` is the in-place line merge: two edit scripts, a
  hand-written conflict test, splices in descending order. `MergeDiamond` says what the result
  means to either side (rebasing commutes), `MergeText` what happens between lines and text.
  `Workspace`, `Proposals` and `ProposalStore` are the compare-and-set workspace and the
  proposal store; `StoreLaws` says what each operation of the store answers, `ProposalRuns` is
  its life cycle over every sequence of operations.
  `Coordinator` and `Ownership` add path ownership and prove that open workers' proposals
  commute; `CloseLaws` says when a pending proposal can outlive its owner.
* **The tool-call protocol.** `Messages` and `Answering` say when a history is closed and what
  closes it. `Identities` and `History` are the context history with its journal. `Planner` and
  `PlannedOrder` schedule the calls of one batch and prove that any allowed order means the
  model's order. `ToolExecution` runs a batch, with the bookkeeping of `ToolBatch`; `RepairLaws`
  covers what an escaped exception leaves, `Compaction` shortens a context, `Boundaries` says
  what holds between rounds, and `Conversation` is the turn loop over all of them, from the
  first system message on.
* **Concurrent life cycles.** `SessionBridge` (suspend, wake, construct, queue), `Cancellation`
  and `CancellationTree` (token trees), `MemoryWorker` (coalesced background work). Each is a
  state machine whose steps are critical sections; a run is any interleaving. The critical
  sections are also methods of classes with the source's fields, proved equal to the steps.
* **Fast forms and simple ones.** `StreamAssembly` (chunked against whole messages),
  `ToolSchemas` (canonical tool schemas), `Observations` (generation counters against the
  mutation log).
* **Two replicas of a session.** `SessionViews` is the registry that changes its views in place,
  `SessionClient` the reducer of the terminal client, `SessionDelivery` the loop between them
  that holds events back behind a gap and asks for a whole view.

Calls into code outside the model are arbitrary: tool actions and their classification,
completion order, middleware decisions, replies, cancellation points, failures and clocks are
nondeterministic choices or parameters with the stated contracts. `World.calm` says that none of
them raises or asks for a stop; what must happen then is stated too. `difflib` is any valid edit
script (it tiles both texts and separates its edits), `git merge-file` any function, the token
counter any non-negative additive cost. `PyStrings`, `Paths`, `SortedKeys`, `FiniteSets` and
`Wrappers` are shared ground.

## Where the code does not do what one would expect

Each item is a property that fails, with its exact condition for all inputs and a concrete case.

* **Merged lines can fuse** (`change_proposal.py:439-454`). The merge reports no conflict, and
  yet its lines are not the lines of its text, in exactly two situations: one side removes the
  final newline and the other appends behind it, or a line ending in a carriage return comes to
  stand before one starting with a line feed. The latter needs a lone carriage return in the
  current file, which replacing only `\r\n` lets through. `MergeText.MergedTextLines` is the
  condition, `MergeText.FusedExample` and `MergeText.ReturnExample` are the cases.
* **The repair after an exception trusts reused ids** (`tool_executor.py:139-160`). It takes a
  call as answered when any tool message of the context carries its id. Providers that send no
  ids get `call_0` in every turn, so a cancelled call can stay unanswered and the next request is
  malformed. `RepairLaws.RepairClosesExactly` is the condition, `RepairLaws.ReusedIdStaysOpen`
  the case, and `Conversation.AgentConversation.RunUntilIdle` carries it through the run.
* **A failing `close_agent` has already freed the paths** (`coordinator.py:239-269`). The record
  and the name go before the proposal store is asked, and the store is not asked at all when
  closing the conversation or publishing outputs fails, even when changes are to be discarded.
  A new worker may then own the paths of a proposal that can still be applied.
  `CloseLaws.RaisingClose` and `CloseLaws.OwnersStay` are the conditions for one close and for
  whole runs, `CloseLaws.ClashRun` the case.
* **The last section of `_require_session` does not look at the suspension flag again**
  (`tui_bridge.py:1256-1262`). A reservation or an unfinished worker task keeps suspensions away
  meanwhile, and every call in the program has one of them (`SessionBridge.SuspensionSafe`). A
  call with neither may be handed the session that is being closed
  (`SessionBridge.TakenDuringSuspension`, `SessionBridge.BareCallMayTakeClosing`).
* **Client and registry can show different states of one session**
  (`state.ts:31-92`, `session_runtime_registry.py:226-294`). On a reset the client clears turn
  state, queue depth, interaction and waiting reason, and the registry keeps them; the client
  takes the status of a progress event into its snapshot, drops the welcome row at the first real
  content, counts a queued turn without a depth, and ignores the state of a delta; the registry
  marks group rows also for turn 0, and takes an empty state for none; both number a notice
  differently. `SessionClient.Agrees` is the condition for one event
  (`SessionClient.ReducerAgrees`), `SessionDelivery.ClientFollows` carries it through every
  orderly delivery, and `SessionDelivery.ResetDuringTurn` is a case. A difference lasts until the
  next whole view.
* **A worker can be forgotten, and a turn can stop beating** (`background.py:41-52`, `161-193`).
  When the durable tasks cannot be read as the last worker leaves, no timer is armed for the jobs
  that are left; when an activity cannot be stored, no next heartbeat is armed.
  `MemoryWorker.NoJobForgotten` and `MemoryWorker.ActiveTurnsBeat` are the conditions.
* **Streams lose what is present but empty** (`providers.py:239-254`). An empty string as content
  and a call without id, name and arguments survive in the whole-message form only;
  `StreamAssembly.StreamMatchesWhole` is the condition, `StreamAssembly.EmptyTextDiffers` the
  smallest case.

## Model

| member | source | states |
|---|---|---|
| `LineMerge.ConflictMeansUnordered` | harness_code_agent/agent/change_proposal.py:466-475 | the hand-written conflict test is exact and symmetric: two edits do not conflict precisely when they are the same insertion or one lies strictly before the other |
| `LineMerge.AnyConflict` | harness_code_agent/agent/change_proposal.py:443-446 | the nested test over both scripts answers yes exactly when some pair of edits conflicts |
| `LineMerge.SortSorts` | harness_code_agent/agent/change_proposal.py:452 | sorting in descending (start, end) order yields a descending list of the same edits |
| `LineMerge.UnionOfEdits` | harness_code_agent/agent/change_proposal.py:448-451 | the list that is spliced holds exactly the edits of both sides, an insertion common to both only once |
| `LineMerge.InterleaveOrdered` | harness_code_agent/agent/change_proposal.py:447-453 | the union of two compatible scripts can be applied to the base in one left-to-right pass |
| `LineMerge.SortedIsReversed` | harness_code_agent/agent/change_proposal.py:452 | the descending list the loop walks is the ascending union read backwards, so equal keys leave no choice |
| `LineMerge.SpliceStep` | harness_code_agent/agent/change_proposal.py:452-453 | one in-place splice does not move the place of any edit that is spliced later |
| `LineMerge.SpliceAll` | harness_code_agent/agent/change_proposal.py:452-453 | splicing the whole list in place gives the one simultaneous left-to-right application to the base |
| `LineMerge.MergeDisjoint` | harness_code_agent/agent/change_proposal.py:439-454 | refuses exactly when the scripts conflict; otherwise the spliced lines are the union applied to the base in one pass |
| `LineMerge.InterleaveSymmetric` | harness_code_agent/agent/change_proposal.py:448-453 | the union does not depend on which side is named first |
| `MergeDiamond.Diamond` | harness_code_agent/agent/change_proposal.py:439-475 | for every base and all compatible scripts: the worker's edits rebased over the current text and the current side's edits rebased over the worker's text reach the same merge |
| `MergeDiamond.RebasedReachesMerge` | harness_code_agent/agent/change_proposal.py:439-454 | one side of the diamond: rebasing the worker's edits over the current side gives the merged lines |
| `MergeDiamond.UnchangedSide` | harness_code_agent/agent/change_proposal.py:439-454 | merging with an unchanged side returns the other side |
| `MergeDiamond.UntouchedSurvives` | harness_code_agent/agent/change_proposal.py:446-454 | every base line that neither side touched is in the merge, at the place the edits before it move it to |
| `MergeDiamond.SurvivorsInOrder` | harness_code_agent/agent/change_proposal.py:446-454 | untouched base lines keep their order |
| `MergeDiamond.EditLands` | harness_code_agent/agent/change_proposal.py:446-454 | every edit's lines are in the merge, at the place rebasing puts them |
| `MergeText.JoinSplit` | harness_code_agent/agent/change_proposal.py:440-442 | joining the lines of a text gives the text back |
| `MergeText.SplitJoin` | harness_code_agent/agent/change_proposal.py:440-454 | a list of lines survives join and split exactly when only its last line may lack a terminator and no line ending in a carriage return stands before one starting with a line feed |
| `MergeText.FusedExactly` | harness_code_agent/agent/change_proposal.py:439-454 | the merged lines keep a terminator on all but the last line exactly unless one side opens the end of the base and the other appends behind it |
| `MergeText.MergeDisjointText` | harness_code_agent/agent/change_proposal.py:439-454 | the text-level merge: `None` on a conflict, else the joined lines of the union applied to the base |
| `MergeText.MergedTextLines` | harness_code_agent/agent/change_proposal.py:439-454 | for all texts and all compatible scripts: the lines of the merged text are the merged lines if and only if no open line gets a successor and no carriage return meets a line feed |
| `MergeText.MergedClean` | harness_code_agent/agent/change_proposal.py:446-454 | a carriage return comes to stand before a line feed exactly at a seam between what an edit brings, what it keeps before it and what follows it |
| `MergeText.CrSeamNeedsReturn` | harness_code_agent/agent/change_proposal.py:439-454 | texts without carriage returns never have such a seam, whatever the scripts |
| `MergeText.FusedExample` | harness_code_agent/agent/change_proposal.py:439-454 | base "x\n", current "y", worker "x\nz\n" merge without a conflict into the line "yz", which nobody wrote |
| `MergeText.ReturnExample` | harness_code_agent/agent/change_proposal.py:201 | a file with a lone carriage return, which replacing only \r\n lets through, and one deletion: both merged lines have terminators, and their text is one line |
| `Paths.OverlapMeansSharedPath` | harness_code_agent/agent/coordinator.py:661-676 | the overlap test answers yes exactly when some path is allowed under both roots, and is symmetric |
| `Paths.SharedPathOverlaps` | harness_code_agent/agent/coordinator.py:661-676 | a path allowed under two lists of roots exposes an overlapping pair of roots |
| `WorkspaceFiles.Workspace.WriteTextBatch` | harness_code_agent/workspace/service.py:123-170 | an atomic compare-and-set over the file map: all files written, or none after a version conflict or a failed write rolled back |
| `WorkspaceFiles.Workspace.CheckVersions` | harness_code_agent/workspace/service.py:132-135 | the write locks are granted exactly when every expected version still holds |
| `Proposals.CollectChanges` | harness_code_agent/agent/change_proposal.py:349-384 | the collecting loop yields the entries and reasons of the per-path decisions |
| `Proposals.CollectExactly` | harness_code_agent/agent/change_proposal.py:349-384 | entries are exactly the changed, present, allowed, decodable files, each once; a reason is recorded exactly when some other file changed or vanished |
| `Proposals.MergeEntry` | harness_code_agent/agent/change_proposal.py:416-436 | one entry against the current text: taken, merged, or a conflict with both sides marked, branch by branch |
| `Proposals.DisjointMergeLaws` | harness_code_agent/agent/change_proposal.py:416-475 | the merge of an entry is symmetric and has both units, for every sound diff |
| `Proposals.EntryLaws` | harness_code_agent/agent/change_proposal.py:416-436 | an entry whose base is still current, one that changes nothing, and one already present keep what the other side has; disjoint merges do not depend on which side is main; a creation clashes with a present file exactly when the contents differ, and never with an absent one |
| `ProposalStore.ChangeProposalStore.CreateSandbox` | harness_code_agent/agent/change_proposal.py:78-85 | registers the agent's sandbox and changes nothing else |
| `ProposalStore.ChangeProposalStore.Finalize` | harness_code_agent/agent/change_proposal.py:91-106 | the proposal that is stored, with its status, for known and unknown agents |
| `ProposalStore.ChangeProposalStore.Prepare` | harness_code_agent/agent/change_proposal.py:193-208 | the merge loop fills its dictionaries with exactly the plan of the entries |
| `ProposalStore.ChangeProposalStore.Apply` | harness_code_agent/agent/change_proposal.py:189-229 | a conflict is recorded without writing, or the batch is written and the proposal applied; each failing branch leaves the state it says |
| `ProposalStore.ChangeProposalStore.Recheck` | harness_code_agent/agent/change_proposal.py:278-288 | the first observed file that cannot be read or no longer has the observed text |
| `ProposalStore.ChangeProposalStore.Resolve` | harness_code_agent/agent/change_proposal.py:268-295 | stale, rejected or written resolution, with both status fields; the conflict's comes first, so that it alone changes when its proposal is gone |
| `ProposalStore.ChangeProposalStore.CloseAgent` | harness_code_agent/agent/change_proposal.py:297-310 | refuses while a proposal of the agent is pending, else drops its sandbox, proposals and conflicts |
| `ProposalStore.PlanFailedStays` | harness_code_agent/agent/change_proposal.py:197-208 | an unreadable or unmergeable entry makes the whole plan fail, whatever follows it |
| `StoreLaws.NormalizeAllExactly` | harness_code_agent/agent/change_proposal.py:573-574 | a collected text loses its carriage returns, each pair and each lone one becoming a line feed, and nothing else changes |
| `StoreLaws.NormalizeNewlinesExactly` | harness_code_agent/agent/change_proposal.py:201 | a current file loses the pairs only: a lone carriage return stays, and a text without pairs is unchanged |
| `StoreLaws.CollectOneExactly` | harness_code_agent/agent/change_proposal.py:349-384 | a changed file is collected exactly when it is present, allowed and decodable on both sides, with the old text as base and the new one as result; every other change is rejected |
| `StoreLaws.FinalizeExactly` | harness_code_agent/agent/change_proposal.py:91-106 | a finalised proposal is the agent's own, holds exactly the collected files, is ready exactly when nothing was rejected, and disturbs no other proposal; without a sandbox nothing happens |
| `StoreLaws.ContestedExactly` | harness_code_agent/agent/change_proposal.py:439-454 | the line merge refuses exactly when both sides changed the file, differently, and one edit of each side conflict |
| `StoreLaws.ModifyExactly` | harness_code_agent/agent/change_proposal.py:416-436 | for all texts and tools: a contested file is what the merge tool says, asked with current, base and worker in these roles: a conflict holding all three and the marked text, a text, or a failure; an uncontested one always merges |
| `StoreLaws.CreateExactly` | harness_code_agent/agent/change_proposal.py:416-436 | which created and deleted files clash, and the two sides the clash shows |
| `StoreLaws.PlanExactly` | harness_code_agent/agent/change_proposal.py:193-208 | a plan fails exactly when an entry does, else it holds each entry's own outcome and what was read for it |
| `StoreLaws.ApplyExactly` | harness_code_agent/agent/change_proposal.py:189-229 | applying a ready proposal: without effect when an entry fails, else a recorded conflict and no write when one clashes, else every entry's own merge, all or nothing |
| `StoreLaws.ContestedStopsApply` | harness_code_agent/agent/change_proposal.py:433-436 | one entry on which the merge tool reports a conflict keeps the whole proposal from being written, and its clash is on record with all its texts |
| `StoreLaws.ApplySucceeds` | harness_code_agent/agent/change_proposal.py:189-229 | a ready proposal whose entries all merge is applied, when its files stay as read and no write is refused |
| `StoreLaws.CheckObservedExactly` | harness_code_agent/agent/change_proposal.py:278-288 | a conflict is current exactly when every observed file reads as it did, else the first one that does not decides |
| `StoreLaws.ResolveExactly` | harness_code_agent/agent/change_proposal.py:268-295 | an open conflict goes stale for the first file that reads differently, and then nothing is written; else merges and given texts are written together |
| `StoreLaws.RefusalsExactly` | harness_code_agent/agent/change_proposal.py:189-277 | which applies and resolves are refused before anything else, and that they have no effect |
| `StoreLaws.CloseExactly` | harness_code_agent/agent/change_proposal.py:297-310 | refused exactly for an undecided proposal that is not discarded; else the agent's sandbox, proposals and their conflicts go, and nothing else |
| `ProposalRuns.PlanPaths` | harness_code_agent/agent/change_proposal.py:193-208 | every entry of a plan is either merged or in conflict, never both, and its read is on record |
| `ProposalRuns.ApplyWritesEntries` | harness_code_agent/agent/change_proposal.py:189-229 | a successful apply replaces exactly the files of its entries, each by the merge with the text that was really there; every other outcome changes no file |
| `ProposalRuns.NextKeeps` | harness_code_agent/agent/change_proposal.py:69-310 | every operation of the store keeps the invariant |
| `ProposalRuns.RunKeeps` | harness_code_agent/agent/change_proposal.py:69-310 | so does every sequence of operations |
| `ProposalRuns.Lifecycle` | harness_code_agent/agent/change_proposal.py:189-310 | in every run: a proposal is in conflict exactly when exactly one open conflict set names it, it is applied exactly when it was written, no proposal is written twice, and a write touches precisely its entry paths |
| `ProposalRuns.OnlyLoggedWrites` | harness_code_agent/agent/change_proposal.py:189-310 | files outside the logged writes never change |
| `Coordinator.AgentCoordinator.CheckWorkerOwnership` | harness_code_agent/agent/coordinator.py:556-561 | the ownership scan refuses exactly when an open worker's paths overlap the new ones |
| `Coordinator.AgentCoordinator.Spawn` | harness_code_agent/agent/coordinator.py:93-151 | every check of the request in its order, the sanitised name, and the record and name a spawn adds, which stay when starting the run then fails |
| `Coordinator.AgentCoordinator.CloseAgent` | harness_code_agent/agent/coordinator.py:240-273 | found by name or id, the record and the name go first; then a failing clean-up or the store's refusal decides the result |
| `Coordinator.AgentCoordinator.ExportState` | harness_code_agent/agent/coordinator.py:275-285 | refused exactly while an agent is active, else every record, once |
| `Coordinator.AgentCoordinator.ImportState` | harness_code_agent/agent/coordinator.py:287-295 | refused by a closed coordinator, else the entries become records and names one after the other, unchecked |
| `Coordinator.AgentNameExactly` | harness_code_agent/agent/coordinator.py:647-651 | character by character what is kept of a name: the first 48 of the trimmed text, each letter, digit, underscore and hyphen as it is, anything else as an underscore |
| `Coordinator.SpawnExactly` | harness_code_agent/agent/coordinator.py:93-151 | which requests are accepted, as one condition, and exactly what an accepted one adds, also when starting the run then fails |
| `Coordinator.CloseAgentExactly` | harness_code_agent/agent/coordinator.py:239-269 | a close succeeds exactly for an idle agent whose clean-up works and whose undecided proposals are discarded or absent, and takes its record and its name |
| `PyStrings.StripExactly` | harness_code_agent/runtime/tool_call_validation.py:39-50 | trimming takes white space off both ends and nothing else, all of it |
| `Coordinator.ExportImports` | harness_code_agent/agent/coordinator.py:275-295 | what an export lists, in any order, gives a new coordinator exactly the records and names of the exporting one |
| `Ownership.SpawnKeeps` | harness_code_agent/agent/coordinator.py:123-149 | a spawn keeps names and records inverse to each other, the capacity, and the workers' paths disjoint |
| `Ownership.SuspendKeeps` | harness_code_agent/core/interactive.py:1783-1817 | a suspension with nothing undecided and no active agent keeps records, names, ownership and files, and drops only decided proposals |
| `Ownership.TeamNextKeeps` | harness_code_agent/agent/coordinator.py:93-295 | every step of the coordinator and the store, a suspension included, keeps ownership |
| `Ownership.TeamRunKeeps` | harness_code_agent/agent/coordinator.py:93-295 | so does every run from an empty coordinator |
| `Ownership.OwnershipHolds` | harness_code_agent/agent/coordinator.py:123-149 | in every run, open workers' allowed paths are pairwise disjoint and two open workers' proposals share no path |
| `Ownership.PlanLocal` | harness_code_agent/agent/change_proposal.py:197-208 | a plan depends only on the files its entries name |
| `Ownership.ApplyUnaffected` | harness_code_agent/agent/change_proposal.py:189-229 | an apply is not affected by changes to other files, proposals or conflicts |
| `Ownership.AppliesCommute` | harness_code_agent/agent/change_proposal.py:189-229 | two proposals without a common path can be applied in either order: same files, same store, same outcomes |
| `Ownership.OpenWorkersCommute` | harness_code_agent/agent/coordinator.py:123-149 | in every run, the proposals of two open workers can be applied in either order |
| `CloseLaws.RaisingClose` | harness_code_agent/agent/coordinator.py:239-269 | for every state: a raising close has changed nothing, if and only if it was stopped by its two checks; past them a clean-up failure or a pending proposal raises after the record is gone |
| `CloseLaws.CloseLosesOwner` | harness_code_agent/agent/coordinator.py:239-269 | a close takes the owner from a pending proposal exactly when it is past its checks, the agent has one, and either the clean-up fails before the store is asked, discarding or not, or nothing is discarded |
| `CloseLaws.OwnersStay` | harness_code_agent/agent/coordinator.py:93-269 | in every run, all along every undecided proposal belongs to an open agent if and only if no step is such a close |
| `CloseLaws.PendingDisjoint` | harness_code_agent/agent/coordinator.py:93-269 | without such a close, undecided proposals of different agents never share a file, whatever became of the agents |
| `CloseLaws.ClashRun` | harness_code_agent/agent/coordinator.py:239-269 | a run from an empty coordinator in which a refused close lets a second worker propose the same file: both proposals are ready, and the one applied first decides the file |
| `Messages.ToolPairsClosed` | harness_code_agent/agent/history.py:105-117 | the one-pass check with a pending set decides closedness |
| `Answering.ClosedIsBalanced` | harness_code_agent/agent/history.py:105-117 | a history is closed exactly when every assistant message is followed at once by exactly one result per call id, in any order, and no result stands elsewhere |
| `Answering.DrainExactly` | harness_code_agent/agent/history.py:105-117 | a scan with open ids succeeds exactly when the next messages answer each of them once |
| `Answering.ClosedFront` | harness_code_agent/agent/history.py:105-117 | cutting a closed history before a closed rest leaves a closed front |
| `Answering.AnswersClose` | harness_code_agent/agent/tool_executor.py:97-99 | results recorded in index order close the history exactly when the answer ids are distinct and are the expected ids |
| `Answering.OrderedJoin` | harness_code_agent/agent/conversation.py:1068-1110 | histories made of complete blocks can be joined |
| `Messages.ProperIdsAreAddressable` | harness_code_agent/runtime/tool_call_validation.py:39-50 | present, trimmed (of all Unicode white space), non-empty and distinct provider ids always match their answers |
| `History.ReuseIdentities` | harness_code_agent/agent/history.py:68-86 | the dictionary of lists, popped backwards, gives each message the number of its counterpart counted from the end, or 0 |
| `Identities.AssignedIdentifies` | harness_code_agent/agent/history.py:68-86 | an epoch's non-zero numbers are distinct and grow along equal messages |
| `Identities.AssignedNames` | harness_code_agent/agent/history.py:68-86 | each non-zero number belongs to an equal source message |
| `Identities.AssignedKept` | harness_code_agent/agent/history.py:68-86 | dropping messages by content leaves the numbers of the others alone |
| `Identities.AssignedSelf` | harness_code_agent/agent/history.py:70-86 | without a journal, a context that is its own source keeps all its numbers |
| `History.ContextHistory.Append` | harness_code_agent/agent/history.py:47-59 | appends to the live context, the raw log and the journal under one fresh number |
| `History.ContextHistory.StartEpoch` | harness_code_agent/agent/history.py:61-102 | refused exactly for unmatched calls and then without effect; else the new context with reused numbers and a journal entry that records it |
| `History.ContextHistory.Note` | harness_code_agent/sessions/journal.py:70-78 | entries of other components take a number and disturb neither identification nor replay |
| `History.AppendSound` | harness_code_agent/agent/history.py:47-59 | appending keeps numbers identifying messages and the journal replaying to the live context |
| `History.EpochSound` | harness_code_agent/agent/history.py:61-102 | so does starting an epoch |
| `History.RetainedKeepNumbers` | harness_code_agent/agent/history.py:68-86 | a context that ends in a filtered suffix of the old one keeps exactly the old numbers there, duplicates included |
| `History.AnchorStays` | harness_code_agent/agent/conversation.py:307-316 | after an epoch that retains a message, the one position that carries its number holds that message |
| `Boundaries.TurnStartStays` | harness_code_agent/agent/conversation.py:307-322 | the recomputed turn start is the same message, at its place in the new context |
| `History.RecoveryIsExact` | harness_code_agent/sessions/journal.py:90-100 | reading the journal up to an earlier moment recovers the live context of that moment with the system prompt renewed, however the journal grew since |
| `Planner.ClaimsConflictExactly` | harness_code_agent/runtime/execution_planner.py:63-75 | two claims conflict exactly when they share a location and one of them writes |
| `Planner.PlanDependencies` | harness_code_agent/runtime/execution_planner.py:41-49 | after the loops each call depends on exactly the earlier calls it must wait for |
| `Planner.AlwaysReady` | harness_code_agent/runtime/execution_planner.py:51-56 | while calls are pending one is ready: the dependency-cycle error is unreachable |
| `Planner.ReadyTogether` | harness_code_agent/runtime/execution_planner.py:51-56 | calls that are ready together do not conflict |
| `Planner.ReadyExactly` | harness_code_agent/runtime/execution_planner.py:51-56 | a pending call is ready exactly when every earlier call is completed or independent of it |
| `Planner.IndependentExactly` | harness_code_agent/runtime/execution_planner.py:59-75 | two calls are independent exactly when neither is a barrier and they share no location that one of them writes |
| `PlannedOrder.Commute` | harness_code_agent/runtime/execution_planner.py:59-60 | two calls that keep to non-conflicting claims commute, results included |
| `PlannedOrder.AllowedOrderMeansModelOrder` | harness_code_agent/runtime/execution_planner.py:41-56 | for every set of calls that ran, in any order the planner allows: the same store and the same results as running just these calls in the model's order |
| `ToolBatch.RunsAsInModelOrder` | harness_code_agent/runtime/execution_planner.py:41-56 | what a batch performed, if its calls keep to their classified claims, is what performing the same calls in the model's order gives |
| `RuntimeStates.RuntimeState.RecordToolCallBudget` | harness_code_agent/agent/conversation.py:869-885 | counts a call, or refuses it at the limit and requests a stop |
| `ToolExecution.ToolExecutor.PrepareCalls` | harness_code_agent/agent/tool_executor.py:162-221 | one prepared call per raw call with its answer id and the effect it is classified with; rejected calls become barriers with their refusal |
| `ToolExecution.ToolExecutor.Admit` | harness_code_agent/agent/tool_executor.py:264-318 | budget, refusal and middleware checks: each looked-at call is answered or ready, never both, never none, and ready exactly when it may run; undisturbed, the whole group is looked at and counted, unless the limit does not cover it |
| `ToolExecution.ToolExecutor.ExecuteGroup` | harness_code_agent/agent/tool_executor.py:264-417 | at least one call of the group gets an outcome, each at most once, marked executed exactly when it ran; the calls that ran acted on the world in the order they completed; when an exception cuts the group short, the result of every call of the batch that ran is kept under its id |
| `ToolExecution.ToolExecutor.RecordResult` | harness_code_agent/agent/tool_executor.py:535-644 | at most one result message, recorded unless an exception came first; injections are only deferred |
| `ToolExecution.ToolExecutor.RecordReady` | harness_code_agent/agent/tool_executor.py:97-99 | records what is buffered next, in index order without gaps |
| `ToolExecution.ToolExecutor.BlockRest` | harness_code_agent/agent/tool_executor.py:100-117 | after a stop every pending call gets a budget answer and keeps what completed |
| `ToolExecution.ToolExecutor.RunRound` | harness_code_agent/agent/tool_executor.py:81-99 | a round shrinks the pending set and keeps bookkeeping, schedule and recorded prefix consistent |
| `ToolExecution.ToolExecutor.RunBatch` | harness_code_agent/agent/tool_executor.py:81-126 | the rounds terminate with every call answered, or with the recorded prefix when an exception escapes |
| `ToolExecution.ToolExecutor.FlushDeferred` | harness_code_agent/agent/tool_executor.py:756-759 | the deferred texts follow as user messages, in order; when writing one raises, it and the later ones do not |
| `ToolExecution.ToolExecutor.RepairOrphans` | harness_code_agent/agent/tool_executor.py:139-160 | one answer for each call whose id the live context does not answer, in index order, with the known result where there is one; all of them, unless writing one raises |
| `ToolExecution.ToolExecutor.Execute` | harness_code_agent/agent/tool_executor.py:70-137 | one result per call in index order, then only the deferred user messages; a result is marked executed exactly when its call ran, and then is what the call itself returned; only calls that validation, profile and middlewares let run do, and without a stop all of them; they ran in an order the planner allows for the given classification, and calls that keep to their claims leave world and results as in the model's order; when nothing raises and nothing else asks for a stop, the batch finishes, and stops exactly when the tool-call limit does not cover all its calls; after an exception the recorded prefix and the repair as far as it got, or behind the last answer just fewer deferred messages; and no call that ran is answered as cancelled then: it is answered with what it returned, or with the result of a call that shares its id |
| `ToolBatch.GroupScheduled` | harness_code_agent/agent/tool_executor.py:82-99 | finishing a group keeps the schedule: no call completes before one it depends on |
| `RepairLaws.RepairAnswersRest` | harness_code_agent/agent/tool_executor.py:139-160 | with fresh ids the repair answers precisely the unanswered calls, in index order |
| `ToolBatch.RepairRemembers` | harness_code_agent/agent/tool_executor.py:139-160 | a repair out of what was kept answers a call that ran with its result, never as cancelled |
| `RepairLaws.RepairClosesExactly` | harness_code_agent/agent/tool_executor.py:139-160 | after an exception the history is closed if and only if the repair was not cut short and no unanswered call reuses an id the context had already answered |
| `RepairLaws.ReusedIdStaysOpen` | harness_code_agent/agent/tool_executor.py:139-160 | the fallback id call_0 in two turns: a cancelled second call is left unanswered |
| `Conversation.AgentConversation.constructor` | harness_code_agent/agent/conversation.py:237-249 | system message, initial epoch, start injections and first user turn establish the protocol, with fresh counters and a numbered turn start |
| `Conversation.AgentConversation.QueueMessage` | harness_code_agent/agent/conversation.py:454-465 | a message is queued trimmed, behind the others, unless nothing is left of it |
| `Conversation.AgentConversation.DrainQueued` | harness_code_agent/agent/conversation.py:471-481 | the queue is emptied into user messages, in order, each made of its tag in brackets, a line break and its whole text; or the first of them when writing raises |
| `Conversation.AgentConversation.AddUserTurn` | harness_code_agent/agent/conversation.py:425-452 | the turn starts at the appended user message, which has a number; stop flag, tool-call count and pending warnings are reset; epochs and protocol stay |
| `Conversation.AgentConversation.StartEpoch` | harness_code_agent/agent/conversation.py:307-316 | the turn start follows its message by number, or falls back to the last message |
| `Conversation.AgentConversation.EnsureRequestContract` | harness_code_agent/agent/conversation.py:324-329 | a changed contract renews the head; it raises exactly for a context that is then not closed, never for a closed one; a numbered turn start stays |
| `Conversation.AgentConversation.FlushRuntimeEvents` | harness_code_agent/agent/conversation.py:831-843 | budget warnings enter only a closed context of a turn that is not stopping, all of them, each with its text, unless writing raises |
| `Conversation.AgentConversation.AppendBlockedResults` | harness_code_agent/agent/conversation.py:899-932 | one blocked result per call, in index order; for the first calls only when finalising or writing one raises |
| `Conversation.AgentConversation.AutoCompact` | harness_code_agent/agent/conversation.py:621-676 | compaction keeps the protocol; when it happens it leaves strictly fewer tokens, the summary asked for stands in the new context before the kept messages, and a turn start behind the cut that survives it still names its message |
| `Conversation.AgentConversation.PrepareRequest` | harness_code_agent/agent/conversation.py:945-1043 | everything before a model request keeps the protocol, and every message queued at its start stands in the log, in order, behind what was there; undisturbed, the request is made unless the tool-call limit is reached |
| `Conversation.AgentConversation.HandleReply` | harness_code_agent/agent/conversation.py:1061-1109 | after a reply the protocol holds again, or an exception inside the batch left calls open exactly as its condition says; what arrived meanwhile stands in the log when the turn goes on; undisturbed, the turn stops only for a reply that ends it or at the tool-call limit |
| `Conversation.AgentConversation.AfterNoToolCalls` | harness_code_agent/agent/turn_controller.py:50-72 | a queued message always continues the turn and is in the log then; a turn that ends had none |
| `Conversation.AgentConversation.AfterToolCalls` | harness_code_agent/agent/turn_controller.py:74-101 | the turn stops exactly when nothing is queued and the model said stop; a truncated reply is told so |
| `Conversation.AgentConversation.RunUntilIdle` | harness_code_agent/agent/conversation.py:934-1112 | every request finds all calls answered, and is the live context of its moment of this very run; whatever was queued before it, also while a reply was handled, stands in its log in order; the log goes on with each reply in turn; new epochs only renew the head or are accepted compactions; on every way out the live context is closed, except after an exception inside a batch, where it is closed if and only if the stated condition holds; when nothing raises and nothing else asks for a stop, the run goes on until the replies run out, a reply ends the turn with nothing queued, or the tool-call limit is reached |
| `Conversation.AgentConversation.Submit` | harness_code_agent/agent/conversation.py:716-724 | the same for a further user turn on a conversation between turns |
| `Conversation.RunTask` | harness_code_agent/agent/conversation.py:149-160 | the same from nothing: a new conversation for one task, run until it is idle |
| `Boundaries.BoundaryBatch` | harness_code_agent/agent/conversation.py:1068-1110 | an answered batch keeps the protocol between rounds |
| `Boundaries.BoundaryRepaired` | harness_code_agent/agent/tool_executor.py:127-160 | so does a repaired batch with fresh ids |
| `Boundaries.LeftRaised` | harness_code_agent/agent/tool_executor.py:127-160 | after an exception inside a batch the protocol holds if and only if the repair got to its end and the unanswered ids are fresh |
| `Boundaries.LeftBlocked` | harness_code_agent/agent/conversation.py:899-932 | after blocking a batch the protocol holds if and only if every call got its result |
| `Boundaries.CompactedShape` | harness_code_agent/agent/conversation.py:564-574 | an accepted compaction is a new front that holds the summary and the facts, and, behind it, the messages after the cut without events and dynamic context |
| `Boundaries.SummaryMatters` | harness_code_agent/agent/context_manager.py:87-94 | two compactions of the same context with different summaries give different contexts |
| `Boundaries.CompactedBoundary` | harness_code_agent/agent/conversation.py:641-660 | so does a compacted context |
| `Compaction.WantedSplit` | harness_code_agent/agent/context_manager.py:44-51 | the cut the token limits ask for: the turn start, or the longest suffix within the limit, no earlier cut keeping the rest within it |
| `Compaction.WalkBack` | harness_code_agent/agent/context_manager.py:52-53 | the last cut at or before the wanted one whose rest is closed |
| `Compaction.CutIsClosed` | harness_code_agent/agent/context_manager.py:52-54 | a closed context is cut into a closed front and a closed rest that make up the input |
| `Compaction.Compact` | harness_code_agent/agent/context_manager.py:32-99 | an accepted result is closed, has strictly fewer tokens, and was made from the last closed cut with everything before it shown to the summarising model; what the refresh hook is given is the system message, the summary it answered with the facts behind it, and the kept messages |
| `Compaction.NothingLost` | harness_code_agent/agent/context_manager.py:54-61 | every message is the system message, a runtime event, dynamic context before the cut, kept, or summarised |
| `Compaction.CandidateHandsOver` | harness_code_agent/agent/context_manager.py:87 | the new context is the system message if any, one user message of marker, summary and facts, and the kept messages, in this order |
| `Compaction.SummarisedNext` | harness_code_agent/agent/context_manager.py:54-61 | message by message what the summarising model is shown: all but runtime events and dynamic context |
| `Compaction.CutFactsExactly` | harness_code_agent/agent/context_manager.py:59-61 | an earlier summary is shown without its facts section, any other message as it is |
| `Compaction.BeforeExactly` | harness_code_agent/agent/context_manager.py:59 | the text before the first occurrence of a marker, or the whole text |
| `Compaction.CandidateIsClosed` | harness_code_agent/agent/context_manager.py:87-94 | before the refresh hook the candidate is closed unless a tool call or result itself looks like a runtime event |
| `SessionBridge.Runtime.EnterRuntimeUse` | harness_code_agent/tui_bridge.py:1199-1214 | unless the bridge is closing, a reservation is taken exactly when the request wakes the runtime or finds a session that is neither under construction nor being suspended |
| `SessionBridge.Runtime.RequireSession` | harness_code_agent/tui_bridge.py:1231-1248 | hand out the session, join the construction, or start one |
| `SessionBridge.Runtime.InstallSession` | harness_code_agent/tui_bridge.py:409-416 | install for the current generation, else discard |
| `SessionBridge.Runtime.TakeSession` | harness_code_agent/tui_bridge.py:1249-1262 | a caller that joined a construction is given the session there is, or nothing when the bridge is closing or the construction lives |
| `SessionBridge.Runtime.StartSuspension` | harness_code_agent/tui_bridge.py:1163-1175 | begins exactly for an idle warm runtime without reservations, unfinished tasks or construction |
| `SessionBridge.Runtime.FinishSuspension` | harness_code_agent/tui_bridge.py:1188-1195 | the session is gone and a new generation begins before requests may go on |
| `SessionBridge.Runtime.LeaveRuntimeUse` | harness_code_agent/tui_bridge.py:1217-1220 | gives the reservation back |
| `SessionBridge.Runtime.EnqueueTask` | harness_code_agent/tui_bridge.py:701-709 | a task counts as unfinished from the moment it is queued, unless the bridge is closing |
| `SessionBridge.Runtime.TakeTask` | harness_code_agent/tui_bridge.py:711-720 | the worker runs one task at a time, which stays unfinished |
| `SessionBridge.Runtime.FinishTask` | harness_code_agent/tui_bridge.py:747-751 | only the end of the task, returned or raised, takes it off the count |
| `SessionBridge.Runtime.DiscardTask` | harness_code_agent/tui_bridge.py:1465-1476 | closing takes a task off the queue and the count |
| `SessionBridge.Runtime.RaiseClosing` | harness_code_agent/tui_bridge.py:1479 | the flag behind which nothing is enqueued, woken or installed any more |
| `SessionBridge.Runtime.CaptureSession` | harness_code_agent/tui_bridge.py:1480-1482 | a new generation, and the session that is there at that moment |
| `SessionBridge.Runtime.CloseCaptured` | harness_code_agent/tui_bridge.py:1489-1495 | refused while a construction is alive, else the captured session is closed, or the one there is now |
| `SessionBridge.NextKeeps` | harness_code_agent/tui_bridge.py:365-416 | every step of every thread keeps the invariant |
| `SessionBridge.RunKeeps` | harness_code_agent/tui_bridge.py:365-416 | so does every interleaving |
| `SessionBridge.ConstructionsExclusive` | harness_code_agent/tui_bridge.py:365-376 | in every interleaving at most one construction is alive, never during a suspension, and it cannot overwrite a session |
| `SessionBridge.SessionsAccounted` | harness_code_agent/tui_bridge.py:382-416 | every built session is with its thread, was installed, or was discarded, and only one of these; an installed one is current or was suspended |
| `SessionBridge.ShutdownClosesAll` | harness_code_agent/tui_bridge.py:1478-1503 | in every interleaving, when `close` has come to its end every session ever built was closed by it, by a suspension or by its thread, or is still with its thread |
| `SessionBridge.ClosingDiscards` | harness_code_agent/tui_bridge.py:405-416 | what a thread still has when the bridge is closing it closes, and installs nothing |
| `SessionBridge.SuspensionSafe` | harness_code_agent/tui_bridge.py:1111-1220 | a session held under a reservation or by a worker task is installed, not suspended, and no suspension is at work |
| `SessionBridge.WakeIsHeard` | harness_code_agent/tui_bridge.py:1199-1248 | in every state in which no suspension is at work, a waking request gets its reservation and the session there is, or joins the live construction |
| `SessionBridge.WakeCompletes` | harness_code_agent/tui_bridge.py:1199-1262 | a waking request at a runtime without a session is given the session built for it |
| `SessionBridge.SuspensionCompletes` | harness_code_agent/tui_bridge.py:1163-1197 | a suspension of an idle warm runtime comes to its end: the session is gone, a new generation begun, requests go on |
| `SessionBridge.SuspensionFails` | harness_code_agent/tui_bridge.py:1163-1197 | one whose close fails leaves everything as it was |
| `SessionBridge.HeldUntilReleased` | harness_code_agent/tui_bridge.py:1199-1220 | and it stays so under every sequence of steps until the request leaves or its task is done |
| `SessionBridge.TakenDuringSuspension` | harness_code_agent/tui_bridge.py:1256-1262 | the last section hands out a session during a suspension exactly to a call with neither a reservation nor a task |
| `SessionBridge.BareCallMayTakeClosing` | harness_code_agent/tui_bridge.py:1222-1262 | a run from the start in which such a call is given the session being closed |
| `Cancellation.NextAccounted` | harness_code_agent/agent/cancellation.py:34-64 | every step keeps each callback's registrations equal to its calls, removals and waiting entries |
| `Cancellation.CalledAtMostOnce` | harness_code_agent/agent/cancellation.py:34-64 | in every run a callback is called at most as often as it was registered, and never after being removed for it |
| `Cancellation.StepsAchieve` | harness_code_agent/agent/cancellation.py:34-64 | a cancellation makes every registered callback due once, a registration is kept or due at once, a due call calls, a removal removes one |
| `Cancellation.AttachedChildrenCancelled` | harness_code_agent/agent/cancellation.py:21-45 | once nothing is due, every child still attached to a cancelled token is cancelled, also one created after the cancellation |
| `Cancellation.CancelledForever` | harness_code_agent/agent/cancellation.py:34-40 | cancellation is never undone |
| `Cancellation.DescendantsCancelled` | harness_code_agent/agent/cancellation.py:21-45 | the same along whole chains of attached tokens |
| `Cancellation.ClosedIsForgotten` | harness_code_agent/agent/cancellation.py:57-72 | in every run, once a token's close has come to its end no parent reaches it any more, whatever happens; only what was due already is called |
| `Cancellation.CancelledWhileClosing` | harness_code_agent/agent/cancellation.py:66-72 | between the two steps of its close a child is still cancelled along with the parent it has given up |
| `CancellationTree.CancellationToken.Cancel` | harness_code_agent/agent/cancellation.py:34-45 | terminates, cancels the token and everything in the lists of what it newly cancels, and leaves other lists alone |
| `CancellationTree.CancellationToken.CreateChild` | harness_code_agent/agent/cancellation.py:21-32 | a child is born cancelled below a cancelled parent, else attached |
| `CancellationTree.CancelAll` | harness_code_agent/agent/cancellation.py:34-45 | one cancel reaches every descendant attached when it began |
| `MemoryWorker.WorkerRegistry.StartServiceWorker` | harness_code_agent/memory/background.py:127-139 | starts a worker, sets the wake-up flag, or does nothing without clients |
| `MemoryWorker.WorkerRegistry.CheckWakeUp` | harness_code_agent/memory/background.py:154-158 | goes on exactly when the flag was set, and clears it |
| `MemoryWorker.WorkerRegistry.LeaveRun` | harness_code_agent/memory/background.py:161-193 | gives up the key and arms the timer when a job is left; raises exactly when there are clients and the durable tasks cannot be read |
| `MemoryWorker.WorkerRegistry.Beat` | harness_code_agent/memory/background.py:41-52 | renews the heartbeat of an active turn only; raises before arming it when the activity cannot be stored |
| `MemoryWorker.WorkerRegistry.Close` | harness_code_agent/memory/background.py:69-84 | the last client takes the timer along |
| `MemoryWorker.WorkerRegistry.Open` | harness_code_agent/memory/background.py:26-31 | a session becomes a client and a start call is due |
| `MemoryWorker.WorkerRegistry.Begin` | harness_code_agent/memory/background.py:34-38 | a turn becomes active and its first heartbeat is due |
| `MemoryWorker.WorkerRegistry.Finish` | harness_code_agent/memory/background.py:55-66 | ends the activity before the journal is queued and the start call is due |
| `MemoryWorker.NextKeeps` | harness_code_agent/memory/background.py:26-193 | every step keeps the whole invariant |
| `MemoryWorker.RunKeeps` | harness_code_agent/memory/background.py:26-193 | so does every interleaving |
| `MemoryWorker.OneWorkerPerKey` | harness_code_agent/memory/background.py:127-165 | in every interleaving at most one worker, timers only with clients, heartbeats only for active turns |
| `MemoryWorker.NoJobForgotten` | harness_code_agent/memory/background.py:127-193 | in every interleaving, all along a schedulable job of a key with clients has a worker, a timer or a start call due, if and only if no last worker leaves while the durable tasks cannot be read |
| `MemoryWorker.LateWakeUp` | harness_code_agent/memory/background.py:147-165 | a wake-up between the last check and the exit is not lost: the exit arms the timer exactly when the durable tasks can be read |
| `MemoryWorker.WakeDrainsAgain` | harness_code_agent/memory/background.py:127-158 | a start call during a drain makes the same worker drain once more |
| `MemoryWorker.TimerBringsWorker` | harness_code_agent/memory/background.py:127-193 | an armed timer that fires brings a draining worker |
| `MemoryWorker.ActiveTurnsBeat` | harness_code_agent/memory/background.py:34-52 | in every interleaving, all along an active turn has a heartbeat armed or due, if and only if no last due heartbeat fails to be stored |
| `StreamAssembly.AssistantMessageFromStream` | harness_code_agent/agent/providers.py:186-255 | the loop computes the message, finish reason and usage the chunks spell out |
| `StreamAssembly.ReadDeltas` | harness_code_agent/agent/providers.py:217-237 | the dictionary of slots after each delta, unindexed ones included |
| `StreamAssembly.ListCalls` | harness_code_agent/agent/providers.py:245-249 | the slots that say something, in index order |
| `StreamAssembly.FoldIsSpoken` | harness_code_agent/agent/providers.py:217-237 | slot by slot the dictionary holds last id, last type, joined name and joined arguments of that call's own deltas |
| `StreamAssembly.StreamsJoin` | harness_code_agent/agent/providers.py:186-215 | of two streams in a row the texts, reasonings and deltas are joined in this order, and the later finish reason and usage win where there is one |
| `StreamAssembly.OneChunk` | harness_code_agent/agent/providers.py:186-215 | what one chunk contributes |
| `StreamAssembly.SpokenJoin` | harness_code_agent/agent/providers.py:217-237 | of two runs of deltas for one call names and arguments are joined in this order, and the later id and type win where there is one |
| `StreamAssembly.OneDelta` | harness_code_agent/agent/providers.py:217-237 | what one indexed delta says of a call |
| `StreamAssembly.UnindexedDelta` | harness_code_agent/agent/providers.py:217-222 | a delta without an index goes to the slot numbered by how many there are, and touches no other |
| `StreamAssembly.MessageExactly` | harness_code_agent/agent/providers.py:239-255 | content and reasoning are the joined texts, absent when empty; the calls are those indices that say something, ascending, each with its own id or its fallback |
| `StreamAssembly.ChunkingIndependent` | harness_code_agent/agent/providers.py:186-255 | streams that say the same give the same message, however they are split or interleaved |
| `StreamAssembly.StreamMatchesWhole` | harness_code_agent/agent/providers.py:156-255 | streaming a response gives the message of the whole response exactly when nothing in it is present but empty |
| `StreamAssembly.EmptyTextDiffers` | harness_code_agent/agent/providers.py:239-244 | the smallest response on which the two forms differ: its content is the empty text |
| `StreamAssembly.AssistantMessageFromResponse` | harness_code_agent/agent/providers.py:156-168 | the whole-message form with its fallback ids |
| `ToolSchemas.SortSorts` | harness_code_agent/agent/utils.py:147-164 | sorting by key sorts and loses nothing |
| `ToolSchemas.CanonicalExactly` | harness_code_agent/agent/utils.py:154-165 | two values share a canonical form exactly when they differ only in the order of all-string required lists, at any depth |
| `ToolSchemas.CanonicalIdempotent` | harness_code_agent/agent/utils.py:154-165 | the canonical form is a normal form |
| `ToolSchemas.ToolListsExactly` | harness_code_agent/agent/utils.py:147-165 | tool lists with distinct names share a canonical form exactly when they hold equivalent tools in any order |
| `ToolSchemas.ToolsIdempotent` | harness_code_agent/agent/utils.py:147-165 | canonicalising a canonical tool list changes nothing |
| `Observations.FactTracker.Observe` | harness_code_agent/agent/observations.py:228-239 | the observation carries the current generations; only the latest 300 are kept |
| `Observations.FactTracker.ApplyMutation` | harness_code_agent/agent/observations.py:78-121 | counts the mutation, flags exactly the overtaken observations except the one that produced it, and reports exactly the newly flagged ids |
| `Observations.Record` | harness_code_agent/agent/tool_executor.py:577-617 | observation first, then its own mutation: the new observation itself stays unflagged |
| `Observations.StaleMeansOvertaken` | harness_code_agent/agent/observations.py:123-129 | comparing generations decides whether a later counted mutation concerns the observation |
| `Observations.StalenessRefinesLog` | harness_code_agent/agent/observations.py:103-129 | a flag is never wrong, and it is missing at most from the observation of the latest counted mutation |
| `Observations.GenerationsGrow` | harness_code_agent/agent/observations.py:91-99 | generations only grow along the log |
| `SessionViews.SessionRuntimeRegistry.Publish` | harness_code_agent/core/session_runtime_registry.py:226-294 | the view changes as the event says, every branch in place, and the emission carries the next number; `shutdown` emits nothing |
| `SessionViews.Store` | harness_code_agent/core/session_runtime_registry.py:244-250 | a transcript item replaces the first one with its id, else it is appended |
| `SessionViews.UpdateEach` | harness_code_agent/core/session_runtime_registry.py:253-258 | every item with the id is extended or replaced, no other |
| `SessionViews.DropItem` | harness_code_agent/core/session_runtime_registry.py:261-263 | all rows but those with the id, in order |
| `SessionViews.MarkRecovery` | harness_code_agent/core/session_runtime_registry.py:264-266 | every group row of the turn gets the point, no other |
| `SessionViews.NoticeAppends` | harness_code_agent/core/session_runtime_registry.py:269-274 | a notice adds one row at the end, with its number, text and state, and changes nothing else |
| `SessionViews.TurnStateSets` | harness_code_agent/core/session_runtime_registry.py:275-281 | a turn state sets state and depth, 0 when none is given; closing an interaction takes away that one only |
| `SessionViews.RecoveryMarks` | harness_code_agent/core/session_runtime_registry.py:259-266 | a recovery point of turn 0 puts one origin row first; it marks every group row of its turn and, for a later turn, no other row |
| `SessionViews.Change` | harness_code_agent/core/session_runtime_registry.py:232-290 | the branches of `publish`, written in place, give the view the event stands for |
| `SessionClient.ReducerAgrees` | frontend/opentui/src/state.ts:31-92 | for every view and every event: the client's reducer, started from what it shows of the view, ends with what it shows of the changed view if and only if the stated condition on view and event holds |
| `SessionClient.NoticeDiffers` | frontend/opentui/src/state.ts:79-82 | a notice never does: the two sides number its row differently |
| `SessionDelivery.DispatchInStep` | frontend/opentui/src/state.ts:136-141 | one dispatch that skips no number keeps the client in step with the registry exactly when it is stale, a whole view, or an event that agrees |
| `SessionDelivery.DispatchAdvances` | frontend/opentui/src/state.ts:136-147 | a whole view that is not older is shown with its number, and the next event is played |
| `SessionDelivery.FollowsExactly` | frontend/opentui/src/state.ts:116-150 | all dispatches without gaps: in step all along exactly when each of them is harmless |
| `SessionDelivery.LoopGapless` | frontend/opentui/src/app.tsx:1514-1544 | in every orderly delivery the loop that holds events back behind a gap never plays an event before the one ahead of it |
| `SessionDelivery.LoopCatchesUp` | frontend/opentui/src/app.tsx:1514-1544 | in every orderly delivery in which no request for a view fails, no event is held back for ever: whenever no request is open, the client has the number of the last event that arrived |
| `SessionDelivery.ClientFollows` | frontend/opentui/src/app.tsx:1514-1544 | in every orderly delivery, with views sent unasked, numbers missing at the client, answers and failed requests, the client shows the registry's view of its number all along if and only if every event it takes in agrees and no request for a view fails; it then ends with the view of the last number it was given |
| `SessionDelivery.ResetDuringTurn` | frontend/opentui/src/state.ts:34 | a session reset while its turn runs: the client that plays the reset shows an idle turn, one that is sent the view a running one |
| `SessionDelivery.FreshClientDiffers` | frontend/opentui/src/state.ts:9-19 | a client that was never sent a view differs from the registry after every first event |
| `SessionDelivery.RegistryView` | harness_code_agent/core/session_runtime_registry.py:296-298 | what the registry sends as a whole view is the replay of everything it published, under the last number |
| `SessionViews.SessionRuntimeRegistry.RollBackCreate` | harness_code_agent/core/session_runtime_registry.py:132-144 | after a failed create the session is gone, and the active one is the previous one if visible, else the first visible one in order of creation, else none |
| `SessionViews.SessionRuntimeRegistry.BeginCreate` | harness_code_agent/core/session_runtime_registry.py:115-131 | a new session starts empty, last in order, and becomes active; a known one is switched to |
| `SessionViews.SessionRuntimeRegistry.Switch` | harness_code_agent/core/session_runtime_registry.py:155-160 | makes a known session visible and active |
| `SessionViews.SessionRuntimeRegistry.Hide` | harness_code_agent/core/session_runtime_registry.py:162-167 | a hidden session is not active; the first visible one in order of creation takes over if there is one |

## Left out

- RunUntilIdle: stated for every finite sequence of replies, since the loop itself has no bound. Replies whose call ids cannot match their answers (an id of blanks or with outer blanks, or two equal ids in one reply) are excluded, as are injected messages that are calls or results; the protocol presupposes both.
- Execute: a call acts on the world in one step, when it completes; that calls of one group overlap in time is covered only as the order in which they complete, and what a call leaves behind that an exception cut off is arbitrary.
- RecordResult: the middlewares, the failure policy and the finalisation are one arbitrary outcome (raise before, raise after, defer texts, request a stop).
- ExecuteGroup: futures complete one at a time; that tools not yet started are skipped by a cancellation is one of the arbitrary outcomes.
- Compact: the text of the summary is the answer of the summarising model as it stands under its fixed headings; putting it there is not modelled.
- FlushRuntimeEvents: a budget warning holds its marker and the kind of its limit; the turn id, the numbers and the scope it quotes are not modelled.
- NoJobForgotten: starting the worker's thread is taken to succeed.
- SuspensionSafe: says nothing about what `close` does to the users of the session it closes, by design, nor about a session kept after a failed suspension whose resources are partly released.
- ClientFollows: the pipe between the two neither loses nor reorders events, and an answer to a request for a view is not older than the event that made it necessary; gaps come from where the client starts and from events it dropped when a request failed.
- Publish: the title, status, lifecycle and last error that the registry keeps beside the view are not modelled, nor are the client's drafts, panels and unread counts; values inside a snapshot are opaque texts.
- Spawn: `str.lower` is modelled as far as its result can be a role name; whether a character is alphanumeric or a digit is a parameter.
- Planner keys are normalised component lists; path resolution and the fallback for paths without a common root are not modelled.
- Tool messages that carry tool calls, and histories in other dictionary shapes, are not represented.
- ToolListsExactly: tool names that are not strings, and schemas that are not dictionaries, are not covered.
- In `ProposalRuns` each store operation is one step; that files change between its reads and its write is covered by letting every read return an arbitrary value. Content hashes are the texts themselves, journal and message encodings the messages themselves, so collisions are not modelled.
- The order in which changed files are listed and locked is any order of the same paths.
- In `SessionBridge` and `MemoryWorker` the position of each thread is a field of the state, because a Dafny method cannot be interrupted between its critical sections; `Cancellation` keeps tokens in a sequence for the same reason.
- `AgentConversation.compact_now`, profile switching and resuming: they use the same epoch and compaction steps.
- Journals from before epochs existed, whose recovery has its own rules.
- Sandbox copying, artifacts, output limits, session stores, rewind transactions and the resource coordinator: ordering of file operations over services outside the model.
- Provider requests, retries, tracing, event emission, panels, commands, prompts, configuration and evaluation adapters.
- `followup`, `send`, `wait`, `interrupt`, `close` and capacity time-outs of the coordinator: they do not touch ownership or proposals. What a suspension saves of an agent besides identity, name, role, paths and state is not modelled.
- ShutdownClosesAll: that closing a session raises is taken as `close` not coming to its end; the ten seconds it waits for a construction are not counted.
