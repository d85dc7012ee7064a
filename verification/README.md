# Proofs about the agent platform's core

A Dafny 4.11 model of five parts of the platform, with the properties they are meant to have.
`dafny verify dfyconfig.toml` checks all of it; nothing in it is meant to be executed.

**Workflow engine.** `Dag` is Kahn's algorithm. `Engine` is the frontier scheduler as a step machine:
a state holds the variables of `run`, an event is one uninterrupted stretch of the coroutine, of one
node task or of the cancel handler, so frontier order and task interleaving are arbitrary and a cancel
may arrive anywhere. `Readings` says what a graph means without any of that: a node is skipped iff a
direct upstream condition that itself ran came out false; otherwise its output is its function of the
upstream outputs, with None for skipped ones. `Safety` proves that no reachable state disagrees with the
reading. `Conditions` spells its rules out on edges, node kinds and outputs: when a condition prunes, what a node is
given, and the equations a completed run solves. `Pinned` carries this to runs with any carried outputs, as when a
draft is resumed after an edit: they are, step by step, runs of the graph in which a carried node depends on nothing
and computes what was carried. `Settlements` proves that completed runs end alike whatever their nodes compute,
`Outcomes` how runs end, `Termination` that they end, `Traces` and `Persistence` what is written, `Records` what the
rows show of tasks, inputs and failures at any moment, `CancelProtocol` the API's cancel against a worker at an
arbitrary point, `CancelSignals` what it does in which order and what the rows show in the end, `Resume` chains of
resumed runs, and `ResumedRuns` a resume carried through to the end of the new run. `Stall` says what the scheduler
would make of a node function that returns None, which none of the built-in activities does.
`WorkflowRuns` is the workflow object with its loops; each of its executions is proved to be a run of the
step machine.

**Markdown to Jira's document format.** `Adf` is the token walkers, `AdfRoundTrip` the trees, their
flattening to levelled tokens, and the theorem that the walkers invert it.

**Streaming.** `StreamingAccumulators` is the runtime's delta and snapshot diffing and its message loop, `Assembly`
the supervisor's rebuild and the splicing of sub-agent events, `Splices` which calls and results that shows,
`StreamingBlocks` the browser's live blocks, `LiveTools` the calls among them, `Assemblers` their agreement. `Forests`
says what a list of blocks means as a tree, for any list, `BlockTree` builds that tree from shared objects, and
`Restore` brings it back from saved metadata.

**Workspace paths and artifacts.** `Paths` and `Workspace` map virtual paths to disk and back.
`Artifacts` and `ArtifactCopies` are the artifact-name validator and the copies it protects, `ArtifactRules`
what in the JSON counts as a declared name, a save and a listed artifact.

**Session lock.** `Mutexes` and `Server` are the lock, the registry and the message handler.

Conventions. Code that updates variables is a method or a class, proved against a function of its
inputs or of its earlier state; the theorems are lemmas about that function. A missing key reads as
`NoId`, `None` or the empty string, as the code only tests such values for truth. A node's computation is one
abstract function of the node and its inputs; failures and cancelled dispatches may happen to any task.

Where the code and its comments differ, the code is modelled, and the theorems say exactly when it keeps the
promise: the artifact validator compares declared names, which are stripped only later and may lead to one
place or into one another (`ArtifactCopies.ApartExactly`, with "report" and "./report" as an example), a
path can normalise into a redirected prefix without being redirected (`Workspace.RoundTripExactly`), a new
snapshot block at least as long as the last one loses its head (`StreamingAccumulators.SnapshotsAddUp`), and
two requests of one session and agent can come to run at once after a removal between them
(`Server.OverlapExactly`), although the handler's header comment promises otherwise.

## Model

| member | source | states |
|---|---|---|
| Dag.BuildTopologicalPlan | workflow-worker/worker/dag.py:16-42 | fails on an unknown edge end iff there is one; reports a cycle iff all ends are known and the graph has a directed cycle (self-loops, duplicate edges included); otherwise the plan is a permutation of the ids with every edge pointing forward |
| Dag.PlanShowsDeclarations | workflow-worker/worker/dag.py:20-36 | a planned node has the kind of the last declaration of its id, and its data, or an empty dict for data that count as false |
| Dag.DrainQueue | workflow-worker/worker/dag.py:31-38 | the queue loop ends with exactly the nodes whose in-degree reached zero listed, in a forward order |
| Dag.Release | workflow-worker/worker/dag.py:35-38 | lowering the successors of a listed node releases each node whose count reaches zero once, also with duplicate edges |
| Dag.PlanOrCycle | workflow-worker/worker/dag.py:40-41 | a plan shorter than the node set leaves a set in which every node waits for another, hence a cycle; a full one rules cycles out |
| Dag.WaitingSetHasCycle | workflow-worker/worker/dag.py:40-41 | a nonempty set in which every node has a predecessor in the set contains a directed cycle |
| Dag.OrderedGraphIsAcyclic | workflow-worker/worker/dag.py:40-42 | a forward order of all nodes excludes cycles |
| Dag.NeighboursAreEdges | workflow-worker/worker/dag.py:45-50 | the upstream and downstream comprehensions list exactly the ends of the edges at a node |
| Readings.ReadingExists | workflow-worker/worker/workflows/workflow_run.py:190-259 | every planned graph has a reading that satisfies the local equations |
| Readings.ReadingIsUnique | workflow-worker/worker/workflows/workflow_run.py:190-259 | the equations have one solution, so it does not depend on the plan's order |
| Conditions.ReadingMeans | workflow-worker/worker/workflows/workflow_run.py:183-259 | in the reading a node is skipped iff an edge leads to it from a condition whose own output is a dict with "result" missing or one of None, False, 0, "", [] and {}; otherwise its output is its function of one entry for the source of each edge into it, with that output or None |
| Safety.StepKeeps | workflow-worker/worker/workflows/workflow_run.py:173-265 | every event keeps the invariant that outputs, skips, dispatched inputs and the write log agree with the reading |
| Safety.RunKeeps | workflow-worker/worker/workflows/workflow_run.py:146-278 | the invariant holds in every state of every run whose carried outputs agree with the reading |
| Safety.SettledDecides | workflow-worker/worker/workflows/workflow_run.py:229-232 | when all upstreams are completed or skipped, being marked skipped and the collected inputs are already those of the reading |
| Pinned.RunIsPinned | workflow-worker/worker/workflows/workflow_run.py:173-265 | every run, whatever it carries, is step by step a run of the pinned graph with the same events, writes and phases, marks on carried nodes aside |
| Pinned.PinIsSound | api/app/services/workflow_run_service.py:231-249 | in the pinned graph any carried outputs are those of the reading |
| Pinned.SoundPinsNothing | api/app/services/workflow_run_service.py:244-249 | carried outputs that are those of the reading already change no meaning |
| Outcomes.SafeInEveryState | workflow-worker/worker/workflows/workflow_run.py:228-256 | in every state a dispatched node has every upstream completed or skipped, and a node that is completed and skipped was carried; with carried outputs of the reading there is none |
| Outcomes.NeverSkippedAfterwards | workflow-worker/worker/workflows/workflow_run.py:242-256 | a node in flight or completed in one state is marked skipped in no state of the run, unless it was carried against the reading |
| Outcomes.NoStall | workflow-worker/worker/workflows/workflow_run.py:228-234 | with no node lost to a None output or a stray cancel, a nonempty remaining set has a frontier, so the empty-frontier break is dead |
| Outcomes.CompletedRunHoldsReading | workflow-worker/worker/workflows/workflow_run.py:228-278 | when cancelled dispatches follow the signal, a completed run has every node completed or skipped, exactly as the reading says, if and only if every node that reads None was carried over; for a fresh run, if and only if no node reads None |
| Outcomes.PinnedRunHoldsReading | workflow-worker/worker/workflows/workflow_run.py:173-278 | for any carried outputs: a completed run holds the pinned reading, in which each carried node reads what was carried, if and only if no other node reads None |
| Settlements.Confluence | workflow-worker/worker/workflows/workflow_run.py:228-259 | two completed runs of one input, with cancelled dispatches only after the signal, end with the same context, completed, skipped and remaining, for every node function (None included), whatever was carried and whatever their orders and interleavings |
| Settlements.CompletedRunEndsRight | workflow-worker/worker/workflows/workflow_run.py:228-259 | in a completed run a node is skipped iff an upstream condition completed with false; completed iff carried, or not skipped with every upstream completed or skipped and an output other than None; left iff not carried with an upstream that is neither |
| Settlements.OneSolution | workflow-worker/worker/workflows/workflow_run.py:228-259 | these equations have one solution along the graph |
| Settlements.MarksThroughout | workflow-worker/worker/workflows/workflow_run.py:173-256 | in every state of every run, whatever it carries, `skipped` is determined by `context`: the direct successors of the completed conditions that came out false (`Conditions.MarkedThroughout` says when that is) |
| Conditions.MarkedThroughout | workflow-worker/worker/workflows/workflow_run.py:183-185 | in every state of every run the marked nodes are exactly the targets of edges that leave completed nodes of kind "condition" whose output is a dict with "result" missing or one of None, False, 0, "", [] and {} |
| Conditions.CompletedRunSolves | workflow-worker/worker/workflows/workflow_run.py:173-278 | the variables of a completed run, whatever it carries, solve the equations of every node in edges, kinds, outputs and node function: marked iff pruned by such a condition; carried ones hold what was carried; left iff an upstream is neither completed nor skipped; completed iff neither marked nor left and its function of the upstream outputs is not None, and then with that output |
| Conditions.CollectedOutput | workflow-worker/worker/workflows/workflow_run.py:243-256 | collecting an output completes the node unless it was marked or the output is None, and marks exactly the targets of its edges when it is a condition and the output prunes |
| Conditions.CarriedNode | workflow-worker/worker/workflows/workflow_run.py:173-185 | carrying a node completes it with what was carried, and marks by the same rule |
| Conditions.DispatchedOn | workflow-worker/worker/workflows/workflow_run.py:190-209 | in every state a dispatched node was given one entry for the source of each edge into it, with its output or None, and each of these is completed or skipped |
| Conditions.RoundOpens | workflow-worker/worker/workflows/workflow_run.py:228-239 | a round opens only without a failure or a cancel, with a waiting task for each node left whose upstreams are all completed or skipped, and for no other |
| Conditions.LoopLeft | workflow-worker/worker/workflows/workflow_run.py:228-276 | the loop can be left exactly when nothing is left, a node failed, the run was cancelled or no node is ready; what is left is then to be written skipped, unless the run completes |
| Outcomes.ConfluenceAcrossResumes | workflow-worker/worker/workflows/workflow_run.py:173-278 | completed runs of one graph that carried different outputs end alike when every node that reads None was carried by both |
| Outcomes.QuietRunCompletes | workflow-worker/worker/workflows/workflow_run.py:267-278 | a run without failure or cancel that ends, ends completed, whatever it carries, and holds the pinned reading iff every node that reads None was carried |
| Outcomes.VerdictThroughout | workflow-worker/worker/workflows/workflow_run.py:261-278 | the verdict is failed iff a failure was recorded, and cancelled only after a cancel: failure wins |
| Termination.StepLowers | workflow-worker/worker/workflows/workflow_run.py:228-265 | every event but a repeated cancel lowers a measure |
| Termination.RunsAreShort | workflow-worker/worker/workflows/workflow_run.py:228-265 | a run over n nodes has at most 9n + 5 effective events, whatever it carries |
| Termination.NeverStuck | workflow-worker/worker/workflows/workflow_run.py:228-278 | a run that has not ended can take a step other than a cancel, whatever it carries |
| Traces.EndedTraces | workflow-worker/worker/workflows/workflow_run.py:173-278 | at the end of any run the statuses of each plan node form one of the five shapes, or none for a node left untouched by a completed run; a carried node has one "completed" and nothing else, even if marked |
| Traces.AllTracesFull | workflow-worker/worker/workflows/workflow_run.py:173-278 | when every node that reads None, with carried nodes pinned, is carried and cancelled dispatches follow the signal, every plan node of every ended run has exactly one of the five shapes |
| Traces.OneVerdictLast | workflow-worker/worker/workflows/workflow_run.py:267-278 | the run row goes running, verdict, and the verdict is the last write of all |
| Persistence.RunStore.SetRunStatus | workflow-worker/worker/activities/persistence.py:23-36 | the run row after the write, as a function of the row before it |
| Persistence.RunStore.SetNodeStatus | workflow-worker/worker/activities/persistence.py:43-90 | the node row is created or updated, keeping input, output, error and times that the write does not give |
| Persistence.RunStore.MarkRunCancelled | api/app/services/workflow_run_service.py:169-190 | only pending or running rows change; the result says whether the run row did |
| Persistence.RowShowsTrace | workflow-worker/worker/activities/persistence.py:66-90 | a node row exists iff something was written, shows the last status, has a start time iff it ran and an end time iff a terminal status was written |
| Persistence.RowsAgree | workflow-worker/worker/activities/persistence.py:66-90 | a row that reads completed, or has an output, holds the output of the reading |
| Persistence.NodeRowFields | workflow-worker/worker/activities/persistence.py:43-90 | a node row has the input, output and error of the last write that gave one, the start time of the first "running" write and the end time of the first terminal one |
| Persistence.RunRowFields | workflow-worker/worker/activities/persistence.py:23-36 | the run row has the error of the last write that gave one and the times of the last "running" and of the last terminal write |
| Records.TasksInRows | workflow-worker/worker/workflows/workflow_run.py:190-226 | in every state of every run the row of a node in the round shows its task: none while it waits, then "running" with exactly what it was dispatched on, then its status with its output or its error |
| Records.RowInputs | workflow-worker/worker/workflows/workflow_run.py:194-209 | in every state a row has an input iff its node started, and the input is one entry for the source of each edge into the node, with the output that source ends with or None |
| Records.FailedRunsBlame | workflow-worker/worker/workflows/workflow_run.py:243-269 | the run fails iff a node row reads failed, and then the run row shows the error of such a row, or "node failed" for an empty one; otherwise it shows none |
| Records.NothingStartsAfterFailure | workflow-worker/worker/workflows/workflow_run.py:228-269 | after the round in which a node failed no node starts any more |
| Records.CarriedInRows | workflow-worker/worker/workflows/workflow_run.py:173-182 | at the end of any run a carried node has a completed row with the carried output and no start |
| Records.CancelledInTime | workflow-worker/worker/workflows/workflow_run.py:228-276 | a run told to cancel before it leaves its loop ends cancelled, unless a node failed |
| WorkflowRuns.WorkflowRun.Execute | workflow-worker/worker/workflows/workflow_run.py:146-278 | the coroutine returns for every plan; the sequence of its states is a run of the step machine ending with the returned status, which is what the run row shows |
| WorkflowRuns.WorkflowRun.RunRound | workflow-worker/worker/workflows/workflow_run.py:236-259 | a round only removes nodes from remaining and removes its whole frontier |
| WorkflowRuns.WorkflowRun.ComputeFrontier | workflow-worker/worker/workflows/workflow_run.py:229-232 | the frontier lists, in any order and once each, the remaining nodes whose upstreams are all completed or skipped |
| WorkflowRuns.WorkflowRun.StartTask | workflow-worker/worker/workflows/workflow_run.py:190-209 | a task skips itself iff cancelled or marked, otherwise is dispatched on its upstreams' outputs; one write each |
| WorkflowRuns.WorkflowRun.FinishTask | workflow-worker/worker/workflows/workflow_run.py:210-226 | a dispatched task ends with its function's output, a failure or a cancellation, and writes that status |
| WorkflowRuns.WorkflowRun.CollectTask | workflow-worker/worker/workflows/workflow_run.py:243-256 | collecting is the machine's step: it removes the node, records a failure, or completes it; `Conditions.CollectedOutput` says which successors that marks |
| WorkflowRuns.WorkflowRun.CancelSignal | workflow-worker/worker/workflows/workflow_run.py:139-144 | the handler sets the flag and nothing else the scheduler reads |
| WorkflowRuns.WorkflowRun.CarryNode | workflow-worker/worker/workflows/workflow_run.py:173-185 | a carried node starts completed with its output, by the machine's step; `Conditions.CarriedNode` says which successors that marks |
| WorkflowRuns.WorkflowRun.EndRun | workflow-worker/worker/workflows/workflow_run.py:261-278 | what is left is written skipped unless the run completed, then the verdict is written |
| WorkflowRuns.RunDefinition | workflow-worker/worker/workflows/workflow_run.py:146-158 | a definition that cannot be planned fails its run with the reason, for an unknown end of an edge or a cycle, and without any node row; any other ends with a terminal run row, rows of its own nodes only, the carried ones completed with what was carried and never started, and failed iff a node failed |
| WorkflowRuns.RunHasVerdict | workflow-worker/worker/activities/persistence.py:23-36 | the run row of an ended run shows the verdict it ended with |
| CancelProtocol.CancelLeavesNothingLive | api/app/services/workflow_run_service.py:135-190 | when cancel_run returns the run row is terminal and no node row is pending or running, however worker, signal and poll interleaved, for planned definitions with any carried outputs and for those that cannot be planned; `CancelSignals` says what was done for it |
| CancelProtocol.TerminalRunRowIsFinal | api/app/services/workflow_run_service.py:169-182 | a terminal run row, whoever wrote it, is never changed again |
| CancelProtocol.TerminalNodeRowIsFinal | api/app/services/workflow_run_service.py:183-190 | a terminal node row, whoever wrote it, is never changed again |
| CancelProtocol.WorkersVerdictStands | api/app/services/workflow_run_service.py:175-182 | a run the worker ended keeps the worker's verdict |
| CancelProtocol.CancelReturns | api/app/services/workflow_run_service.py:148-166 | cancel_run returns after at most fifteen remote calls, whatever the worker does meanwhile |
| CancelSignals.SignalComesFirst | api/app/services/workflow_run_service.py:148-166 | in every world of every history cancel_run polls or terminates only a workflow that it has signalled or that has ended; a workflow is terminated only after the signal and exactly ten polls that found it open; a worker is cancelled only by the signal |
| CancelSignals.GoneIsNotSignalled | api/app/services/workflow_run_service.py:148-151 | a cancel that finds the workflow no longer open when it checks reconciles at once and never signals |
| CancelSignals.SignalArrives | api/app/services/temporal_client.py:56-71 | a signalled worker that was picked up and has not ended can be told so at any point, which sets its flag and changes nothing else |
| CancelSignals.NothingStartsAfterDelivery | workflow-worker/worker/workflows/workflow_run.py:139-194 | after the signal was delivered no node starts any more: every start time in the rows was there before |
| CancelSignals.ReasonFits | api/app/services/workflow_run_service.py:148-166 | the three reconciliation texts are given exactly to their cases: closed and never signalled, closed after the signal, terminated |
| CancelSignals.CancelledRowsShow | api/app/services/workflow_run_service.py:135-190 | when cancel_run has returned, a closed workflow shows exactly what its worker wrote, and a terminated one shows that with a live run row cancelled for the one fitting reason and live node rows skipped |
| CancelProtocol.WorldThroughout | api/app/services/temporal_client.py:56-98 | until the API reconciles, the rows are exactly the worker's writes; it reconciles only a closed or terminated execution |
| Resume.ResumeRun | api/app/services/workflow_run_service.py:207-271 | a success has the definition of the source's version, or the live one of a draft, the root of the chain, and carries exactly the outputs of the completed rows of string-id nodes of that definition, of which one is not done; refused iff the version is gone, names collide, or every node is done |
| ResumedRuns.ResumeAndRun | api/app/services/workflow_run_service.py:207-290 | the new run runs that definition and no other: rows are of its nodes only, and every node done in the source ends completed with the same output without having started again; a refused resume writes nothing |
| Resume.CarriedIsSound | api/app/services/workflow_run_service.py:244-249 | whatever state a run stopped in and whatever it carried itself, the outputs carried over agree with its pinned reading, and with the reading if what it carried did |
| Resume.ResumeHasWork | api/app/services/workflow_run_service.py:251-259 | an accepted resume of a nonempty definition begins its rounds with nodes left and with a frontier |
| Resume.ChainIsSound | api/app/services/workflow_run_service.py:236-284 | every run of a resume chain, whether its predecessor stopped by itself or was marked cancelled, carries outputs of the reading and keeps the root id of the first |
| Resume.ChainSharesSessions | workflow-worker/worker/activities/agent_step_helpers.py:24-27 | every run of a chain uses, for a step, the id derived from the first run's id and the node |
| Resume.ResumedEqualsUninterrupted | workflow-worker/worker/workflows/workflow_run.py:173-187 | whatever its nodes compute, a run of a chain that completes ends with the context, completed and skipped of any uninterrupted completed run if and only if nothing it carried is None |
| Resume.EditedResumeIsPinned | api/app/services/workflow_run_service.py:231-249 | a completed run of an edited definition ends with the context, completed and (carried nodes aside) skipped of any uninterrupted completed run of the pinned graph if and only if nothing it carried is None |
| Resume.ChainTraceable | api/app/services/workflow_run_service.py:244-249 | each output a chain carries is one the uninterrupted run completes too, or goes back to a carried None |
| Stall.NoneOutputStalls | workflow-worker/worker/workflows/workflow_run.py:233-251 | for a node function that returns None for a first node, a run without failure or cancel ends completed with the successor neither completed nor skipped |
| Adf.WalkInline | local-infra/mcp-servers/jira/cloud.py:154-202 | the loop computes the inline walk of its tokens, for every token list |
| Adf.WalkBlocks | local-infra/mcp-servers/jira/cloud.py:35-103 | the loop computes the block walk, and ends on every token list, malformed ones included, because fewer tokens follow each nested start; `AdfRoundTrip.BlocksRoundTrip` and `AdfRoundTrip.LeavesMean` say what the walk is |
| Adf.WalkTable | local-infra/mcp-servers/jira/cloud.py:106-117 | the loop computes the rows of a table |
| Adf.WalkTableRow | local-infra/mcp-servers/jira/cloud.py:120-139 | the loop computes the cells of a row, each with one paragraph |
| Adf.FindBlockClose | local-infra/mcp-servers/jira/cloud.py:27-32 | the first close of the type at the opening level after it, or the end |
| Adf.BlockClose | local-infra/mcp-servers/jira/cloud.py:27-32 | that position closes at the level, and nothing before it does |
| Adf.FindInlineClose | local-infra/mcp-servers/jira/cloud.py:142-151 | the close at which the depth count returns to zero, or the end |
| Adf.MdToAdf | local-infra/mcp-servers/jira/cloud.py:16-24 | empty text gives an empty document, any other text its blocks or one empty paragraph |
| AdfRoundTrip.MatchingClose | local-infra/mcp-servers/jira/cloud.py:27-32 | around content that lies deeper the matching close is found |
| AdfRoundTrip.DepthBalances | local-infra/mcp-servers/jira/cloud.py:142-151 | counting depth across a flattened inline list changes nothing, for every construct and depth |
| AdfRoundTrip.InlineRoundTrip | local-infra/mcp-servers/jira/cloud.py:154-202 | the walk of a flattened inline tree yields its leaves in order, each text with exactly the marks around it, outermost first; soft breaks are unmarked spaces |
| AdfRoundTrip.BlocksRoundTrip | local-infra/mcp-servers/jira/cloud.py:35-103 | wherever flattened blocks stand in a token list, the walk over them yields exactly their document nodes; code blocks come back with the text before the final newlines and the language between the blanks of the info |
| AdfRoundTrip.EveryFence | local-infra/mcp-servers/jira/cloud.py:81-84 | every fence, whatever its info and content, flattens from such a tree, so nothing is left out |
| AdfRoundTrip.LeavesMean | local-infra/mcp-servers/jira/cloud.py:81-91 | over any token list each emitted code block holds its token's content up to its final newlines and, for a fence, the info without blank ends as its language |
| AdfRoundTrip.WithoutInline | local-infra/mcp-servers/jira/cloud.py:41-56 | a paragraph or heading without inline content comes out empty, a heading without an "h" tag at level 1 |
| AdfRoundTrip.OthersPassedOver | local-infra/mcp-servers/jira/cloud.py:101-139 | a token without a branch in the block, row, cell or inline walker is passed over alone, whatever it contains |
| AdfRoundTrip.SectionsRoundTrip | local-infra/mcp-servers/jira/cloud.py:106-139 | head and body sections of a table come back as its rows, header and data cells in place |
| AdfRoundTrip.DocumentRoundTrip | local-infra/mcp-servers/jira/cloud.py:16-24 | a flattened document comes back as its document tree, or as one empty paragraph when that is empty |
| AdfRoundTrip.LeavesAreVisited | local-infra/mcp-servers/jira/cloud.py:35-103 | over any token list the code blocks and rules in the result are, in order, those of the tokens the walk visits |
| AdfRoundTrip.LeavesOnceInOrder | local-infra/mcp-servers/jira/cloud.py:27-103 | over any token list, well-formed or not, if every close the walk finds lies within the walk that looked for it, the code blocks and rules it emits are those of distinct tokens, in token order |
| StreamingAccumulators.StreamingAccumulator.ConsumeStreamEvent | runtime/src/streaming-accumulator.ts:28-44 | a nonempty delta is emitted, counted and makes later snapshots mute |
| StreamingAccumulators.StreamingAccumulator.ConsumeAssistantBlock | runtime/src/streaming-accumulator.ts:47-83 | a snapshot emits its new part unless deltas came; a tool call is emitted the first time only |
| StreamingAccumulators.StreamingAccumulator.ResetForNewTurn | runtime/src/streaming-accumulator.ts:90-93 | only the two lengths are reset |
| StreamingAccumulators.ProcessMessage | runtime/src/agent.ts:613-684 | the chunks of a turn and the final accumulator, for a normal, an aborted and a failed end |
| StreamingAccumulators.ResponseIsStreamed | runtime/src/agent.ts:619-664 | at every point fullResponse is the concatenation of the emitted text chunks, the fallback included |
| StreamingAccumulators.SupervisorSeesResponse | agent-supervisor/app/services/stream_service.py:69-103 | on a turn that was not cancelled the supervisor's text equals fullResponse |
| StreamingAccumulators.ToolsEmittedOnce | runtime/src/streaming-accumulator.ts:71-81 | no tool id is emitted twice |
| StreamingAccumulators.DeltasAreSticky | runtime/src/streaming-accumulator.ts:28-69 | from the first delta on, text or thinking, what is said on each channel grows by its own deltas alone, and speech by the result while there is none; snapshots add nothing; the response is the speech |
| StreamingAccumulators.DeltaEmitted | runtime/src/streaming-accumulator.ts:28-44 | after any messages a nonempty delta is emitted as it came and recorded as one; any other stream event changes nothing |
| StreamingAccumulators.BlocksSilent | runtime/src/streaming-accumulator.ts:47-83 | from the first delta on an assistant snapshot emits tool calls only |
| StreamingAccumulators.SnapshotsAddUp | runtime/src/streaming-accumulator.ts:47-69 | for text and for thinking, on streams without deltas (stream events that carry none included) and for every division of the turns into blocks whose snapshots extend one another: what is emitted is the concatenation of what each block last said if and only if every block opens strictly shorter than the one before it in its turn ended, or that one ended empty |
| StreamingAccumulators.LongerBlockLosesItsHead | runtime/src/streaming-accumulator.ts:47-69 | otherwise exactly as many characters are lost as the blocks before the ones that open no shorter had in all |
| StreamingAccumulators.ClosedTurnsAddUp | runtime/src/agent.ts:655-664 | the same equivalence for a completed turn with its closing result, whose text counts only if no block said anything |
| StreamingAccumulators.OthersAnnounced | runtime/src/agent.ts:619-664 | besides text and thinking a stream is exactly each tool call at its first listing, each tool result, each progress time and an end per result message, in message order |
| Assembly.RebuildBlocksFromChunks | agent-supervisor/app/assembly.py:31-75 | the loop over chunks and the in-place attachment give the rebuilt text and blocks, in fresh dicts |
| Assembly.AttachToolResults | agent-supervisor/app/assembly.py:21-28 | every dict gets the result of its id, in place, and no other change |
| Assembly.MergeA2AEvents | agent-supervisor/app/assembly.py:78-113 | the in-place loop computes the merge, appends fresh dicts to the list it was given, and clears the lists it read; `Splices.MergedShows` says what the merge is |
| Splices.MergedShows | agent-supervisor/app/assembly.py:78-113 | a merged message is the message followed by the calls announced by the stored events of its cards (tool calls named "mcp__system__a2a_..." with an id), card by card, each card once, in event order; a spliced call has the content, uncut, and flag of the last of these events that is a result for its id, and no result iff there is none; exactly the cards' events leave the store |
| Splices.RebuiltShows | agent-supervisor/app/assembly.py:15-75 | the tool calls of a rebuilt message are those announced, all and in order; a call has the flag and content, cut after 10240 characters with a note, of the last result for its id, and no result iff there is none |
| Assembly.TextIsContent | agent-supervisor/app/assembly.py:31-43 | full_text is the concatenation of all chunk contents |
| Assembly.AbortTruncates | agent-supervisor/app/assembly.py:31-75 | every block flushed by the last tool_use of a prefix keeps its position and, results aside, its content in the whole rebuild; the text is a prefix |
| StreamingBlocks.Accumulator.HandleMessage | web/src/features/chat/hooks/use-streaming-blocks.ts:52-136 | the new block list as a function of the old one and the message |
| StreamingBlocks.ResolveAll | web/src/features/chat/hooks/use-streaming-blocks.ts:149-155 | no call is left running and no block changes otherwise |
| StreamingBlocks.FinalizeKeepsMeta | web/src/features/chat/hooks/use-streaming-blocks.ts:149-181 | finalizing changes neither the saved blocks nor the text |
| StreamingBlocks.LiveText | web/src/features/chat/hooks/use-streaming-blocks.ts:157-162 | for every stream the text on screen is the concatenation of its text chunks |
| LiveTools.LiveToolsShown | web/src/features/chat/hooks/use-streaming-blocks.ts:64-133 | after any stream the calls on screen are those announced, all and in order, each with the last result for its id that came after it, the last progress time, and running iff neither such a result nor any text has come |
| LiveTools.BlanksDiffer | web/src/features/chat/hooks/use-streaming-blocks.ts:164-181 | what Python and JavaScript trim differs in exactly six characters |
| Assemblers.AssemblersAgree | web/src/features/chat/hooks/use-streaming-blocks.ts:164-181 | with new nonempty tool ids, results after their calls and not cut, and thinking before text in every stretch, getBlocksMeta equals the rebuilt blocks if and only if the thinking and the text of each stretch are blank to both languages or to neither; it is the same before and after finalize, and the texts are equal in any case |
| Assemblers.StatesCorrespond | agent-supervisor/app/assembly.py:38-68 | after every prefix of such a stream the browser's list is its settled blocks, then at most one open thinking and one open text block with the supervisor's open strings; what it would save of the settled ones equals the flushed blocks with their results iff no closed stretch is blank to one language only |
| Assemblers.NoCardsNoSplice | agent-supervisor/app/assembly.py:85-113 | without sub-agent cards nothing is spliced in |
| Assemblers.AgreeIffThinkingFirst | agent-supervisor/app/assembly.py:38-68 | on streams with the tool clauses above, no blank chunk, and only characters both languages trim or neither does, getBlocksMeta equals the rebuilt blocks if and only if thinking comes before text in every stretch |
| Assemblers.BrowserInverts | web/src/features/chat/hooks/use-streaming-blocks.ts:52-90 | whenever thinking follows text in a stretch the browser keeps a thinking block right after a text block, whatever comes next |
| Assemblers.RebuiltNotInverted | agent-supervisor/app/assembly.py:38-68 | the supervisor never puts a thinking block right after a text block |
| BlockTree.BuildBlockTree | web/src/features/chat/lib/build-block-tree.ts:12-46 | one clone per id (the last block wins), children in list order under their parent, empty lists deleted; for every list, circular parents and duplicate ids included, following `children` to any depth reads what the list means to that depth, and to the number of calls its forest |
| Forests.EveryBlockOnce | web/src/features/chat/lib/build-block-tree.ts:12-46 | with unique tool ids, every block stands in the forest as often as it is listed, each call exactly once, if and only if following listed parents never goes in a circle, self-parents included |
| Forests.CallStands | web/src/features/chat/lib/build-block-tree.ts:23-36 | a call stands in the forest once if climbing its listed parents reaches the top, and not at all otherwise |
| Forests.PlainStands | web/src/features/chat/lib/build-block-tree.ts:31-35 | any other block stands as often as it is listed |
| Forests.HeightsIffNoCircles | web/src/features/chat/lib/build-block-tree.ts:24-29 | climbing reaches the top from every call iff no walk along parents returns to its start |
| Forests.ChildrenUnderParent | web/src/features/chat/lib/build-block-tree.ts:24-29 | wherever a call stands in the forest, its children are all blocks of the list that name it as parent, in list order |
| Forests.RootsAreTop | web/src/features/chat/lib/build-block-tree.ts:29-35 | the top level holds all blocks that name no listed call as parent, in list order |
| Restore.RestoreBlocks | web/src/features/chat/lib/restore-blocks.ts:11-67 | fails at the first tool entry without id or name, and the entries before it all have both; otherwise every entry has and the objects read as the forest of the restored list |
| Restore.FirstUnreadable | web/src/features/chat/lib/restore-blocks.ts:17-30 | the index reported is that of the first tool entry without id or name; success means there is none, and each entry is restored field by field, with what stands in for a missing field |
| Restore.RestoreAfterSave | web/src/features/chat/lib/restore-blocks.ts:17-66 | restoring what getBlocksMeta saved gives the live tree up to generated ids, elapsed and blank blocks, a null tool input becomes an empty object, and calls without result are marked when cancelled |
| Restore.KeptAllWhole | web/src/features/chat/lib/restore-blocks.ts:17-64 | a finalized list without blank blocks, progress times or null inputs is restored as it was |
| Restore.EventsNestUnderCard | agent-supervisor/app/assembly.py:84-113 | if the calls of a message and of its sub-agent events have unique ids and no call of the message names an event as parent, all blocks of the merged message stand in its tree iff the message itself had no circle of parents, and each card's children are the calls that named it, then exactly the calls its own events announce, in order, each with the last result for its id among the events of all cards |
| Restore.SpliceUnder | agent-supervisor/app/assembly.py:85-109 | a card's events are spliced in once and cleared; events of other ids stay |
| Workspace.InsideBaseExactly | runtime/src/workspace.ts:79-87 | the string check accepts exactly the paths that normalise to the base or below it in whole segments |
| Workspace.AcceptedStaysInside | runtime/src/workspace.ts:97-126 | every accepted path is its base followed by plain segments |
| Workspace.RequestLands | runtime/src/workspace.ts:97-126 | a request is slashes and segments: if the first segment is ".claude" or ".venv" it needs an agent and the others are walked in that agent's directory of that name; otherwise all are walked in the shared directory; a walk that ends outside is refused |
| Workspace.EveryRequest | runtime/src/workspace.ts:102-105 | every string is such a request |
| Workspace.VirtualPathIs | runtime/src/workspace.ts:128-137 | the virtual path is "/" and the segments below the base, after ".claude" or ".venv" for a redirected one |
| Workspace.RoundTripExactly | runtime/src/workspace.ts:97-137 | resolving the virtual form of an accepted path gives the same base and disk path iff it is not a shared path that normalised into a redirected prefix |
| Workspace.ShadowedPathExists | runtime/src/workspace.ts:97-126 | "x/../.claude" is such a path |
| Paths.InsideIffPrefix | runtime/src/workspace.ts:81-85 | on rendered paths, prefix with a separator means prefix by segments |
| Paths.SplitJoin | runtime/src/workspace.ts:128-137 | splitting undoes joining |
| Paths.JoinSplit | runtime/src/workspace.ts:102-105 | joining undoes splitting, for every string |
| Paths.WalkRules | runtime/src/workspace.ts:79-87 | empty and "." segments do nothing, ".." takes back the plain segment before it and does nothing at the root |
| Paths.WalkConcat | runtime/src/workspace.ts:79-87 | walking two lists of segments is walking one after the other |
| Artifacts.ValidateArtifactNames | api/app/services/workflow_run_service.py:44-82 | rejects iff some node has two distinct direct upstreams declaring one name, and names such a collision |
| ArtifactRules.CollisionMeans | api/app/services/workflow_run_service.py:44-82 | a collision is two edges into one node from different nodes, all with string ids, whose last declarations that list any artifact share a name as written |
| Artifacts.CheckTarget | api/app/services/workflow_run_service.py:72-82 | the inner loops find two sources of one target that share a name iff there are such |
| Artifacts.NormalizeArtifacts | workflow-worker/worker/activities/agent_step_helpers.py:74-92 | the loop keeps the first entry of each stripped, nonblank name |
| Artifacts.NormalizedNames | workflow-worker/worker/activities/agent_step_helpers.py:74-92 | the names kept are exactly the stripped nonblank declared names, each once |
| ArtifactRules.NormalizedEntries | workflow-worker/worker/activities/agent_step_helpers.py:74-92 | the kept artifacts are, in entry order, the first entry of each trimmed nonblank name, with its trimmed description unless that is missing or blank |
| Artifacts.ArtifactsProduced | workflow-worker/worker/activities/agent_step_helpers.py:268-285 | one entry per saved declared name, in order of first save |
| Artifacts.SavedAreDeclared | workflow-worker/worker/activities/agent_step_helpers.py:268-285 | a name is listed iff some save call for it exists and it is declared, and once; `ArtifactRules.SavedMeans` says which blocks are save calls |
| ArtifactRules.SavedMeans | workflow-worker/worker/activities/agent_step_helpers.py:268-285 | a block saves a declared name iff its "type" is "tool_call", its "name" is "mcp__system__save_as_artifact" and its "input" is an object with that "artifact_name" |
| ArtifactRules.ProducedMeans | workflow-worker/worker/activities/agent_step_helpers.py:268-285 | the payload has one entry per declared saved name, in the order of the first saves, with its name and the path workflows/root/artifacts/node/name |
| Artifacts.CollectInputArtifacts | workflow-worker/worker/activities/agent_step_helpers.py:95-109 | all nonempty listed names of all upstream payloads, in order |
| ArtifactRules.InputRefsMean | workflow-worker/worker/activities/agent_step_helpers.py:95-109 | payload by payload, in order, every entry of its "artifacts_produced" list with a nonempty string name |
| Artifacts.CopyInputArtifacts | runtime/src/agent.ts:317-339 | the workspace after replacing each destination in order, skipping what was never saved |
| ArtifactCopies.ProducedIsHonest | workflow-worker/worker/activities/agent_step_helpers.py:268-285 | a payload made by _artifacts_produced lists each name once and only declared ones |
| ArtifactCopies.NamesDistinctExactly | workflow-worker/worker/activities/agent_step_helpers.py:95-109 | the copied names of a node are always distinct if and only if no two upstreams declare names equal after stripping |
| ArtifactCopies.CollisionOverwrites | runtime/src/agent.ts:323-338 | with two such upstreams, inputs exist whose copies go to one destination |
| ArtifactCopies.CopiedAt | runtime/src/agent.ts:323-338 | under a destination the workspace holds the artifact, elsewhere what was there before |
| ArtifactCopies.ApartExactly | runtime/src/agent.ts:323-338 | for every definition, node and directory, with any names: the copies into the node always go to places none of which lies at or below another, and the workspace never depends on their order, each if and only if no two artifacts that its upstreams declare have destinations that meet |
| ArtifactCopies.AcceptedDoNotMeet | api/app/services/workflow_run_service.py:44-82 | the validator is enough for trimmed single-segment names: accepted definitions have no meeting |
| ArtifactCopies.AcceptedCopiesCommute | api/app/services/workflow_run_service.py:44-82 | so for accepted definitions with such names, copies go to pairwise distinct places and the workspace does not depend on their order |
| ArtifactCopies.UntrimmedExample | api/app/services/workflow_run_service.py:55-62 | two upstreams declaring "report" and " report" are accepted and collide |
| ArtifactCopies.UntrimmedNamesEscape | api/app/services/workflow_run_service.py:55-62 | names that differ only in blank ends pass the validator and collide |
| ArtifactCopies.DottedNamesMeet | api/app/services/workflow_run_service.py:72-82 | a plain name and the same name after "./" pass the validator, do not collide after stripping, and go to one place |
| ArtifactCopies.DottedExample | runtime/src/agent.ts:330-331 | for instance "report" and "./report" |
| Mutexes.Mutex.Acquire | runtime/src/session-manager.ts:36-51 | grants at once iff unlocked, otherwise queues the caller last |
| Mutexes.Mutex.Release | runtime/src/session-manager.ts:41-45 | the lock passes to the waiter that asked first, or opens |
| Mutexes.FirstComeFirstServed | runtime/src/session-manager.ts:31-54 | over every interleaving of acquires and one release per grant, at most one holder exists, grants follow the order of the acquires, and waiters exist only while locked |
| Server.SessionManager.GetOrCreate | runtime/src/session-manager.ts:67-88 | the registered entry, or a new one with an open lock registered under the key |
| Server.SessionManager.RemoveKey | runtime/src/session-manager.ts:94-98 | the key leaves the registry; the entry itself, its holder and its waiters stay |
| Server.SessionManager.Arrives | runtime/src/server.ts:83-91 | the handler up to its lock: one step of the machine |
| Server.SessionManager.Finishes | runtime/src/server.ts:119-123 | release, then remove by key: one step of the machine |
| Server.RunKeeps | runtime/src/server.ts:83-123 | in every world of every run each entry is locked iff some request runs on it, at most one does, and its queue is exactly the requests waiting on it, each once |
| Server.OneHolderPerEntry | runtime/src/server.ts:91-123 | two running requests on one entry are the same request |
| Server.WaiterCanRun | runtime/src/server.ts:91-123 | no wake-up is lost: from every world, finishing the holders of its entry brings a waiter to run, and requests on other entries stay as they are |
| Server.RemovalSeparates | runtime/src/session-manager.ts:67-98 | a removal between two arrivals of a key gives them different entries |
| Server.OverlapNeedsRemove | runtime/src/server.ts:83-123 | two requests of one key that run at once imply a removal of the key between their getOrCreate calls |
| Server.OverlapExactly | runtime/src/server.ts:83-123 | two unfinished requests of one key can come to run at once if and only if the key was removed from the registry between their getOrCreate calls |

## Left out

- Temporal, Postgres, Redis pub/sub and expiry, HTTP and SSE transport: persistence writes are atomic and succeed, Redis lists are lossless sequences, a remote call of the cancel path is one step.
- Cancellation landing outside a dispatch (inside a status write or the session set-up): the exception escapes `run`; a task is cancelled only while dispatching.
- Node semantics (templates, agent steps, retries, `_single_input`): one abstract function per node; a failing or cancelled dispatch may happen at any time.
- CancelProtocol.CancelLeavesNothingLive: for cancels issued after `create_run` returned; a row inserted but never started is not covered.
- Resume.EditedResumeIsPinned: relates a resume of an edited draft to the pinned graph, not to an uninterrupted run of the edited definition, which computes its own outputs for the carried nodes.
- Resume.ResumedEqualsUninterrupted: for runs whose cancelled dispatches follow the cancel signal, and resumes that see all nodes of the graph as live; a dispatch cancelled by anything else has no counterpart in an uninterrupted run.
- Definitions with node entries that are not objects, and JSON fields of the wrong type where the source would raise.
- Adf.MdToAdf: the markdown parser itself is not modelled; a heading tag is "h" and a number, as `int` raises on anything else.
- The constant attributes of document nodes (`order`, `layout`, `isNumberColumnEnabled`).
- String lengths are counted in characters, not in UTF-16 units; the truncation limit and snapshot lengths follow that count.
- Forests.EveryBlockOnce: for unique tool ids; with a repeated id, which `BlockTree.BuildBlockTree` still covers, the last clone stands wherever one of its entries would.
- Tool results that are not strings, and generated ids of text and thinking blocks on screen.
- Assemblers.AssemblersAgree: exact for streams with new nonempty tool ids and uncut results that follow their calls; reused ids, stray results and cut results, which the two sides store differently, are outside it; `Splices.RebuiltShows` and `LiveTools.LiveToolsShown` say what each side shows of them.
- Render scheduling, todos and the tool-completed callback of the browser hook.
- Workspace.RoundTripExactly: directories are lists of plain segments; creating directories, symbolic links, and write, delete and move are not modelled.
- Artifacts.CopyInputArtifacts: a destination below a plain file, where the copy would raise, is not modelled.
- The message handler's abort controllers, its validation error and the files removed with a session; `gracefulShutdown` and the listing calls.
- The release callback is called once per grant, as the handler does; a second call would open another holder's lock.
- Draft and deployed run creation beyond the validator, run listing, auth, credentials, CRUD routers and admin pages.
