# A verified model of the scientific agent runtime

This project models the deterministic core of `agent_runtime` in Dafny and proves what it guarantees, for all inputs,
all runs and all interleavings. Nothing here executes the original program.

Each part follows the form of the code it models. Objects whose methods update fields are classes, list-building code
is methods with loops, and each of these methods is proved equal to a function of its inputs or of the old state; the
theorems are about those functions. Concurrent code is a transition system over the steps between two `await`
points, and its theorems range over every possible sequence of events.

| part | files | main results |
|---|---|---|
| Scientific repair graph | `ModelSpecs`, `Diagnostics`, `Compilation`, `Repairs`, `MacroGraph`, `GraphTheorems`, `GraphVerdicts`, `ShippedRuns` | `GraphVerdicts.ExactTermination`, `GraphVerdicts.Verdict`, `GraphVerdicts.CompletedWithErrorIff`, `GraphVerdicts.RepairLogIsAudit`, `Compilation.PlanContents` |
| Context pipeline | `Context`, `ContextTheorems`, `ContextOrder` | `ContextTheorems.BudgetTheorem`, `ContextTheorems.ReorderingPermutes`, `ContextOrder.PruningRule`, `ContextOrder.ReorderedPlaces` |
| ReAct loop | `AgentModels`, `AgentStory`, `AgentLoop`, `AgentTheorems`, `AgentAnswers`, `TraceLanguage`, `TraceContents`, `CoreInstruction`, `ContextLabels` | `AgentLoop.AgentRuntime.Run`, `AgentAnswers.ConversationIsReported`, `AgentAnswers.RunEnds`, `AgentTheorems.LogsAgree`, `TraceLanguage.TraceAccepted`, `TraceContents.TraceTellsCall`, `CoreInstruction.EveryRequestIsInstructed`, `ContextLabels.RequestsAreLabelled` |
| Adaptive evaluation runner | `DynamicSemaphore`, `EvalRunner`, `EvalRunnerTheorems`, `EvalRunnerRuns` | `EvalRunnerRuns.Safety`, `EvalRunnerRuns.EveryRunEnds`, `EvalRunnerRuns.SuiteDelivers` |
| Job store and worker | `JobStore`, `JobProtocol`, `JobTheorems`, `JobCancellation`, `JobRecords` | `JobProtocol.ReachableIsSafe`, `JobTheorems.UncancelledVerdict`, `JobTheorems.CancelledIsFinalIff`, `JobCancellation.RequestHonouredIff`, `JobTheorems.ExecutionsAreBounded`, `JobRecords.RecordsTell` |
| Retrieval | `Retrieval`, `Bm25`, `Bm25Theorems`, `Bm25Weights`, `Bm25Refit`, `Fusion`, `FusionTheorems`, `Pipeline`, `EvidenceSources`, `Chunker` | `Bm25Theorems.SearchIsBruteForce`, `Bm25Weights.RarerFirst`, `Bm25Weights.DirectOrder`, `Bm25Refit.RefitOutcome`, `FusionTheorems.RerankIsPartition`, `FusionTheorems.CandidatesAreClassed`, `EvidenceSources.OutcomeIsSourced`, `EvidenceSources.TiesKeepListing`, `Chunker.ChunkDocument` |
| Regression gate, episode codec | `Regression`, `Rounding`, `Episodes` | `Regression.VerdictIff`, `Regression.EntriesAreResults`, `Episodes.EpisodeRoundTripIff` |
| Shared | `Wrappers`, `Numbers`, `Text`, `TextLayout`, `Sequences`, `Sorting` | `Sorting.SortSorts`, `Sorting.SortIsStable`, `TextLayout.JoinIsLaidOut` |

## Where the code does something else than its description

- README.md of the repository calls the repair cycle limited (line 91) and says graph loops terminate through bounded
  repair policies (line 216). In the code a refused repair goes back to validation with the same spec, so the graph
  then cycles for ever. `GraphVerdicts.ExactTermination` gives the exact condition on the candidate under which a run
  ends.
- Several findings are marked repairable although no strategy exists for them, for example a frequency mismatch:
  `ShippedRuns.FrequencyMismatchCycles`.
- Routing looks only at the last finding, so a completed run may still report domain errors.
  `GraphVerdicts.CompletedWithErrorIff` says exactly when, for every spec and registry: when the final spec, which
  candidate and registry determine beforehand, has a strained window besides. `ShippedRuns.ShortSampleIsMasked` is
  the case that the shipped generator produces.
- Every family but ARIMA is refused by the executor's allowlist, and the run completes all the same:
  `GraphVerdicts.Verdict`.
- An acknowledged cancellation is overwritten by an execution still in flight. `JobTheorems.CancelledIsFinalIff` and
  `JobCancellation.RequestHonouredIff` say exactly when it is not, whatever else happens in between;
  `JobCancellation.RequestRace` and `JobCancellation.PollRaceIff` say it in numbers of events.
- Job ids are drawn from the clock in milliseconds. A repeated id silently replaces an earlier job:
  `JobTheorems.SubmissionIsSafeIff`.
- Fitting a BM25 retriever again keeps the old postings. `Bm25Refit.RefitOutcome` says for every history of fits
  exactly which searches then divide by zero, and which fail over a chunk that is gone.
- Reordering for positional bias duplicates an item that is both pinned and a user message:
  `ContextTheorems.ReorderingPermutes`.
- The assembler's comments promise important items at both ends of a reordered context (src/agent_runtime/context/assembler.py, lines
  62-64 and 108-112). At its end stands one of the two ordinary items of lowest priority: `ContextOrder.TailIsLow`.

## Model

| member | source | states |
|---|---|---|
| Diagnostics.ValidateSpec | src/agent_runtime/scientific/validators.py:21-98 | the domain findings in their order, and none but the missing dataset when the dataset is missing |
| Diagnostics.AnalyzeSpec | src/agent_runtime/scientific/static_analysis.py:12-52 | leakage, then unsafe path, then the trailing window warning |
| Diagnostics.BlockingFindings | src/agent_runtime/graph/nodes.py:171-175 | the findings of a spec contain a non-repairable error iff it leaks, escapes or names an unknown dataset |
| Diagnostics.FindingsComplete | src/agent_runtime/scientific/validators.py:21-98 | each code is reported iff its condition on spec and registry holds, a missing dataset included: no violation is skipped and none invented |
| Diagnostics.FindingsAreFlagged | src/agent_runtime/scientific/validators.py:28-96 | every finding has the severity, the repairability and the stage of its code, and carries the figures it is about |
| Compilation.CompilePlan | src/agent_runtime/scientific/compiler.py:29-83 | the appends build the plan whose contents `PlanContents` states |
| Compilation.PlanContents | src/agent_runtime/scientific/compiler.py:29-83 | which operation each of the four steps names, which fields of the spec it carries, what it depends on; artifact i is what step i is expected to produce, and each artifact written out |
| Compilation.PlanIsDependencyOrdered | src/agent_runtime/scientific/compiler.py:34-75 | every dependency names an earlier step; step ids, idempotency keys and artifacts are pairwise different |
| Compilation.FitOutcome | src/agent_runtime/scientific/executor.py:17-41 | what executing the plan's fit step yields: refused by the allowlist for every family but ARIMA, a numerical failure iff p + q > 5 |
| Repairs.BoundedRepairEngine.AttemptAutoRepair | src/agent_runtime/scientific/repairs.py:25-81 | the repaired spec and the one recorded proposal, or nothing and an unchanged history |
| Repairs.AttemptIs | src/agent_runtime/scientific/repairs.py:25-81 | a repair is made iff the budget, the diagnostic and the model permit it; it leaves a (1, d, 1) model, or a window that spares exactly two rows beside the horizon unless that is fewer than ten |
| Repairs.SampleRepairArithmetic | src/agent_runtime/scientific/repairs.py:63-79 | the contraction cures a short sample iff ten rows are left after the horizon, then strictly shrinks the window, and is idempotent |
| Repairs.RepairsDoNoHarm | src/agent_runtime/scientific/repairs.py:41-79 | no repair introduces a domain error or leaves the schema bounds; the order repair always cures divergence |
| MacroGraph.ValidateSpecNode | src/agent_runtime/graph/nodes.py:61-80 | the node's updates: all findings replace the diagnostics |
| MacroGraph.CompileAndExecuteNode | src/agent_runtime/graph/nodes.py:82-116 | the node's updates: the plan, and a diagnostic only for a numerical failure, not for a fatal result |
| MacroGraph.RepairSpecNode | src/agent_runtime/graph/nodes.py:118-160 | the node's updates for nothing to repair, a refusal and a repair by an engine loaded with the recorded history |
| MacroGraph.CreateMacroAgentGraph | src/agent_runtime/graph/builder.py:11-55 | the topology that the calls build |
| MacroGraph.StepFollowsTopology | src/agent_runtime/graph/builder.py:26-53 | each registered node has exactly one way on, and it is the one the transition function takes |
| GraphTheorems.ReachableInvariant | src/agent_runtime/graph/nodes.py:99-160 | every reachable state: trace without gaps, attempts equal to the history's length and at most two, diagnostics belong to the current spec, log is a complete account |
| GraphTheorems.FateIsRun | src/agent_runtime/graph/builder.py:40-51 | a run ends unrefused after the computed number of nodes, or is refused and never ends |
| GraphTheorems.CycleForever | src/agent_runtime/graph/nodes.py:142-148 | a refused repair leads back to the same refusal for ever |
| GraphVerdicts.LatestIsLast | src/agent_runtime/graph/edges.py:15-18 | which finding comes last, and so decides the route |
| GraphVerdicts.ExactTermination | src/agent_runtime/graph/edges.py:5-39 | for every spec and registry: a run ends iff no repair is refused iff the candidate passes a guard that can be checked beforehand; then after exactly the computed number of nodes, at most nine |
| GraphVerdicts.Verdict | src/agent_runtime/graph/nodes.py:162-192 | at the end: failed iff the generated spec leaks, escapes or names no dataset; otherwise the plan of the final spec under the id drawn by the run, the answer naming artifacts/<that id>/forecast_report.csv and the number of repairs, and p + q <= 5 for ARIMA |
| GraphVerdicts.RepairLogIsAudit | src/agent_runtime/graph/nodes.py:150-160 | replaying the log gives the current spec, undoing it the generated one; attempts number 1, 2, ...; trace steps are their indices |
| GraphVerdicts.CompletedWithErrorIff | src/agent_runtime/graph/edges.py:15-29 | a completed run reports a domain error iff its final spec has a strained window and violates the condition; the final spec is a closed form of candidate and registry |
| GraphVerdicts.StepIsRecorded | src/agent_runtime/graph/nodes.py:54-192 | every node execution of every run adds its own event, named after the node and numbered by its place, with the number of findings, the failure code or the proposal id; a refusal adds its error |
| ShippedRuns.ShippedRunsEnd | src/agent_runtime/graph/nodes.py:15-59 | for every query the shipped generator's run ends, after 3 to 9 nodes, and fails iff the query mentions leakage |
| ShippedRuns.ShortSampleIsMasked | src/agent_runtime/graph/edges.py:15-29 | a query about a short series completes with an insufficient sample still reported |
| ShippedRuns.FrequencyMismatchCycles | src/agent_runtime/scientific/validators.py:44-52 | a frequency mismatch alone keeps a run from ever ending |
| ShippedRuns.NineNodesReached | src/agent_runtime/graph/builder.py:26-53 | the bound of nine nodes is reached |
| Sorting.SortSorts | src/agent_runtime/context/assembler.py:39 | sorting by descending key yields a descending permutation |
| Sorting.SortIsStable | src/agent_runtime/context/assembler.py:39 | items of equal key keep their order, as Python's reverse sort does |
| Sorting.TiesKeepOrder | src/agent_runtime/retrieval/hybrid.py:27 | of two elements with equal keys, the one first after sorting was first before |
| Context.Deduplicate | src/agent_runtime/context/dedup.py:9-17 | the first item of every stripped content, in order |
| Context.Prune | src/agent_runtime/context/pruner.py:22-56 | the surviving items and the number pruned by age |
| Context.ReorderForPositionalBias | src/agent_runtime/context/assembler.py:106-130 | system, user, even rest, odd rest, each in its order |
| Context.Assemble | src/agent_runtime/context/assembler.py:24-104 | the bundle and every figure of the report |
| ContextTheorems.FirstsRepresent | src/agent_runtime/context/dedup.py:9-17 | deduplication loses no content |
| ContextTheorems.FirstsAreDistinct | src/agent_runtime/context/dedup.py:9-17 | and keeps none twice |
| ContextOrder.FirstsAreEarliest | src/agent_runtime/context/dedup.py:9-17 | the survivors are exactly the items that no earlier one equals after stripping, in their order |
| Text.StripIs | src/agent_runtime/context/dedup.py:13 | stripping cuts white space off both ends, all of it and nothing else |
| ContextTheorems.PruningKeepsPinned | src/agent_runtime/context/pruner.py:31-56 | no item of priority 100 or more is pruned, and nothing is invented |
| ContextTheorems.PruningConserves | src/agent_runtime/context/pruner.py:31-56 | pruned and surviving items together are the submitted ones, as many pruned as counted, none of them pinned |
| ContextTheorems.PrunedSize | src/agent_runtime/context/pruner.py:43-54 | the exact size after pruning: the limit is met iff fewer items than the limit are pinned |
| ContextOrder.PruningRule | src/agent_runtime/context/pruner.py:22-56 | with the default limits: older than ten steps and below priority 60 goes; up to twenty others stay in place; of more, what is cut is unpinned and of no higher priority than any unpinned item left |
| ContextTheorems.PackConserves | src/agent_runtime/context/assembler.py:39-58 | packing retains or drops each item once, retains the pinned ones, and drops only what does not fit any more |
| ContextTheorems.PackBound | src/agent_runtime/context/assembler.py:46-58 | the tokens stay within the larger of the budget and the pinned items' own |
| ContextTheorems.ReorderingPermutes | src/agent_runtime/context/assembler.py:106-130 | reordering adds exactly the pinned user messages a second time, and permutes iff there are none |
| ContextOrder.ReorderedPlaces | src/agent_runtime/context/assembler.py:117-130 | the place of every item: pinned first, then user messages, then ordinary items, even ones before odd ones, each kind in its order |
| ContextOrder.TailIsLow | src/agent_runtime/context/assembler.py:107-130 | contrary to the intent, at most one ordinary item has a lower priority than the last |
| ContextTheorems.BudgetTheorem | src/agent_runtime/context/assembler.py:31-60 | pinned items survive, the token bound, no dropped item would fit, and pruned + dropped + retained are exactly the deduplicated items |
| ContextOrder.BundleOrder | src/agent_runtime/context/assembler.py:37-67 | up to eight retained items stand in descending priority, more in the places of the reordering |
| ContextOrder.DistributionsCount | src/agent_runtime/context/assembler.py:69-74 | the two distributions of the report count the items of a trust level and of a kind |
| AgentLoop.AgentRuntime.TryTool | src/agent_runtime/runtime/loop.py:108-131 | the retry loop: how often a tool is tried and what comes of it |
| AgentLoop.AgentRuntime.ExecuteTool | src/agent_runtime/runtime/loop.py:101-169 | the observation or exception of one action, and the events it logs |
| AgentAnswers.PlayIsTruthful | src/agent_runtime/runtime/loop.py:110-169 | a result holds an output iff the tool is registered and returned it on some attempt after transient failures alone; which error each other outcome of the tool gives, used-up retries included |
| AgentLoop.AgentRuntime.HandleCall | src/agent_runtime/runtime/loop.py:330-414 | one call's message, step, events and effect on the status, on each of the five ways it can go |
| AgentLoop.AgentRuntime.HandleCalls | src/agent_runtime/runtime/loop.py:329-422 | the calls of one reply up to the first fatal one |
| AgentLoop.AgentRuntime.Prepare | src/agent_runtime/runtime/loop.py:186-232 | the items gathered before the loop and the events about them |
| AgentLoop.AgentRuntime.BuildRequest | src/agent_runtime/runtime/loop.py:252-292 | the assembled request of one iteration |
| AgentLoop.AgentRuntime.TakeReply | src/agent_runtime/runtime/loop.py:315-438 | one round: reply, calls, or the direct answer |
| AgentLoop.AgentRuntime.Iterate | src/agent_runtime/runtime/loop.py:235-438 | one iteration extends the story by one round or finishes it |
| AgentLoop.AgentRuntime.Run | src/agent_runtime/runtime/loop.py:173-441 | the loop terminates, and messages, steps, trace, status and answer are those of the run's story |
| AgentAnswers.ConversationIsReported | src/agent_runtime/runtime/loop.py:294-400 | in every round the provider answers the context message and all messages before it, and is followed by one truthful result for each call up to the first that stops the run |
| AgentAnswers.RunEnds | src/agent_runtime/runtime/loop.py:235-441 | status, stop reason and answer of every run, in terms of its last messages, its rounds and the provider |
| AgentTheorems.PlayedPrefix | src/agent_runtime/runtime/loop.py:330-420 | the calls carried out are a prefix of the reply's, proper only when the last of them is fatal |
| AgentTheorems.StoryShape | src/agent_runtime/runtime/loop.py:235-250 | at most max(0, max_steps) requests, used up when the limit is hit; only the last round can be incomplete |
| AgentTheorems.LogsAgree | src/agent_runtime/runtime/loop.py:400-414 | action steps, step_completed events and tool messages tell of the same calls with the same success flags in the same order |
| AgentTheorems.ObservationsAgree | src/agent_runtime/runtime/loop.py:341-408 | the i-th action step observes what the i-th tool message says: call id, tool name, success, output and error, each |
| AgentAnswers.StepsTellCalls | src/agent_runtime/runtime/loop.py:402-409 | each call carried out has its step: number, rationale of its reply, and call id, tool name and arguments as the provider gave them |
| AgentAnswers.StopIsLogged | src/agent_runtime/runtime/loop.py:235-312 | the step log ends with one stop step, its number, rationale, reason and message as the run ended; after a tool failure there is none |
| AgentAnswers.TraceRecordsReplies | src/agent_runtime/runtime/loop.py:315-319 | the replies in the trace are the replies of the provider, all of them and in order |
| TraceContents.TraceTellsRequest | src/agent_runtime/runtime/loop.py:283-326 | the trace tells each round: tokens, dropped and pruned items of the request, a warning iff there is one, then the reply and its rationale one step later |
| TraceContents.TraceTellsCall | src/agent_runtime/runtime/loop.py:331-414 | and each call: announced, started, one numbered event for each transient error of the tool, an ending that fits the result sent back, and the completed step |
| TraceContents.TraceTellsEnds | src/agent_runtime/runtime/loop.py:175-441 | and its two ends: input, skill and retrieval at first, and at last the limit, the provider's error, the final answer or the reason alone |
| TraceLanguage.TraceAccepted | src/agent_runtime/runtime/loop.py:235-438 | every run's trace lies in one regular language |
| TraceLanguage.AcceptedStops | src/agent_runtime/runtime/loop.py:433-438 | an accepted trace records its stop reason once, last or right before run_completed |
| TraceLanguage.OneStopReason | src/agent_runtime/runtime/loop.py:235-441 | so does every run |
| CoreInstruction.RequestCarriesCore | src/agent_runtime/runtime/loop.py:253-282 | the core instruction survives deduplication, pruning and packing whatever else is in the context |
| CoreInstruction.RequestIsInstructed | src/agent_runtime/runtime/loop.py:85-97 | and its text is part of the message that is sent |
| CoreInstruction.EveryRequestIsInstructed | src/agent_runtime/runtime/loop.py:294-297 | for every request of every run, within the larger of the budget and that instruction's tokens |
| ContextLabels.ContextIs | src/agent_runtime/runtime/loop.py:187-280 | the context of a request: skill, evidence, memories, core instruction and conversation, each at its place with its kind, trust level, priority and text |
| ContextLabels.RequestsAreLabelled | src/agent_runtime/runtime/loop.py:85-97 | in every round the provider is shown the bundle, section by section, under kind and trust level; what is marked as untrusted is exactly the retrieved evidence, and what is marked as user-supplied is what the user said |
| DynamicSemaphore.Gate.constructor | src/agent_runtime/evals/runner.py:17-20 | an idle semaphore of capacity at least one |
| DynamicSemaphore.Gate.Enter | src/agent_runtime/evals/runner.py:22-28 | admission iff there is room, and otherwise a wait |
| DynamicSemaphore.Gate.Exit | src/agent_runtime/evals/runner.py:30-34 | one slot less and every waiter notified |
| DynamicSemaphore.Gate.Resize | src/agent_runtime/evals/runner.py:36-46 | the new capacity, at least one, and every waiter notified |
| EvalRunner.BuildTrials | src/agent_runtime/evals/runner.py:108-111 | |tasks| * max(0, num_trials) trials, repetition i of task k at position k * num_trials + i |
| EvalRunner.TrialsAreAll | src/agent_runtime/evals/runner.py:108-111 | every repetition of every task, each at its place, and nothing else |
| EvalRunnerTheorems.StepKeepsInvariant | src/agent_runtime/evals/runner.py:22-104 | slots in use are slots held; the queued resizes count the capacity down to the runner's own value; no waiter is forgotten |
| EvalRunnerRuns.Safety | src/agent_runtime/evals/runner.py:22-81 | in every reachable state: never more slots than at the start, capacity at least one, nobody parked while there is room, concurrency is max(1, initial - rate limits), and the capacity equals it once no resize is pending |
| EvalRunnerRuns.ExcessOnlyDrains | src/agent_runtime/evals/runner.py:36-46 | an admission leaves no excess, and only lowering the capacity creates one |
| EvalRunnerRuns.ExcessIsBounded | src/agent_runtime/evals/runner.py:36-46 | over a run the excess grows by no more than the capacity was lowered |
| EvalRunnerRuns.StepMovesOn | src/agent_runtime/evals/runner.py:25-26 | every event brings a trial nearer to done, or uses up a notification |
| EvalRunnerRuns.EveryRunEnds | src/agent_runtime/evals/runner.py:106-128 | no interleaving of n trials has more than (7n + 1)(2n + 1) events |
| EvalRunnerRuns.Progress | src/agent_runtime/evals/runner.py:113-128 | until the stream is closed some event is possible: no deadlock |
| EvalRunnerRuns.MaximalRunsDeliver | src/agent_runtime/evals/runner.py:113-128 | a run is stuck iff its stream is closed, and then each trial has been streamed exactly once |
| EvalRunnerRuns.SuiteDelivers | src/agent_runtime/evals/runner.py:106-128 | a maximal run on the trials of a suite streams exactly |tasks| * max(0, num_trials) frames before it closes, one for every trial |
| JobStore.SQLiteJobStore.SubmitJob | src/agent_runtime/jobs/store.py:12-26 | the record that has the idempotency key, or a new one stored under its id |
| JobStore.SQLiteJobStore.GetJob | src/agent_runtime/jobs/store.py:28-30 | the record of an id, if any |
| JobStore.SQLiteJobStore.UpdateJobStatus | src/agent_runtime/jobs/store.py:32-43 | one record moves, all others stay |
| JobStore.SQLiteJobStore.FetchNext | src/agent_runtime/jobs/store.py:45-57 | the first record of a status |
| JobStore.AsyncMacroJobWorker.PollOnce | src/agent_runtime/jobs/worker.py:27-43 | first one cancellation acknowledged, then one queued job claimed and its execution started |
| JobStore.AsyncMacroJobWorker.ConcludeJobCore | src/agent_runtime/jobs/worker.py:55-78 | what the end of an execution makes of its job |
| JobProtocol.StepKeepsInvariant | src/agent_runtime/jobs/worker.py:25-78 | every event keeps: at most one execution in flight or queue place per job, attempts within budget, one job per idempotency key |
| JobProtocol.ReachableIsSafe | src/agent_runtime/jobs/worker.py:25-78 | so in every state of every interleaving |
| JobProtocol.Projects | src/agent_runtime/jobs/worker.py:25-78 | an event acts on each job by one local step, and no job is lost or renamed |
| JobTheorems.SettledStays | src/agent_runtime/jobs/store.py:32-43 | succeeded, failed and cancelled are absorbing for a job with nothing in flight and no further cancel request |
| JobTheorems.IdleNeverRuns | src/agent_runtime/jobs/worker.py:35-43 | a job that is neither queued nor in flight is never executed again |
| JobTheorems.CancelledIsFinalIff | src/agent_runtime/jobs/worker.py:28-34 | cancelled is final iff no execution of the job is in flight |
| JobCancellation.RequestHonouredIff | src/agent_runtime/jobs/worker.py:28-61 | whatever happens between the last request and the checkpoint, the request is honoured iff no poll finds the job next in line for acknowledgement |
| JobCancellation.RequestRace | src/agent_runtime/jobs/worker.py:28-61 | honoured without a poll, or with no more polls and ended executions than earlier records awaiting cancellation; overwritten with more polls than those records and further requests |
| JobCancellation.PollRaceIff | src/agent_runtime/jobs/worker.py:28-61 | with only polls in between, honoured iff they are no more than the earlier records awaiting cancellation |
| JobTheorems.UncancelledVerdict | src/agent_runtime/jobs/worker.py:63-78 | without a cancel request: succeeded only on a single attempt, failed only with the budget spent, in flight exactly while running |
| JobRecords.RecordsTell | src/agent_runtime/jobs/worker.py:58-78 | in every run, cancelled or not: a result is the artifact of a completed computation, an error the reason of a requested cancellation or of a failure with no attempts left; without a request they belong to the status |
| JobRecords.ResultsAreFinal | src/agent_runtime/jobs/store.py:38-41 | a result is never changed or withdrawn, an error never withdrawn |
| JobTheorems.ExecutionsAreConserved | src/agent_runtime/jobs/worker.py:38-42 | executions started are executions ended plus those in flight, and each is one counted attempt |
| JobTheorems.ExecutionsAreBounded | src/agent_runtime/jobs/worker.py:71-78 | the executions of any run stay within the sum of the budgets |
| JobTheorems.WorkerStops | src/agent_runtime/jobs/worker.py:25-44 | in any run of polls and ended executions, idle polls included, what gets done is bounded by the work left before less the work left after |
| JobTheorems.QuietMeansSettled | src/agent_runtime/jobs/worker.py:25-78 | nothing is left to do iff nothing is in flight and every job is settled |
| JobTheorems.SubmissionIsSafeIff | src/agent_runtime/jobs/store.py:15-25 | a submission leaves earlier records alone iff its key is known or its id is new |
| Bm25.BM25Retriever.IndexChunk | src/agent_runtime/retrieval/bm25.py:26-37 | the counts, length and postings one chunk adds |
| Bm25.BM25Retriever.Fit | src/agent_runtime/retrieval/bm25.py:22-44 | the fitted state, on top of whatever was indexed before; what its weights mean is stated by `RarerWeighsMore` |
| Bm25.BM25Retriever.ScoreTokens | src/agent_runtime/retrieval/bm25.py:53-66 | the score dictionary: exactly the matching chunks, each with its accumulated gain, unless a division is by zero |
| Bm25.BM25Retriever.Search | src/agent_runtime/retrieval/bm25.py:46-81 | the numbered hits of a descending listing, or the error raised |
| Bm25Theorems.IndexIsBruteForce | src/agent_runtime/retrieval/bm25.py:22-66 | on a fresh fit the dictionary holds exactly the chunks that share a token, with the positive score summed directly over the query's tokens; no division is by zero |
| Bm25Theorems.SearchIsBruteForce | src/agent_runtime/retrieval/bm25.py:46-81 | a search of a fresh fit always answers, with the first k of the sharing chunks ranked by brute force, ranks 1, 2, ... |
| Bm25Weights.AverageIs | src/agent_runtime/retrieval/bm25.py:40 | the average length is the number of all tokens over the number of chunks |
| Bm25Weights.RarerWeighsMore | src/agent_runtime/retrieval/bm25.py:42-44 | a token in fewer chunks weighs strictly more |
| Bm25Weights.SaturationAnchors | src/agent_runtime/retrieval/bm25.py:62-66 | the damping is k1 at the average length or with b = 0, and k1 times the relative length with b = 1 |
| Bm25Weights.TermOrder | src/agent_runtime/retrieval/bm25.py:60-66 | a token scores no less where it occurs at least as often in a chunk no longer, and exactly when it scores strictly more |
| Bm25Weights.DirectOrder | src/agent_runtime/retrieval/bm25.py:53-66 | so does a whole query, strictly more if some token occurs more often |
| Bm25Weights.HigherFirst | src/agent_runtime/retrieval/bm25.py:68-70 | a higher score comes earlier in every answer |
| Bm25Weights.RarerFirst | src/agent_runtime/retrieval/bm25.py:42-70 | of two equally long chunks with one query token each, once, the one with the rarer token is ranked first |
| Bm25Theorems.FitIsConsistent | src/agent_runtime/retrieval/bm25.py:22-44 | any number of fits keeps postings, counts, lengths and weights consistent |
| Bm25Refit.HitIffEver | src/agent_runtime/retrieval/bm25.py:35-37 | after any fits, a token hits an id iff some chunk ever fitted under it contains the token |
| Bm25Refit.SearchFailsIff | src/agent_runtime/retrieval/bm25.py:46-81 | in any consistent state without a division by zero: a search fails only if a hit chunk is gone, and one that cuts off nothing fails iff one is |
| Bm25Refit.RefitOutcome | src/agent_runtime/retrieval/bm25.py:22-81 | after any history of fits, in terms of the texts: when the answer is empty, when it is a division by zero, and when it fails over a chunk that is gone |
| Fusion.Fuse | src/agent_runtime/retrieval/hybrid.py:9-35 | the fused list, or the division by zero of a negative constant; what its entries show is stated by `FusedAreTaken` |
| FusionTheorems.FusedIs | src/agent_runtime/retrieval/hybrid.py:27-35 | each listed chunk once, by descending exact score, ranked 1, 2, ..., scores rounded afterwards |
| EvidenceSources.FusedAreTaken | src/agent_runtime/retrieval/hybrid.py:14-33 | every entry has the document id and the text of the first keyword hit of its chunk, or of the first vector hit when no keyword hit has it |
| EvidenceSources.TiesKeepListing | src/agent_runtime/retrieval/hybrid.py:11-27 | chunks with equal exact scores come in the order of their first hits, keyword hits before vector hits |
| FusionTheorems.BothBeatOneIff | src/agent_runtime/retrieval/hybrid.py:14-25 | two ranks always beat one iff no list is longer than k + 1 |
| FusionTheorems.BothOutscoreOne | src/agent_runtime/retrieval/hybrid.py:9-27 | so a chunk in both lists outscores every chunk in one |
| FusionTheorems.ScoreBound | src/agent_runtime/retrieval/hybrid.py:14-25 | fused scores are positive and at most two first ranks |
| Pipeline.Rerank | src/agent_runtime/retrieval/reranker.py:7-13 | the boosted list, sorted |
| FusionTheorems.RerankIsPartition | src/agent_runtime/retrieval/reranker.py:9-13 | after rounding to six digits, reranking is: boosted in fused order, then the others in fused order |
| EvidenceSources.CandidatesAreTaken | src/agent_runtime/retrieval/pipeline.py:31-34 | so does every candidate, with the rounded fused score and 0.05 more for two kinds of chunk ids |
| Pipeline.BuildCitations | src/agent_runtime/retrieval/citations.py:7-20 | the evidence text and the citation map |
| Pipeline.CitationsResolve | src/agent_runtime/retrieval/citations.py:12-17 | each citation id leads back to its own candidate |
| Pipeline.CitationsAreCandidates | src/agent_runtime/retrieval/citations.py:12-17 | there are no other citations |
| Pipeline.HybridRetrievalPipeline.ExecutePipeline | src/agent_runtime/retrieval/pipeline.py:18-37 | insufficient evidence on exactly its two branches, the cited candidates otherwise |
| EvidenceSources.AnswerIsSourced | src/agent_runtime/retrieval/pipeline.py:23-37 | there is evidence unless both searches found nothing or the best lone vector hit scores too low; its text is, candidate by candidate, citation id, document id and text |
| EvidenceSources.OutcomeIsSourced | src/agent_runtime/retrieval/citations.py:12-20 | the same for what the pipeline returns: each quoted document id and text is that of the first hit of its chunk |
| EvidenceSources.KeywordSourcesAreChunks | src/agent_runtime/retrieval/bm25.py:70-80 | and after a fresh fit that of the chunk itself |
| FusionTheorems.CandidatesAreClassed | src/agent_runtime/retrieval/pipeline.py:31-34 | candidates come boosted before unboosted, and in each, found by both searches before found by one |
| FusionTheorems.FreshHitsAreUnique | src/agent_runtime/retrieval/pipeline.py:20 | keyword hits of a fresh fit satisfy what the fusion results ask for |
| Chunker.ChunkDocument | src/agent_runtime/retrieval/chunker.py:12-41 | the chunks themselves: numbered ids, document id, trust level and metadata, the exact slice in each, as many as the count says, and the document rebuilt from their texts; a short document is one chunk without metadata |
| Chunker.EndsIff | src/agent_runtime/retrieval/chunker.py:22-39 | the window that the loop keeps stops turning on a long document iff the overlap is smaller than the chunk |
| Chunker.ChunkingRoundTrip | src/agent_runtime/retrieval/chunker.py:22-39 | dropping the overlaps and concatenating restores the document; adjacent chunks share exactly the overlap and each adds something |
| Chunker.ChunkCount | src/agent_runtime/retrieval/chunker.py:22-39 | the number of chunks is ceil((length - overlap) / (size - overlap)) |
| Chunker.ChunkIdsDiffer | src/agent_runtime/retrieval/chunker.py:28 | chunk ids are unique within a document |
| Regression.AggregateSuite | src/agent_runtime/evals/regression.py:27-53 | a rounded summary for exactly the graders that reported |
| Regression.EntriesAreResults | src/agent_runtime/evals/regression.py:32-38 | the entries of a grader are its results over all trials, each once and in order, with duration and steps of its own trial |
| Regression.SummaryIs | src/agent_runtime/evals/regression.py:41-52 | the three figures are the mean pass rate, duration and steps, each to within half a unit of its last digit |
| Regression.RegressionReporter.constructor | src/agent_runtime/evals/regression.py:23-25 | no list and an empty list both mean the default metrics |
| Regression.RegressionReporter.GenerateReport | src/agent_runtime/evals/regression.py:55-89 | the scorecard of the first complaint |
| Regression.RateBelowOneIff | src/agent_runtime/evals/regression.py:44-50 | a rounded pass rate is below one iff more than one in 20000 results failed |
| Regression.VerdictIff | src/agent_runtime/evals/regression.py:64-81 | a regression iff some hard metric of the candidate has more than one failure in 20000 |
| Regression.ReportsFirstOffender | src/agent_runtime/evals/regression.py:64-78 | the reason names the first offending hard metric |
| Regression.ReasonIs | src/agent_runtime/evals/regression.py:65-78 | the complaint names the candidate's rate, and blames a fall below the baseline iff the baseline has a higher rate, which it then names |
| Regression.SmallSuitesAreExact | src/agent_runtime/evals/regression.py:64-81 | below 20000 results the gate opens iff every result of every hard metric passed |
| Regression.BaselineIsIrrelevant | src/agent_runtime/evals/regression.py:68-78 | no baseline can change a verdict |
| Episodes.SplitJoin | src/agent_runtime/memory/models.py:65-66 | splitting undoes joining for parts without the separator |
| Episodes.NumberRoundTrip | src/agent_runtime/memory/models.py:64-80 | parsing undoes printing of the step count, negative ones too |
| Episodes.EpisodeRoundTripIff | src/agent_runtime/memory/models.py:51-82 | every field but the time stamp survives storage iff no string contains the separator and neither list is the single empty string |
| Episodes.StoredFields | src/agent_runtime/memory/models.py:51-68 | what is stored of an episode, field by field; the importance falls by a fifth with each error, down to a tenth |
| Episodes.StoringNormalises | src/agent_runtime/memory/models.py:51-82 | what has been stored once can be stored again without further loss |

## Left out

- Messages, rationales, evidence texts and time stamps of diagnostics, repairs, plans and events: only what a later step reads is modelled.
- Plan ids, run ids and repair ids: plan ids are an arbitrary function of the point of the run, run ids do not occur.
- LangGraph itself: its recursion limit, checkpointing and threads resumed with an old state. `reduce_append` is concatenation, and every run starts from an empty state.
- Schema parsing of specs: any spec is admitted, schema-valid or not, so the theorems cover more than the parser lets through.
- `str.lower` is an arbitrary function; `ShippedRuns` assumes only that it lowers the literals of the shipped generator.
- Floating point: durations, scores, ratios and roundings are exact, with Python's ties to even.
- Tokenizer, logarithm and embeddings: arbitrary functions, the logarithm with log(1) = 0 and strictly increasing where positivity is claimed.
- Provider, tools, skill selector, evidence and memories of the ReAct loop: arbitrary oracles, indexed by step, call and attempt; so is the text of the exception for an unknown tool.
- Figures of the context report that nothing reads back, such as the provenance lists, where they are not counts.
- Wall-clock time of the worker and the runner: an interleaving may be slower or faster than any clock allows.
- Task cancellation, a raising runtime factory and a cleared event loop in the evaluation runner; whether a result is a rate limit is an input of the event.
- `EvalRunner` grants the condition's lock in the order it was asked for, as asyncio's does.
- Starting and stopping the worker: the loop is the repetition of `PollOnce`.
- JobStore.SQLiteJobStore.SubmitJob: of the payload only the flag that makes a computation fail is kept, because nothing else is read.
- JobProtocol.ReachableIsSafe: submissions draw a new id; what a repeated id does is `JobTheorems.SubmissionIsSafeIff`.
- Pipeline.Rerank: the hits are values, so the boost is not visible through other references to the same dictionaries, because nothing else holds one.
- Fusion.Fuse: hits of both searches have one record type, because only id, document and text are read.
- Chunker.ChunkDocument: a negative chunk size or overlap, because Python's negative slices would make it a different function.
- Bm25.BM25Retriever.Search: which of several equally scored chunks comes first depends on set order and is left open.
- Pipeline.HybridRetrievalPipeline.ExecutePipeline: the vector search is an arbitrary function, because embeddings are.
- Episodes.NumberRoundTrip: `int` of underscores and of digits outside ASCII is an error here, because the encoder writes neither.
- API routes, streaming text, MCP bridge, script runner, skill loading, persistence of memories, policy gate, tool registry, graders and the reflexion optimizer: input and output, foreign code, or one-branch facts.
