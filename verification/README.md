# Agloom in Dafny

A model of the parts of Agloom that decide what runs, what is kept and what is shown: the
scheduling of workers over their `depends_on` graph and the engines that carry a schedule out,
the budgeted transcript with its scratchpad of offloaded tool output, the harness ledger, the
coalescing of approvals, and the retry loops. `dafny verify dfyconfig.toml` checks the project.

## How the project is laid out

| file | what it holds |
|---|---|
| WorkerGraph, Schedulability | the dependency graph, read in two ways: rounds of "run what is ready", and walks; which graphs can be scheduled |
| LevelScheduler, KahnScheduler | longest-path levelling and the first-in-first-out topological sort |
| SchedulerAgreement | the two schedulers refuse the same graphs and agree on the rest |
| Wrappers | optional values |
| Blackboard | the board, its rounds, and their relation to the levels |
| SequentialEngine | the pipeline chain with halt and stop-on-failure |
| ParallelRun, SideBySide, SignalBatch | one parallel run as an interleaving of tasks, listener and collector; several of them interleaved; drained signals |
| HybridDag, HybridDagRuns | the level loop, with batches and with dynamic nodes; what whole runs keep, and exactly when |
| EditDistance | the two-row distance and the slug suggestion |
| UpstreamFraming | marker framing of worker output and a decoder for it |
| Scratchpad, Compaction, ContextBudget | offloaded tool output, compaction that loses nothing, the budget gate |
| LedgerVersions, LedgerTasks | optimistic concurrency on one store slot; the ledger's entries |
| ReadCoalescing | `read_file` scopes judged against what `read_file` shows |
| ChatTemplate | repair of message lists for strict chat templates |
| SessionMemory | conversation memory: summarise, trim, pop |
| ReactRetry | the retry loops around the agent |

Loops and objects of the program are methods and classes here, each proved against a function or
a predicate; what the program is for is then proved about that function for all inputs, or about
every run of a transition system. Whatever the program does not decide (model replies, user
answers, the order in which concurrent steps happen, the clock) is a parameter of arbitrary value.

## Where the code and its intent part

Where the code falls short of its intent, the exact condition is proved for all inputs, with an input
for which it does; where a branch is unreachable, that is proved.

- Compaction with `keep_recent_tool_rounds=0`, which the budget gate calls its aggressive pass, stubs
  nothing: the slice of the oldest messages is empty. A raw message ends as a stub iff the pass for
  the oldest ran and it is among the first `tools - keep`, or none of them for 0
  (`Compaction.CompactMessages`).
- A scratchpad reload is not followed by an eviction, so in every run the cache exceeds its 500 entries
  exactly when an entry is reloaded into a full cache, and then stays over (`Scratchpad.BoundHoldsIff`;
  `Scratchpad.OverfillPad` is such a run).
- A ledger save is two store calls. Two trackers that both pass the version check lose an update, and
  a write loses nothing exactly when nobody has written since the tracker last loaded or wrote
  (`LedgerVersions.WriteLosesNothingIff`, `LedgerVersions.SplitSaveLosesUpdate`). A copy read from
  disk may carry any version, and can overwrite what was saved (`LedgerVersions.DiskCopyOverwrites`).
- Claiming twice returns the same ledger entry unless another candidate with the same priority and
  creation time overtakes it (`LedgerTasks.ClaimTwice`, `LedgerTasks.TiedEntriesBothClaimed`). An
  entry in progress under an empty owner name is never chosen for a named session
  (`LedgerTasks.NamelessNeverClaimed`). Seeding reports the length of the plan even when ids repeat
  (`LedgerTasks.SeedCountExact`, `LedgerTasks.SeedCountOverstates`).
- A covered `read_file` call shows a prefix of what was approved, except in one case: both calls have
  the same line cap, the call's slice ends with the break of the last line allowed, and the approved
  slice goes on. Unnumbered, it then shows one line break more. Numbered, as is the default, it is a
  prefix even then, unless its last line is blank, which shows as one numbered line more
  (`ReadCoalescing.SubsetShowsPrefix`, `ReadCoalescing.ExtraBreakExample`,
  `ReadCoalescing.BlankLineExample`).
- Recovery of failed workers does not look at a halt. A run spawns workers anew after a HALT_ALL exactly
  when spawns are enabled outside a frozen replay and a level carried to its end leaves a worker that
  did not succeed, a HALT_ALL having been drained in it or before
  (`HybridDagRuns.RespawnsAfterHaltIff`). Some schedule leads to that exactly when recovery is on and
  any worker of the plan has a listener, with batches and with dynamic nodes
  (`HybridDagRuns.CanRespawnLateIff`, `HybridDagRuns.RespawnAfterHalt`).
- With batches nothing starts after a HALT_ALL. With dynamic nodes, the default once spawns are enabled,
  every node has a halt flag of its own and the run's is never set (`HybridDagRuns.DynamicNeverHalts`):
  a worker can start after a HALT_ALL exactly when nodes are dynamic and some worker with a listener,
  neither dispatched nor declined, has another worker beside it or in a later level
  (`HybridDagRuns.StartsAfterHaltIff`, `HybridDagRuns.StartAfterHalt`).
- `max_concurrent` limits a batch. A dynamic node has slots of its own, or none if it is dispatched, and
  all nodes of a level are gathered, so more can run at once than it allows exactly when nodes are
  dynamic and some level has more workers than that, declined ones not counted unless dispatched
  (`HybridDagRuns.LimitExceededIff`, `HybridDagRuns.MostAtOnce`, `HybridDagRuns.FiveAtOnce`).
- With dynamic nodes a dispatched node does not pass the gate, and the skip of any other comes back as a
  failure. So a worker that the user declines runs or is spawned anew all the same, exactly when nodes
  are dynamic, the run is no frozen replay, no exception has cut it short before the worker's level,
  and the worker is dispatched or no exception escapes that level either
  (`HybridDagRuns.DeclinedRunsIff`, `HybridDagRuns.DeclinedRunsAnyway`,
  `HybridDagRuns.EscapeSparesDeclined`).
- An exception other than a TimeoutError that escapes a worker and is met by the join after a halt cuts
  the run short and loses every result (`ParallelRun.AbortsIff`, `ParallelRun.EscapedExceptionAborts`);
  the join takes a TimeoutError for its own. Exceptions of an attempt do not escape, as
  agloom/src/worker.py:471-481 turns them into failed results; those raised around the attempts do, as
  in merging the invocation config (agloom/patterns/hitl.py:143) or in listing the tools
  (agloom/src/worker.py:138-142).
- In the agent loop without approvals both branches for the absolute attempt cap are unreachable, and
  the user rounds configured for rejected tool calls are spent only on context overflow
  (`ReactRetry.SharedNeverCapped`, `ReactRetry.SharedAsksOnlyForContext`).
- The last-resort code of the chat-template repair is unreachable (`ChatTemplate.RepairedShape`).
- A transcript is summarised without any summary being handed on exactly when, after at least one
  successful round and before the last, a further attempt is due and fails (`SessionMemory.ReportedIff`,
  `SessionMemory.LostReport`). A second summary forgets the artifact refs that only the metadata of
  the first carried (`SessionMemory.RefKeptIff`, `SessionMemory.SecondSummaryForgets`).
- A memory with a limit of one drops each new turn when the stored transcript has a summary. Under
  that limit none is ever made, so the transcript must have been written under a larger one
  (`SessionMemory.AddedRemembers`, `SessionMemory.SmallLimitNoSummary`,
  `SessionMemory.SmallerLimitDropsNewest`).
- The budget middleware takes every window for one of at least 4096 tokens, so its budget can exceed
  a smaller window (`ContextBudget.GateFitsIff`, `ContextBudget.SmallWindowOverrun`).

## Model

| member | source | states |
|---|---|---|
| `WorkerGraph.LevelIsLongestChain` | agloom/patterns/_dag.py:44-52 | a worker's level is the edge count of its longest dependency chain: some chain has it, none has more |
| `WorkerGraph.SettlesByCount` | agloom/patterns/_dag.py:37-39 | as many passes as there are workers place everything that any number of passes places |
| `WorkerGraph.GroundedIff` | agloom/patterns/_dag.py:37-58 | exactly the workers that reach no cycle and no unknown id are ever placed |
| `Schedulability.SchedulableIffAcyclic` | agloom/patterns/_sequential.py:51-72 | a graph can be scheduled iff every reference is known and no worker reaches a cycle |
| `Schedulability.RejectionIsUnique` | agloom/patterns/_dag.py:26-58 | no graph has both a schedule and a refusal, and none has two different refusals |
| `Schedulability.CircularNamesCycleReachers` | agloom/patterns/_dag.py:56-58 | the cycle error names exactly the workers that reach a cycle |
| `LevelScheduler.AssignLevels` | agloom/patterns/_dag.py:34-58 | the pass loop levels every worker or reports the cycle; its fuel always suffices |
| `LevelScheduler.Pass` | agloom/patterns/_dag.py:41-58 | one pass places exactly the ready workers, at their chain length, or is stuck |
| `LevelScheduler.GroupByLevel` | agloom/patterns/_dag.py:9-71 | returns iff the graph is schedulable; buckets are the levels in input order, none empty; else the one right error |
| `LevelScheduler.OccupiedBelow` | agloom/patterns/_dag.py:60-64 | below an occupied level every level is occupied |
| `KahnScheduler.BuildIndex` | agloom/patterns/_sequential.py:47-56 | in-degrees and child lists count repeated entries; the first unknown entry in reading order is reported |
| `KahnScheduler.Release` | agloom/patterns/_sequential.py:64-67 | decrementing by each child entry frees exactly the children that reach zero, once each |
| `KahnScheduler.DrainStep` | agloom/patterns/_sequential.py:61-67 | serving the queue head keeps degrees, discovery, dependency order and rising levels |
| `KahnScheduler.Drain` | agloom/patterns/_sequential.py:58-67 | the queue serves exactly the workers all of whose dependencies it serves, dependencies first, levels never falling |
| `KahnScheduler.TopologicalSort` | agloom/patterns/_sequential.py:43-74 | returns iff schedulable; a permutation with every dependency earlier and levels never falling; else the one right error |
| `SchedulerAgreement.ScheduleBoth` | agloom/patterns/_sequential.py:43-74 | both schedulers accept exactly the acyclic graphs with known ids, and refuse with the same error |
| `SchedulerAgreement.LevellingPartitions` | agloom/patterns/_dag.py:60-71 | the levels hold every worker exactly once |
| `SchedulerAgreement.LevelMeaning` | agloom/patterns/_dag.py:9-71 | level k holds the workers with longest chain k, and all their dependencies stand lower |
| `SchedulerAgreement.OrderFollowsLevels` | agloom/patterns/_dag.py:9-71 | for every k the first k levels occupy the same stretch of the queue order, up to order inside it |
| `Blackboard.BlackboardState.constructor` | agloom/patterns/_blackboard_state.py:40-63 | a new board has empty slots and nothing attempted |
| `Blackboard.BlackboardState.Write` | agloom/patterns/_blackboard_state.py:64-86 | fills the slot, or records a failure if the value is an explicit failure line; keeps filled and failed disjoint, together the attempted slots |
| `Blackboard.BlackboardState.MarkFailed` | agloom/patterns/_blackboard_state.py:88-100 | records the failure and leaves slots and filled alone |
| `Blackboard.BlackboardState.UnfilledSlots` | agloom/patterns/_blackboard_state.py:110-112 | names exactly the slots without content |
| `Blackboard.RunSource` | agloom/patterns/blackboard.py:162-211 | runs one source, and the board goes on telling exactly what the runs did |
| `Blackboard.RunRound` | agloom/patterns/blackboard.py:128-230 | runs the eligible sources in order until a halt is seen before, during or after one |
| `Blackboard.HandleBlackboard` | agloom/patterns/blackboard.py:98-243 | without a halt the runs are those of the first rounds; with one, a prefix that ends where the halt is seen; the board records them |
| `Blackboard.BoardAttemptsGrounded` | agloom/patterns/blackboard.py:104-120 | given enough rounds and no halt, exactly the sources that reach no cycle and no unknown id are attempted, also on cyclic graphs |
| `Blackboard.RoundsAreLevels` | agloom/patterns/blackboard.py:107-112 | round k runs exactly level k of the DAG scheduler, in the same order |
| `Blackboard.RunsOnceAfterDeps` | agloom/patterns/blackboard.py:107-112 | halted or not, no source runs twice and none before its dependencies |
| `SequentialEngine.RunChain` | agloom/patterns/_sequential.py:108-245 | one result per worker in order: an executed prefix with the given inputs, then a uniformly skipped or halted suffix, cut exactly where the first halt or stopping failure is |
| `SequentialEngine.RunSequentialWorkers` | agloom/patterns/_sequential.py:77-245 | refuses unschedulable graphs, else one result per worker in topological order as the chain gives them |
| `SequentialEngine.DepsRecorded` | agloom/patterns/_sequential.py:130-187 | when a worker runs, every dependency has a recorded result; with stop-on-failure none of them failed |
| `SequentialEngine.ChainIsDetermined` | agloom/patterns/_sequential.py:108-245 | worker outcomes and halts determine the cut and every result |
| `SequentialEngine.NothingRunsOnFailure` | agloom/patterns/_sequential.py:130-158 | with stop-on-failure no worker runs on top of a failed one, so the upstream-failure branch is not taken |
| `ParallelRun.LimitOf` | agloom/patterns/hitl.py:123-130 | the configured concurrency when it is a positive integer, else a positive default |
| `ParallelRun.StepSound` | agloom/patterns/hitl.py:133-144 | every action keeps the slot limit, conservation of tasks and the truth of the rows |
| `ParallelRun.RunSound` | agloom/patterns/hitl.py:113-165 | in every state of every run at most `limit` workers run and each task is pending or has exactly one truthful row |
| `ParallelRun.NothingStartsAfterHalt` | agloom/patterns/hitl.py:133-144 | once the halt flag is set it stays set and no worker starts |
| `ParallelRun.NoHaltRunsAll` | agloom/patterns/hitl.py:323-437 | a run that ends without a halt started every worker and reports what each did |
| `ParallelRun.EveryRunEnds` | agloom/patterns/hitl.py:323-437 | every run takes at most 3n+3 steps and can only stop when the collector is done |
| `ParallelRun.NeverStuck` | agloom/patterns/hitl.py:336-437 | while the collector waits, something other than a halt can happen |
| `ParallelRun.Completable` | agloom/patterns/hitl.py:336-437 | every run can be carried to its end without a halt, and without an exception if none has escaped, so complete schedules exist |
| `ParallelRun.AbortsIff` | agloom/patterns/hitl.py:337-362 | an exception cuts the run short iff one that escaped a worker, other than a TimeoutError, is met by the join after the halt |
| `ParallelRun.EscapedExceptionAborts` | agloom/patterns/hitl.py:337-362 | a run in which that happens and the result of a worker that succeeded is lost |
| `ParallelRun.RunParallelWorkers` | agloom/patterns/hitl.py:113-165 | carrying out any complete schedule ends with one row per worker |
| `HybridDag.CheckBeforeWorkers` | agloom/patterns/hitl.py:58-110 | only workers whose gate is answered with a declining word are skipped; a raising callback lets the worker through; order is kept |
| `HybridDag.RecoverFailedWorkers` | agloom/orchestrator/hooks.py:58-90 | replaces exactly the unsuccessful rows whose respawn succeeds, in place |
| `HybridDag.RunWorkersWithHitl` | agloom/patterns/hitl.py:25-55 | the gate, then a parallel run of those let through; no run at all if the user keeps everyone back |
| `SideBySide.EachAlone` | agloom/orchestrator/hooks.py:265-267 | however the runs of a level interleave, each comes to what its own moves make of it alone |
| `SideBySide.NeverMoreThanRoom` | agloom/patterns/hitl.py:123-131 | in no state of an interleaving do more workers run than the runs have room for, each by its own limit |
| `SideBySide.FullAtOnce` | agloom/patterns/hitl.py:123-131 | some interleaving fills them all at once |
| `SideBySide.CompleteFrom` | agloom/orchestrator/hooks.py:265-267 | an interleaving in which no exception has escaped can be carried to the end of every run without one, and without another halt |
| `SideBySide.LateElsewhere` | agloom/patterns/hitl.py:133-140 | a worker that starts after a HALT_ALL belongs to another run than the one whose listener drained it |
| `SideBySide.BegunLate` | agloom/patterns/hitl.py:133-140 | whatever begins once a HALT_ALL has been drained anywhere begins late |
| `HybridDag.RunDagNodeOrDispatch` | agloom/orchestrator/hooks.py:164-227 | a node is dispatched, or run alone through the gate and under a halt flag of its own; a declined one yields a failed row |
| `HybridDag.RunDagLevelWorkers` | agloom/orchestrator/hooks.py:230-268 | for every interleaving a level comes to what its batch comes to, or, with spawns and dynamic nodes on, to what its nodes come to each on its own, rows in the order of the level |
| `HybridDag.RunLevels` | agloom/patterns/hybrid_dag.py:109-180 | the level loop under the shared halt flag, with batches or dynamic nodes, computes the run that the lemmas below are about |
| `HybridDag.RunHybridDag` | agloom/patterns/hybrid_dag.py:100-180 | refuses unschedulable graphs with the scheduler's error; else, with batches or dynamic nodes and unless an exception cuts it short, results and skips together are the planned workers, each once |
| `HybridDag.OutcomeAccounts` | agloom/orchestrator/hooks.py:230-268 | a finished level leaves each of its workers one result or one user skip, with batches and with dynamic nodes |
| `HybridDag.NodesAccount` | agloom/orchestrator/hooks.py:265-268 | for every interleaving dynamic nodes give every worker its own row in order, skip no one and leave the run's halt flag alone; the level is cut short iff an exception escapes a node |
| `HybridDag.EveryWorkerAccounted` | agloom/patterns/hybrid_dag.py:113-180 | after n levels each of their workers has exactly one result or one user skip, and no one else has |
| `HybridDag.WholeRunAccounts` | agloom/patterns/hybrid_dag.py:100-180 | over a whole levelled run results and skips are a permutation of the planned workers |
| `HybridDag.DependenciesAccounted` | agloom/patterns/hybrid_dag.py:141-165 | when a level starts, every dependency of its workers has a result or was skipped |
| `HybridDagRuns.HaltIsFinal` | agloom/patterns/hybrid_dag.py:113-137 | after the level in which the shared flag is set nothing starts or is respawned and all further results are marked halted |
| `HybridDagRuns.DynamicNeverHalts` | agloom/orchestrator/hooks.py:244-268 | with dynamic nodes the halt flag of the run is never set |
| `HybridDagRuns.NothingLateInBatches` | agloom/patterns/hitl.py:133-140 | with batches no worker starts after a HALT_ALL, in any schedule, and one that is drained sets the shared flag |
| `HybridDagRuns.StartsAfterHaltIff` | agloom/orchestrator/hooks.py:244-268 | over all schedules of a whole run, a worker can start after a HALT_ALL iff nodes are dynamic and a worker with a listener has another beside it or in a later level |
| `HybridDagRuns.StartAfterHalt` | agloom/orchestrator/hooks.py:244-268 | two levels, of which the first node drains a HALT_ALL and the second level's worker starts |
| `HybridDagRuns.RespawnsAfterHaltIff` | agloom/patterns/hybrid_dag.py:174-180 | in any run workers are respawned after a HALT_ALL iff recovery is on and a level carried to its end, with a HALT_ALL drained in it or before, has an unsuccessful worker |
| `HybridDagRuns.CanRespawnLateIff` | agloom/patterns/hybrid_dag.py:174-180 | some schedule leads to that iff recovery is on and some worker has a listener |
| `HybridDagRuns.RespawnAfterHalt` | agloom/patterns/hybrid_dag.py:174-180 | a run of one worker, cancelled by the halt and spawned anew |
| `HybridDagRuns.NoHaltNothingLate` | agloom/patterns/hybrid_dag.py:113-180 | while no HALT_ALL has been drained nothing has started or been respawned late |
| `HybridDagRuns.MostAtOnce` | agloom/orchestrator/hooks.py:244-268 | the most workers of a level that run at once, over all interleavings: the approved ones up to the limit in a batch, all that work with dynamic nodes |
| `HybridDagRuns.LimitExceededIff` | agloom/orchestrator/hooks.py:265-267 | some schedule of a whole run exceeds the limit iff nodes are dynamic and some level has more workers, declined ones not counted unless dispatched |
| `HybridDagRuns.FiveAtOnce` | agloom/orchestrator/hooks.py:265-267 | any level of five ungated dynamic nodes, with a schedule in which more than the limit of four run at once |
| `HybridDagRuns.DeclinedInLevel` | agloom/orchestrator/hooks.py:180-227 | in a level that is run, a declined worker starts or is respawned iff nodes are dynamic, the run is no frozen replay, and it is dispatched or no exception escapes the level |
| `HybridDagRuns.DeclinedRunsIff` | agloom/patterns/hybrid_dag.py:113-180 | the same over a whole run, where moreover no exception may have cut it short before that level |
| `HybridDagRuns.DeclinedRunsAnyway` | agloom/orchestrator/hooks.py:180-227 | a run with two declined workers, of which one starts and the other is respawned |
| `HybridDagRuns.EscapeSparesDeclined` | agloom/orchestrator/hooks.py:216-222 | the same level when an exception escapes the dispatched node: the other neither starts nor is respawned |
| `SignalBatch.ClarificationQueues.ApplyBatch` | agloom/patterns/worker_gates.py:38-128 | halts iff a HALT_ALL is anywhere in the batch, and then answers no one; else each queue gets the answers to its worker's requests |
| `SignalBatch.EachRequestAnswered` | agloom/patterns/hitl.py:200-250 | with a callback each request gets one answer, its own, in the order of the requests |
| `EditDistance.Levenshtein` | agloom/llm/model_resolver.py:164-179 | the two-row loop returns the distance |
| `EditDistance.DistanceReached` | agloom/llm/model_resolver.py:164-179 | some edit script costs the distance |
| `EditDistance.DistanceLeast` | agloom/llm/model_resolver.py:164-179 | no edit script costs less |
| `EditDistance.DistanceZero` | agloom/llm/model_resolver.py:166-171 | zero iff the strings are equal |
| `EditDistance.DistanceSymmetric` | agloom/llm/model_resolver.py:164-179 | symmetric |
| `EditDistance.DistanceTriangle` | agloom/llm/model_resolver.py:164-179 | satisfies the triangle inequality |
| `EditDistance.SuggestTypoProviderSlug` | agloom/llm/model_resolver.py:192-209 | suggests c iff the input is no slug and c is the unique nearest slug, within two edits |
| `EditDistance.TypoRadius` | agloom/llm/model_resolver.py:192-209 | a slug within two edits is suggested whenever all others lie beyond twice its distance from it |
| `UpstreamFraming.AgloomMarkersSound` | agloom/patterns/_upstream_context.py:5-12 | the program's markers have the properties the proofs need |
| `UpstreamFraming.SanitizedFree` | agloom/patterns/_upstream_context.py:11 | sanitised output contains no end marker, also none that the replacement could have formed |
| `UpstreamFraming.SanitizeKeeps` | agloom/patterns/_upstream_context.py:11 | output comes through unchanged iff it contains no end marker |
| `UpstreamFraming.EndMarkerOnlyAtEnd` | agloom/patterns/_upstream_context.py:9-12 | for every output the end marker occurs in the block exactly once, at its end |
| `UpstreamFraming.DecodesBlocks` | agloom/patterns/_upstream_context.py:15-16 | a decoder recovers every block, in order, with sanitised output |
| `UpstreamFraming.FramingRoundTrip` | agloom/patterns/_upstream_context.py:15-16 | the outputs come back unchanged iff none contains the end marker |
| `Scratchpad.PagingCollectsAll` | agloom/context/tool_scratchpad.py:129-152 | following the offset hints from anywhere ends and collects the rest of the content exactly |
| `Scratchpad.NewestEvictedIff` | agloom/context/tool_scratchpad.py:115-119 | the entry just stored is evicted iff its clock reads earlier than every other's |
| `Scratchpad.Admit` | agloom/context/tool_scratchpad.py:113-120 | over its bound the cache drops exactly its oldest entry, never the new one |
| `Scratchpad.ToolScratchpad.Get` | agloom/context/tool_scratchpad.py:122-127 | answers as the unbounded map would, through eviction and reload, and changes nothing in it |
| `Scratchpad.ToolScratchpad.RecallSlice` | agloom/context/tool_scratchpad.py:129-152 | slices the stored content, or reports a missing ref |
| `Scratchpad.ToolScratchpad.Store` | agloom/context/tool_scratchpad.py:101-120 | adds exactly one fresh entry to the map, and evicts only when the cache is over its bound |
| `Scratchpad.BoundHoldsIff` | agloom/context/tool_scratchpad.py:115-127 | in every run of stores and reads the cache is within 500 entries iff none of them reloaded an entry into a full cache |
| `Scratchpad.SizeNeverShrinks` | agloom/context/tool_scratchpad.py:115-127 | in no run does the cache shrink |
| `Scratchpad.CacheOnlyBounded` | agloom/context/tool_scratchpad.py:113-120 | without a durable store the bound holds in every run |
| `Scratchpad.OverfillPad` | agloom/context/tool_scratchpad.py:115-127 | stores one entry too many and reads the evicted one: the cache holds 501 |
| `Compaction.EnsureStored` | agloom/context/compaction.py:24-36 | returns a known ref, and with a durable store one that leads back to what the message carries, storing only if none does |
| `Compaction.BoundAt` | agloom/context/compaction.py:48-70 | an oversized raw message becomes a digest, an oversized reference a stub or digest that leads back; others stay |
| `Compaction.SizePass` | agloom/context/compaction.py:88-94 | bounds every oversized tool message and, with a durable store, loses nothing |
| `Compaction.StubPass` | agloom/context/compaction.py:102-113 | stubs the given oldest tool messages, leaves the others, and with a durable store loses nothing |
| `Compaction.DigestPass` | agloom/context/compaction.py:115-134 | digests what is still raw and large, leaves the rest, and with a durable store loses nothing |
| `Compaction.CompactMessages` | agloom/context/compaction.py:73-136 | keeps length, order, ids, names and other messages; with a durable store every changed tool message carries a ref that resolves to what it carried; each message has the form its passes give, a raw one ending as a stub iff the stub pass ran and it is among the first tools minus keep, none for keep 0 |
| `ContextBudget.ReservedOutputTokens` | agloom/context/window.py:58-88 | the reservation as a function of the window, the positive limits found and thinking |
| `ContextBudget.FitsIff` | agloom/context/plane.py:26-43 | at any ratio, reservation and input budget fit the window iff it holds the reservation and 1024 tokens |
| `ContextBudget.FitsFrom2048` | agloom/context/plane.py:26-43 | at the default ratio they fit every window of 2048 tokens or more, for all limits, thinking or not |
| `ContextBudget.FitsDefaultIff` | agloom/context/window.py:78-79 | with no limit configured they fit iff the window has 2048 tokens |
| `ContextBudget.GateFits` | agloom/patterns/tool_context_middleware.py:89-103 | with that reservation, at any ratio, the middleware's budget fits every window of at least 4096 tokens |
| `ContextBudget.GateFitsIff` | agloom/patterns/tool_context_middleware.py:89-103 | for any window, share, reservation and adaptive budget, reservation and budget fit the window iff it holds the reservation with 2048 and either the share or the reservation with the adaptive budget |
| `ContextBudget.SmallWindowOverrun` | agloom/patterns/tool_context_middleware.py:89-103 | a window of 3000 tokens for which they come to 3358 |
| `ContextBudget.ComposeAll` | agloom/patterns/tool_context_middleware.py:131-153 | two compactions in a row lose no more than one |
| `ContextBudget.WrapModelCall` | agloom/patterns/tool_context_middleware.py:121-173 | calls the model iff the final estimate is within the budget; no pass raises the estimate; what is sent keeps every id and name, and with a durable store loses nothing |
| `LedgerVersions.WriteLosesNothingIff` | agloom/harness/progress.py:524-560 | in any interleaving a write carries on all that is stored iff nobody wrote since the tracker last loaded or wrote |
| `LedgerVersions.RunInStep` | agloom/harness/progress.py:441-560 | with whole saves no copy is ahead of the slot, and one at its version is in step with it |
| `LedgerVersions.NoLostUpdate` | agloom/harness/progress.py:441-560 | over every interleaving of whole saves the stored log is only carried on, its version rises with every write, and no tracker is ahead |
| `LedgerVersions.StaleUntilReload` | agloom/harness/progress.py:528-540 | a stale tracker stays stale and all its saves fail until it bootstraps again |
| `LedgerVersions.SplitSaveLosesUpdate` | agloom/harness/progress.py:524-560 | a run in which check and write of two trackers interleave and a saved change is lost |
| `LedgerVersions.DiskCopyOverwrites` | agloom/harness/progress.py:480-500 | a run in which a copy read from disk overwrites a saved change |
| `LedgerTasks.ProgressTracker.AddTask` | agloom/harness/progress.py:609-636 | appends unless the id exists, and returns the entry with that id |
| `LedgerTasks.ProgressTracker.UpdateTask` | agloom/harness/progress.py:638-685 | changes the found entry alone, by the rules for its new status |
| `LedgerTasks.OverwriteSteps` | agloom/harness/progress.py:659-667 | the nested loops overwrite each described step, later updates winning |
| `LedgerTasks.ProgressTracker.GetNextTask` | agloom/harness/progress.py:215-236 | reclaims orphans and returns the first candidate with least priority and creation time |
| `LedgerTasks.ProgressTracker.ClaimNextTask` | agloom/harness/progress.py:729-740 | does that and puts the winner in progress under the session; changes nothing else |
| `LedgerTasks.ProgressTracker.AppendHarnessPlan` | agloom/harness/planning.py:163-175 | adds the entries with new ids and counts them |
| `LedgerTasks.ProgressTracker.SyncHarness` | agloom/harness/planning.py:216-245 | seeds an empty ledger; extends one only when replanning is allowed |
| `LedgerTasks.OpKeepsSound` | agloom/harness/progress.py:109-136 | every operation keeps ids unique and the id list growing, and PASSING only with non-empty, all-passing steps and no owner |
| `LedgerTasks.RunKeepsSound` | agloom/harness/progress.py:609-740 | so does every run of operations, between any two of its states |
| `LedgerTasks.WinnerUnique` | agloom/harness/progress.py:225-236 | the chosen entry is determined |
| `LedgerTasks.OwnedByCaller` | agloom/harness/progress.py:222-225 | afterwards every in-progress entry with a named owner is the caller's |
| `LedgerTasks.NamelessNeverClaimed` | agloom/harness/progress.py:222-228 | an entry in progress without a named owner is never chosen for a named session |
| `LedgerTasks.ClaimTwice` | agloom/harness/progress.py:215-236 | claiming twice returns the same entry iff it was in progress or no tied candidate overtakes it |
| `LedgerTasks.TiedEntriesBothClaimed` | agloom/harness/progress.py:225-236 | two entries added at one reading of the clock, of which the second claim takes the other one |
| `LedgerTasks.ClaimTwiceDistinct` | agloom/harness/progress.py:229-236 | with distinct keys it always does |
| `LedgerTasks.SeedCountExact` | agloom/harness/planning.py:178-186 | the reported seed count is the number added iff the plan's ids are distinct |
| `LedgerTasks.SeedCountOverstates` | agloom/harness/planning.py:178-186 | a plan with one entry twice, of which one is added |
| `ReadCoalescing.ScopeOrder` | agloom/patterns/hitl_tool_coalesce.py:78-91 | scopes are partially ordered, with a missing line cap on top |
| `ReadCoalescing.ReadFile` | agloom/cli_tools/filesystem.py:104-146 | the byte slice, capped and numbered; the next offset is given iff the file goes on, and is where the slice ends |
| `ReadCoalescing.CappedSubset` | agloom/cli_tools/filesystem.py:121-129 | less of a slice under a smaller cap shows a prefix, up to one line break in exactly one case |
| `ReadCoalescing.SubsetReadsWithin` | agloom/patterns/hitl_tool_coalesce.py:78-91 | for every file a covered call reads a prefix of the approved text, except in that case |
| `ReadCoalescing.SubsetShowsPrefix` | agloom/cli_tools/filesystem.py:138-146 | for every file and covered call the output is a prefix of the approved one iff not in that case, or numbered and the last line read is not blank |
| `ReadCoalescing.ExtraBreakExample` | agloom/cli_tools/filesystem.py:123-126 | a file and two calls for which that case occurs |
| `ReadCoalescing.BlankLineExample` | agloom/cli_tools/filesystem.py:138-143 | a file and two calls whose numbered output shows a blank line more |
| `ReadCoalescing.ReadFileSubsetCoalescer.ShouldSkipHitl` | agloom/patterns/hitl_tool_coalesce.py:107-120 | skips iff a remembered, unexpired approval covers the call |
| `ReadCoalescing.ReadFileSubsetCoalescer.RecordApproval` | agloom/patterns/hitl_tool_coalesce.py:122-130 | what is remembered is what the calls made so far leave |
| `ReadCoalescing.ReadFileSubsetCoalescer.Clear` | agloom/patterns/hitl_tool_coalesce.py:132-133 | a new user turn forgets all approvals |
| `ReadCoalescing.RemembersThisTurn` | agloom/patterns/hitl_tool_coalesce.py:103-133 | exactly this turn's unexpired approvals are remembered |
| `ReadCoalescing.SkippedIffCovered` | agloom/patterns/hitl_tool_coalesce.py:107-130 | in every run a prompt is skipped iff an unexpired approval of the same turn covers the call |
| `ReadCoalescing.SkippedReadsApproved` | agloom/patterns/hitl_tool_coalesce.py:94-133 | so a skipped call reads, of any file, no more than a call approved in the same turn and not yet expired, up to that case |
| `ChatTemplate.NormalizeMessages` | agloom/llm/chat_template_compat.py:321-346 | flattens user blocks that hold text, and leaves everything else |
| `ChatTemplate.CoalescedShape` | agloom/llm/chat_template_compat.py:233-246 | at most one system message, at index 0, the others in order; merging twice is merging once |
| `ChatTemplate.MergedAppends` | agloom/llm/chat_template_compat.py:245-246 | the merged message holds the text of every system message, in order |
| `ChatTemplate.RepairMessages` | agloom/llm/chat_template_compat.py:424-440 | repair is flattening, filling and merging |
| `ChatTemplate.EnsureMessages` | agloom/llm/chat_template_compat.py:384-421 | returns the repaired list unless it lacks user text, and a sound list even then |
| `ChatTemplate.LastResort` | agloom/llm/chat_template_compat.py:394-421 | would yield a sound list from any list without user text |
| `ChatTemplate.RepairedShape` | agloom/llm/chat_template_compat.py:384-440 | every list comes out system-first with user text (so the last resort is never reached); the other messages are flattened in order and, if no user turn had text, the last one is filled when the list ends with a user turn, else one is put in front |
| `ChatTemplate.RepairedIdempotent` | agloom/llm/chat_template_compat.py:384-440 | repairing twice is repairing once |
| `ChatTemplate.RepairReactGraphState` | agloom/llm/chat_template_compat.py:487-522 | computes the repaired agent state without ever needing the last resort |
| `ChatTemplate.GraphStateShape` | agloom/llm/chat_template_compat.py:487-522 | the state of an agent comes out system-first with user text |
| `SessionMemory.MergeArtifactRefs` | agloom/context/summarize.py:87-94 | the loop merges as the function does |
| `SessionMemory.MergedRefsExact` | agloom/context/summarize.py:87-94 | merged refs are the non-empty ones, each once |
| `SessionMemory.MaybeSummarize` | agloom/memory/session.py:176-213 | up to three rounds, stopped by the threshold, by too few turns or by a failed attempt |
| `SessionMemory.SummaryShrinks` | agloom/context/summarize.py:145-172 | a summary strictly shortens the transcript, stands first and keeps the newest turn |
| `SessionMemory.ReportedIff` | agloom/memory/session.py:176-213 | a summary is handed on iff the transcript changed and no attempt failed; it changes without one iff after a successful round and before the last another attempt is due and fails |
| `SessionMemory.LostReport` | agloom/memory/session.py:185-196 | a transcript and a model for which it changes and no summary is handed on |
| `SessionMemory.RefKeptIff` | agloom/context/summarize.py:126-172 | a ref outlives a summary iff it is written in a folded turn, in the summary, or known to a kept turn |
| `SessionMemory.SecondSummaryForgets` | agloom/context/summarize.py:126-172 | a transcript whose first summary carries a ref that the second forgets |
| `SessionMemory.TrimmedSize` | agloom/memory/session.py:70-78 | trimming meets the limit unless summaries alone exceed it |
| `SessionMemory.NewestKeptIff` | agloom/memory/session.py:70-78 | trimming keeps the newest turn iff the limit leaves room for one beside the summary |
| `SessionMemory.AddedRemembers` | agloom/memory/session.py:253-288 | after an add to any stored transcript: at most one summary, in front; a contiguous suffix of the conversation; within the limit; newest last iff the limit is two or more, or one without a summary |
| `SessionMemory.SmallLimitNoSummary` | agloom/memory/session.py:176-187 | limits of one and two never lead to a summary |
| `SessionMemory.SmallerLimitDropsNewest` | agloom/memory/session.py:70-78 | a transcript summarised under a limit of 50 and reopened under one loses the new turn |
| `SessionMemory.ThreadMemory.AddTurn` | agloom/memory/session.py:253-288 | stores that and keeps the invariant; under one limit throughout, the newest turn is last for every limit from one on |
| `SessionMemory.ThreadMemory.PopLastTurn` | agloom/memory/session.py:304-328 | takes back the newest turn of the conversation, or the lone summary, and keeps the invariant |
| `ReactRetry.RunReactWithRetries` | agloom/patterns/react.py:843-1149 | plays the specified turns; at most 24 invocations and one batch more than the configured prompts, at most that many prompts, and neither cap branch taken |
| `ReactRetry.RunReactHitl` | agloom/patterns/react.py:1753-1972 | plays the specified turns of the loop with approvals; the same bounds with its own batch |
| `ReactRetry.InvocationsBounded` | agloom/patterns/react.py:843-1149 | for all replies and answers: at most 24 invocations, at most one batch more than the configured prompts, at most that many prompts, at most three transport retries |
| `ReactRetry.SharedNeverCapped` | agloom/patterns/react.py:860-873 | neither branch for the attempt cap is taken |
| `ReactRetry.SharedAsksOnlyForContext` | agloom/patterns/react.py:985-1049 | only a context overflow that compaction cannot help leads to a prompt |
| `ReactRetry.SharedRejected` | agloom/patterns/react.py:985-1006 | always rejected tool calls: exactly five invocations, no prompt, failure |
| `ReactRetry.AskedAtBatchEnd` | agloom/patterns/react.py:1896-1941 | the loop with approvals prompts only at the end of a complete batch |
| `ReactRetry.CapOnRetryMeans` | agloom/patterns/react.py:1919-1932 | a granted retry meets the ceiling only if whole batches make up 24 and the budget covers them |
| `ReactRetry.HitlRejected` | agloom/patterns/react.py:1896-1941 | the bound is tight, and then the ceiling is met iff the batch divides 24 and the budget allows it |
| `ReactRetry.HandleReactStreaming` | agloom/patterns/react.py:1509-1563 | streams at most once more than retries remain, nudges at most three times each, falls back once within the ceiling and never under strict execution |

## Assumptions

- Worker ids are unique in a plan, as the dictionaries keyed by id require; entries of one `depends_on`
  may repeat.
- Raw tool output does not contain the digest prefix, so message content is a datatype; reference ids
  never repeat and are not guessed; the scratchpad's store, where there is one, keeps what it is given.
- No user query equals the summary marker and no turn is filed under the pattern "summary".
- There is a signal queue, so that every parallel run has a listener, which may drain a HALT_ALL at any
  moment.
- When an exception escapes a dynamic node, the gathered others are neither cancelled nor awaited; they
  run on to their end, and what they start counts as started.
- Store operations succeed. Files are ASCII with the newline character as the only line break, and a
  file is the same when it is approved and when it is read again.
- What is passed as a parameter, of arbitrary value: worker outcomes and their interleaving, model
  replies, user answers, signals, clocks, token counts, the rendering of stubs, digests and line
  numbers, path resolution, the judgement whether a board value is a failure line, and the split
  point of a summary (between two and all but one of the turns).
- Ratios are exact fractions: 0.82 of a window is 82 of its hundredths, rounded down.

## Left out

- LedgerTasks.ProgressTracker.AddTask: entries are values in a list, so aliasing of an entry object held by a caller is not captured; notes, categories and time stamps other than the creation time are omitted.
- LedgerTasks.ProgressTracker.AppendHarnessPlan: entries added by one plan get one reading of the clock.
- LedgerVersions.NoLostUpdate: assumes that a tracker's check and write are one step, and that a whole bootstrap from disk (reading the empty slot, loading the file, the two saves) is one; the split cases are WriteLosesNothingIff, SplitSaveLosesUpdate and DiskCopyOverwrites.
- SequentialEngine.RunSequentialWorkers: the outcome of a worker is a function of its id, which suffices as each worker runs at most once.
- Compaction.CompactMessages: that nothing is lost is promised only for a scratchpad with a durable store, without which an evicted text cannot be recovered; the forms of messages and the gate are promised for any.
- HybridDag.RunHybridDag: what a dispatched node does inside is one arbitrary outcome, and it counts as one worker; when during a node the user is asked is not modelled; the synthesis after the levels is omitted.
- ParallelRun.RunParallelWorkers: the gate after a worker only reports, so it is omitted.
- ReadCoalescing.ReadFile: path errors, the header and the wording of the hints are omitted.
- ReactRetry.HandleReactStreaming: messages and token events are omitted, and only counts of invocations are modelled.
- The length of rendered digests, which metadata can make arbitrarily long.
- The wording of injected inputs, snapshots and recaps, and the events emitted along the way.
- Slug normalisation and the provider tables behind the suggestion.
- Summarising a text until it fits the input budget, a loop bounded by five passes.
- Waiting on a worker with polled halts: it returns the worker's result or the halt, whichever is seen first.
- Shell, web and file tools, pattern dispatch, classification and prompts.
