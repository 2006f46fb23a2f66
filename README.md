# PeakOperation, modelled in Dafny

PeakOperation is a Swift library of `Operation` subclasses. Its operations pass results to one
another, chain through dependencies, report progress and retry on failure. This project models
the sequential logic at its core and proves properties of it.

The modelled parts:

- **The `Result` type of THRResult.**
  - `resolve()`.
  - The initialiser that runs a throwing closure.
  - The round trip between the two.
- **The `ConcurrentOperation` life cycle.**
  - The state machine `ready → executing → finished`, with `isReady`, `isExecuting` and `isFinished`.
  - `start()`, including the early `finish()` of a cancelled operation.
  - `finish()` and `cancel()`.
  - The composed will-start, did-start, will-finish and did-finish blocks.
  - The start and finish dates and `executionTime`.
  - `description`.
  - Progress completion on `finished`.
- **The dependency chain.**
  - `operationChain`: the operation with its dependencies, their dependencies, and so on, as a set.
  - `then(do:)` on one operation and on lists.
  - Adding and removing dependencies.
  - `enqueue` of an operation, of a collection, and with a completion.
- **The integer side of progress.**
  - `chainProgress`: 100 units split evenly, with the remainder on the last child.
  - The weighted collation of `overallProgress()` and of a collating `GroupChainOperation`.
- **Result wiring.**
  - `addResultBlock` and `addCompletionBlock`.
  - The four `passesResult(to:)` overloads and `passesResults(to:)`. Each adds the dependency
    and a will-finish block that copies or appends the producer's output into the consumer's
    input, unless the producer was cancelled.
- **The result-producing subclasses.**
  - `BlockResultOperation`, `MapOperation` / `BlockMapOperation`, `CombineOperation`,
    `RetryingOperation` and `GroupChainOperation`.
  - For each: its initialisers, its `execute()`, and what it computes (`map`, `combine`, the
    retry decision and strategies, the group's result block).

## How the model is built

**Pure values.** The following are modelled as datatypes and functions:
- `Result`;
- mapping and combining;
- the retry decision;
- the dependency chain;
- the progress trees.

Modules: `Results`, `Mapping`, `Combining`, `Retrying`, `Chains` and `Progresses`.

**The operations.** Hooks and completion blocks of one operation write the fields of *another*:
- a will-finish block sets a consumer's `input`;
- a group's result block sets the group's `output` and finishes it.

So the operations are kept by identity in one object, `OperationGraphs.OperationGraph`. Its
fields hold:
- every operation's configuration and status;
- the `input` slots of single-result consumers;
- the `input` arrays of multiple-result consumers;
- the dependency graph;
- the set handed to an operation queue;
- a log of the user-visible code that ran, in order.

Its methods change those fields step by step, as the Swift methods do. Each method is proved to
move the object exactly as a pure function of module `Lifecycle` says. The lemmas of
`LifecycleFacts` then state what the Swift code promises, as properties of those functions.

**The wiring helpers.** The helpers of `Operation+Then.swift`, `Collection+Then.swift`,
`UsingResult.swift` and `Operation+Queue.swift`, and the subclass initialisers, are methods on
that object. Modules: `OperationThen`, `UsingResults`, `OperationQueues`, `GroupChains`,
`Initialisers`.

**Acyclicity.** The dependency graph maps each operation to the set of operations it waits
for. `operationChain` recurses over it and so terminates only on an acyclic graph. A ghost
`rank`, strictly decreasing along every dependency, witnesses acyclicity. Every method that adds
a dependency requires that the new edge closes no cycle, and it re-ranks the graph.

**Which file each part follows.** The repository holds two versions of `ConcurrentOperation`.
- From Sources/PeakOperation/ConcurrentOperation.swift the model takes:
  - the life cycle;
  - the four hook slots;
  - the dates;
  - `cancel()`;
  - `description`;
  - the internal queue.
- From PeakOperation/ConcurrentOperation.swift it takes:
  - the weight-based progress: one unit and one estimated second per new operation;
  - `overallProgress()`.

  The weight-based progress is what the collating `GroupChainOperation` of
  PeakOperation/Core/GroupChainOperation.swift and the progress tests rely on.

The progress setter works the same way in both versions: on `finished`, an operation that does
not manage its own progress completes `totalUnitCount` units (1 here, 100 in the other file).

**Where the tests and the code disagree.** The group progress tests
(PeakOperationTests/PeakOperationTests.swift:315-380) expect the `Progress` returned by
`enqueueWithProgress()` to total 1 unit, or 2 when collating. As written,
`enqueueWithProgress()` returns `chainProgress()`, which always totals 100. The model follows
the code. `GroupChains.GroupProgressExample` proves both numbers for the tests' set-up:
- the 100 units of `enqueueWithProgress()`;
- the 1 or 2 units of `overallProgress()`, which is what the tests' totals match.

## Model

| member | source | states |
|---|---|---|
| Results.Resolve | Pods/THRResult/Result/Result.swift:26-31 | returns exactly the value of a success and throws exactly the error of a failure |
| Results.FromThrowing | Pods/THRResult/Result/Result.swift:40-47 | a closure that returns `v` gives `success(v)`; one that throws `e` gives `failure(e)` |
| Results.ResolveRoundTrip | Pods/THRResult/Result/Result.swift:26-47 | `Result { try r.resolve() }` is `r` again, for every `r` |
| Results.FromThrowingRoundTrip | Pods/THRResult/Result/Result.swift:26-47 | resolving a result built from a closure reproduces what the closure did |
| Results.NoResultYet | PeakOperation/Core/MapOperation.swift:20-23 | the placeholder output and input is the result of a closure that throws `noResult` |
| Combining.FailureIndices | Sources/PeakOperation/CombineOperation.swift:33-38 | lists exactly the positions of the failures, in increasing order |
| Combining.FailuresOf | Sources/PeakOperation/CombineOperation.swift:33-38 | the collected errors are the failures' errors, one for one with their positions, in input order |
| Combining.NoFailuresIffAllSucceed | Sources/PeakOperation/CombineOperation.swift:33-41 | no error is collected if and only if every input succeeded |
| Combining.SuccessValues | Sources/PeakOperation/CombineOperation.swift:43-44 | the values of an all-success input, same length, in order |
| Combining.Combine | Sources/PeakOperation/CombineOperation.swift:30-46 | empty input gives `noResult`; any failure gives `errors` of every failure's error; success if and only if the input is non-empty and all succeed, and then every value in input order |
| Combining.CombineExamples | Sources/PeakOperation/CombineOperation.swift:30-46 | the three documented cases: a failure among successes, all successes, and the empty input |
| Mapping.MapResult | PeakOperation/Core/MapOperation.swift:44-51 | a value map maps a success through and passes a failure unchanged; a block map returns the block's result |
| Mapping.FailureIgnoresValueMap | PeakOperation/Core/MapOperation.swift:48-49 | a failure passes through whatever value map is supplied |
| Mapping.BlockMapSubsumesValueMap | PeakOperation/Core/MapOperation.swift:80-82 | a block map can reproduce the default result-level map on every input |
| Mapping.BlockMapCanFailASuccess | PeakOperation/Core/MapOperation.swift:80-82 | a block map, unlike a value map, can turn a success into a failure |
| Mapping.InitialInput | PeakOperation/Core/MapOperation.swift:28-33 | a given input becomes a success; without one the input stays `noResult` |
| Retrying.NoRetry | PeakOperation/Core/RetryingOperation.swift:51 | `none` never retries |
| Retrying.Repeat | PeakOperation/Core/RetryingOperation.swift:56-58 | `repeat(times:)` retries exactly while the count is at most `times` |
| Retrying.OnFinish | PeakOperation/Core/RetryingOperation.swift:28-40 | a success keeps the count and does not retry; a failure counts one more and retries exactly when the strategy says so for the new count and the error |
| Retrying.Fresh | PeakOperation/Core/RetryingOperation.swift:18-20 | a new operation's output is `noResult` and its failure count 0 |
| Retrying.RunToCompletion | PeakOperation/Core/RetryingOperation.swift:28-40 | the final output is the last run's; failures counted equal strategy consultations and are at most the runs; a finished failure was refused a retry, and an unfinished run is still asking for one |
| Retrying.SuccessFinishesAtOnce | PeakOperation/Core/RetryingOperation.swift:28-40 | a first run that succeeds finishes after one run with no failure counted |
| Retrying.RepeatFrom | PeakOperation/Core/RetryingOperation.swift:56-58 | from `k` failed runs, an always-failing body under "count ≤ times" runs `times + 1` times in all and then finishes |
| Retrying.RepeatRunsOneMoreThanTimes | PeakOperation/Core/RetryingOperation.swift:56-58 | `repeat(times: n)` with an always-failing body runs exactly `n + 1` times, then finishes |
| Retrying.NoRetryRunsOnce | PeakOperation/Core/RetryingOperation.swift:51 | `none` with a failing body: one run, one failure counted, then finished |
| Retrying.RetryWhileBelowThree | PeakOperationTests/PeakOperationTests.swift:196-215 | strategy `count < 3` with an always-failing body consults the strategy exactly 3 times before the operation finishes |
| Lifecycle.RawValue | Sources/PeakOperation/ConcurrentOperation.swift:14-18 | `ready` is 0, `executing` is 1 and `finished` is 2, each in both directions |
| Lifecycle.StateDigit | Sources/PeakOperation/ConcurrentOperation.swift:160 | the printed digit is the decimal digit of the state's raw value |
| Lifecycle.RawValueInjective | Sources/PeakOperation/ConcurrentOperation.swift:14-18 | different states have different raw values |
| Lifecycle.NewConfig | PeakOperation/ConcurrentOperation.swift:31-34 | a new operation has one unit of progress it does not manage, one estimated second, no name and no blocks |
| Lifecycle.NewStatus | Sources/PeakOperation/ConcurrentOperation.swift:37-40 | a new operation is ready, not cancelled, without dates, with nothing completed and a `noResult` output |
| Lifecycle.IsReady | Sources/PeakOperation/ConcurrentOperation.swift:101-103 | a ready operation is neither executing nor finished |
| Lifecycle.IsExecuting | Sources/PeakOperation/ConcurrentOperation.swift:106-108 | an executing operation is neither ready nor finished |
| Lifecycle.IsFinished | Sources/PeakOperation/ConcurrentOperation.swift:111-113 | a finished operation is neither ready nor executing |
| Lifecycle.NameOr | Operation/Operation+Then.swift:15-17 | the name when set, else the fallback: `"Unnamed Operation"` for `operationName`, `nil` in `description` |
| Lifecycle.Description | Sources/PeakOperation/ConcurrentOperation.swift:159-161 | the type name, then `(name: '`, the name or `nil`, then `', state: `, the state's digit and `)` |
| Lifecycle.DescriptionDetermines | Sources/PeakOperation/ConcurrentOperation.swift:159-161 | for one type, equal descriptions mean the same printed name and the same state |
| Lifecycle.DescriptionShowsState | Sources/PeakOperation/ConcurrentOperation.swift:159-161 | operations in different states never print alike |
| Lifecycle.ExecutionTime | Sources/PeakOperation/ConcurrentOperation.swift:42-46 | 0 without a start date; finish minus start once finished; now minus start while running |
| Lifecycle.Fires | Sources/PeakOperation/ConcurrentOperation.swift:191-232 | one firing of a composed block runs each added block exactly once, earliest first |
| Lifecycle.FiresAfterAdd | Sources/PeakOperation/ConcurrentOperation.swift:191-232 | adding a block keeps the earlier blocks and runs them before the new one |
| Lifecycle.RunHook | PeakOperation/Core/UsingResult.swift:78-83 | one will-finish block changes only input slots and logs only a user block |
| Lifecycle.RunHooks | Sources/PeakOperation/ConcurrentOperation.swift:214-220 | the composed will-finish block changes only input slots and logs its user blocks in order |
| Lifecycle.PassResultDelivers | PeakOperation/Core/UsingResult.swift:78-83 | after the will-finish blocks, a consumer's input is the producer's output if a passing block for it is there and the producer is not cancelled, and is unchanged otherwise |
| Lifecycle.PassStep | PeakOperation/Core/UsingResult.swift:78-83 | one block sets a consumer's input exactly when it is a passing block for that consumer and the producer is not cancelled |
| Lifecycle.AppendResultDelivers | PeakOperation/Core/UsingResult.swift:95-101 | a fan-in consumer's array gains one copy of the output per appending block for it, or nothing when the producer is cancelled |
| Lifecycle.AppendStep | PeakOperation/Core/UsingResult.swift:95-101 | one block appends the output exactly when it is an appending block for that consumer and the producer is not cancelled |
| Lifecycle.SetState | Sources/PeakOperation/ConcurrentOperation.swift:58-79 | stores the state; entering `finished` without managing its own progress completes all units; otherwise progress is untouched; no other operation changes |
| Lifecycle.BaseFinish | Sources/PeakOperation/ConcurrentOperation.swift:177-185 | keeps every configuration, operation, slot and dependency; the queue is unchanged |
| Lifecycle.RunAttempt | PeakOperation/Core/RetryingOperation.swift:32-34 | one more run of the body is logged, and nothing outside the frame changes |
| Lifecycle.RetryFinishAsWritten | PeakOperation/Core/RetryingOperation.swift:28-40 | the retrying `finish()` as written keeps the frame |
| Lifecycle.RetryFinish | PeakOperation/Core/RetryingOperation.swift:28-40 | the corrected retrying `finish()` keeps the frame; unlike the source, a cancelled operation is never retried |
| Lifecycle.FinishAsWritten | PeakOperation/Core/RetryingOperation.swift:28-40 | `finish()` dispatched as written keeps the frame |
| Lifecycle.Finish | PeakOperation/Core/RetryingOperation.swift:28-40 | `finish()` with the corrected override keeps the frame; unlike the source, a cancelled retrying operation finishes |
| Lifecycle.CombineOutput | Sources/PeakOperation/CombineOperation.swift:25-28 | a success exactly when `combine` succeeds, holding its values as a list; otherwise `combine`'s error |
| Lifecycle.GroupOutput | PeakOperation/Core/GroupChainOperation.swift:54-59 | any success becomes `success(())`; a failure passes unchanged |
| Lifecycle.ExecuteBody | PeakOperation/Core/GroupChainOperation.swift:64-72 | each subclass's `execute()` body keeps the frame |
| Lifecycle.Execute | Sources/PeakOperation/ConcurrentOperation.swift:172-174 | every run of `execute()` is logged first, and the frame is kept |
| Lifecycle.Start | Sources/PeakOperation/ConcurrentOperation.swift:121-137 | `start()` keeps the frame; a cancelled operation goes to the corrected `finish()`, so a cancelled retrying operation finishes instead of re-running its body |
| Lifecycle.Begin | Sources/PeakOperation/ConcurrentOperation.swift:128-134 | the part of `start()` before `execute()` keeps the frame and the queue |
| Lifecycle.CancelReach | Sources/PeakOperation/ConcurrentOperation.swift:163-166 | what one `cancel()` reaches: the operation itself, and otherwise only unfinished, known operations |
| Lifecycle.Cancel | Sources/PeakOperation/ConcurrentOperation.swift:163-166 | `cancel()` changes no input, queue or log |
| Lifecycle.CompletionStep | PeakOperation/Core/UsingResult.swift:51-65 | one piece of the completion block keeps the frame |
| Lifecycle.RunCompletionBlocks | PeakOperation/Core/UsingResult.swift:51-65 | the composed completion block keeps the frame |
| Lifecycle.RunCompletion | PeakOperation/Core/UsingResult.swift:51-65 | running the completion block keeps the frame |
| LifecycleFacts.FinishSequence | Sources/PeakOperation/ConcurrentOperation.swift:177-185 | will-finish blocks, then `finished`, then the finish date, then did-finish blocks; progress completes unless self-managed; results reach consumers unless cancelled; no other status changes |
| LifecycleFacts.FinishShape | Sources/PeakOperation/ConcurrentOperation.swift:177-185 | the log and status part of `finish()` |
| LifecycleFacts.FinishPasses | PeakOperation/Core/UsingResult.swift:78-83 | the single-result inputs after `finish()` |
| LifecycleFacts.FinishAppends | PeakOperation/Core/UsingResult.swift:95-101 | the input arrays after `finish()` |
| LifecycleFacts.HookEventsAreWillFinish | Sources/PeakOperation/ConcurrentOperation.swift:214-220 | the will-finish part of the log holds only will-finish blocks of the finishing operation |
| LifecycleFacts.FinishEventsRunNothing | Sources/PeakOperation/ConcurrentOperation.swift:177-185 | `finish()` logs no run of `execute()` and no start |
| LifecycleFacts.CancelledStartIsFinish | Sources/PeakOperation/ConcurrentOperation.swift:121-126 | a cancelled operation's `start()` is its `finish()` |
| LifecycleFacts.CancelledStartNeverExecutes | Sources/PeakOperation/ConcurrentOperation.swift:121-126 | a cancelled `start()` runs no will-start or did-start block, sets no start date, never runs `execute()`, and ends `finished` |
| LifecycleFacts.CancelledRetryingExecutesAsWritten | PeakOperation/Core/RetryingOperation.swift:28-40 | as written, a cancelled failed retrying operation whose strategy says retry runs `execute()` again instead of finishing |
| LifecycleFacts.CancelledRepeatOnceRunsAsWritten | PeakOperation/Core/RetryingOperation.swift:28-40 | a concrete case: `repeat(times: 1)`, cancelled before start, runs its body, and is not finished until the body's own `finish()` |
| LifecycleFacts.StartSequence | Sources/PeakOperation/ConcurrentOperation.swift:128-136 | will-start blocks, `executing`, start date, did-start blocks, then `execute()`, in that order |
| LifecycleFacts.StartedWorld | Sources/PeakOperation/ConcurrentOperation.swift:128-136 | `execute()` starts from an `executing` operation with its start date set and the start logged |
| LifecycleFacts.StartCustom | Sources/PeakOperation/ConcurrentOperation.swift:121-137 | a custom operation is left `executing` with its start date set, waiting for its own `finish()` |
| LifecycleFacts.ExecutionTimeAcrossLifecycle | Sources/PeakOperation/ConcurrentOperation.swift:42-46 | `executionTime` is 0 before the start, the time since the start while running, and finish minus start after the finish |
| LifecycleFacts.BlockResultPassesItsValue | PeakOperation/Core/BlockResultOperation.swift:41-44 | the output is the block's result before `finish()`, so a wired consumer receives it |
| LifecycleFacts.MapExecutes | PeakOperation/Core/MapOperation.swift:35-38 | the output becomes the mapped input, then the operation finishes |
| LifecycleFacts.CombineExecutes | Sources/PeakOperation/CombineOperation.swift:25-28 | the output becomes the combined input array, then the operation finishes |
| LifecycleFacts.GroupFailedInputShortCircuits | PeakOperation/Core/GroupChainOperation.swift:64-72 | a failed input becomes the output, the group finishes, and nothing is enqueued |
| LifecycleFacts.GroupEnqueuesChain | PeakOperation/Core/GroupChainOperation.swift:64-67 | a successful input puts the wrapped operation's whole chain on the internal queue; the group keeps executing |
| LifecycleFacts.GroupCompletionFinishesGroup | PeakOperation/Core/GroupChainOperation.swift:52-61 | the wrapped operation's completion sets the group's output to `success(())` or the error, and finishes the group |
| LifecycleFacts.RetryFinishOutcomes | PeakOperation/Core/RetryingOperation.swift:28-40 | a success finishes normally; a failure counts one more, and then either re-runs the body without finishing or finishes |
| LifecycleFacts.CancelEffects | Sources/PeakOperation/ConcurrentOperation.swift:163-166 | exactly the unfinished operations that the cancel reaches become cancelled: the operation itself, what is on its internal queue, what is on theirs, and so on. A finished operation is left alone, and nothing else changes |
| LifecycleFacts.CancelReachIff | Sources/PeakOperation/ConcurrentOperation.swift:163-166 | the operations one `cancel()` collects are exactly the ends of nesting paths from it, however deep |
| LifecycleFacts.CancelReachHasPath | Sources/PeakOperation/ConcurrentOperation.swift:163-166 | every operation collected within a depth ends a nesting path no longer than that depth |
| LifecycleFacts.PathInCancelReach | Sources/PeakOperation/ConcurrentOperation.swift:163-166 | the end of every nesting path within the depth is collected |
| LifecycleFacts.ShortPath | Sources/PeakOperation/ConcurrentOperation.swift:163-166 | every nesting path can be cut to one no longer than the number of operations, with the same ends |
| LifecycleFacts.CancelCascades | Sources/PeakOperation/ConcurrentOperation.swift:163-166 | an unfinished operation on the internal queue of any operation the cancel reaches is cancelled too |
| LifecycleFacts.CancelKeepsNesting | Sources/PeakOperation/ConcurrentOperation.swift:163-166 | cancelling leaves every internal queue and state alone, so it reaches the same operations |
| LifecycleFacts.NestedGroupCancelled | Sources/PeakOperation/ConcurrentOperation.swift:163-166 | cancelling a group cancels a nested group on its internal queue and what is on that group's queue |
| LifecycleFacts.CancelIdempotent | Sources/PeakOperation/ConcurrentOperation.swift:163-166 | cancelling twice is cancelling once |
| LifecycleFacts.ConsumerWaitsForProducer | Sources/PeakOperation/ConcurrentOperation.swift:101-103 | an uncancelled consumer is not ready while a dependency is unfinished |
| LifecycleFacts.ReadyIff | Sources/PeakOperation/ConcurrentOperation.swift:101-103 | ready exactly when in state `ready` and either cancelled or with every dependency finished |
| LifecycleFacts.CompletionOrder | PeakOperation/Core/UsingResult.swift:51-65 | the completion events are exactly those of the plain and result pieces, once each, in the order added; every result block receives the operation's output, which no piece changes, also when a group's piece finishes the group in between |
| LifecycleFacts.PlainCompletionOrder | PeakOperation/Core/UsingResult.swift:51-65 | with no group piece, the completion block logs exactly its pieces' events and changes no status |
| LifecycleFacts.CompletionPieceEvents | PeakOperation/Core/UsingResult.swift:51-65 | one piece logs its own completion event, or none for a group's piece, and keeps the operation's status |
| LifecycleFacts.FinishLogsNoCompletion | PeakOperation/Core/GroupChainOperation.swift:52-61 | the group's `finish()` called from a completion piece logs no completion event and changes no other operation's status |
| LifecycleFacts.PlainStep | PeakOperation/Core/UsingResult.swift:51-65 | a plain or result piece only logs its event |
| LifecycleFacts.AddedBlockRunsLast | Operation/Operation+Then.swift:19-29 | a block added to the completion runs after all earlier ones, which still run, including a group's piece; a result block receives the output |
| Chains.OperationChain | PeakOperation/Core/Operation+Queue.swift:16-18 | the chain always contains the receiver |
| Chains.ChainIsReachable | PeakOperation/Core/Operation+Queue.swift:16-18 | the chain is exactly what the receiver reaches along dependencies |
| Chains.PathInChain | PeakOperation/Core/Operation+Queue.swift:16-18 | the end of every dependency path lies in its start's chain |
| Chains.ChainTransitive | PeakOperation/Core/Operation+Queue.swift:16-18 | a member's chain is part of the receiver's chain |
| Chains.ChainBelowRank | PeakOperation/Core/Operation+Queue.swift:16-18 | every other member ranks strictly below the receiver |
| Chains.ChainRankIndependent | PeakOperation/Core/Operation+Queue.swift:16-18 | the chain does not depend on which rank witnesses acyclicity |
| Chains.ChainOfIndependent | PeakOperation/Core/Operation+Queue.swift:16-18 | an operation without dependencies has the chain `{op}` |
| Chains.ChainClosed | PeakOperation/Core/Operation+Queue.swift:16-18 | a dependency of a member is a member |
| Chains.DepChainIncluded | PeakOperation/Core/Operation+Queue.swift:16-18 | a dependency's chain is part of the dependant's chain |
| Chains.ChainUnfold | PeakOperation/Core/Operation+Queue.swift:17 | a member is the receiver or a member of some dependency's chain, and conversely |
| Chains.AddEdge | PeakOperation/Core/Operation+Queue.swift:37 | `addDependency` adds exactly one dependency to one operation |
| Chains.RemoveEdge | Operation/Operation+Then.swift:43-45 | `removeDependency` removes exactly that dependency, if present |
| Chains.RemoveEdgeKeepsRanked | Operation/Operation+Then.swift:43-45 | removing a dependency keeps the graph acyclic |
| Chains.RerankRanked | PeakOperation/Core/Operation+Queue.swift:36-38 | an edge that closes no cycle keeps the graph acyclic |
| Chains.RerankEdge | PeakOperation/Core/Operation+Queue.swift:36-38 | every edge of the extended graph goes down in the new rank |
| Chains.AddEdgeKeepsChain | PeakOperation/Core/Operation+Queue.swift:36-38 | a new edge leaves unchanged the chain of every operation that does not reach the dependant |
| Chains.SameDepChainsSameChain | PeakOperation/Core/Operation+Queue.swift:17 | equal dependencies with equal chains give equal chains |
| Chains.AddEdgeExtendsChain | PeakOperation/Core/Operation+Queue.swift:36-38 | after `x` gains dependency `d`, the chain of `x` is its old chain plus the chain of `d` |
| Chains.AddEdgeExtendsAt | PeakOperation/Core/Operation+Queue.swift:36-38 | the same, member by member |
| Chains.ChainAwayFrom | Operation/Collection+Then.swift:17-19 | edges added to operations a chain does not reach leave that chain unchanged |
| Progresses.AllDoneCompletesPending | PeakOperation/ConcurrentOperation.swift:128-137 | once every child is complete, the parent has completed exactly its pending units |
| Progresses.NoneDoneCompletesNothing | PeakOperation/ConcurrentOperation.swift:128-137 | before any child completes, the parent has completed nothing |
| Progresses.SetSumPair | PeakOperation/ConcurrentOperation.swift:128-137 | the weight sum over two distinct operations is their two weights |
| Progresses.CollateStep | PeakOperation/ConcurrentOperation.swift:130-135 | one turn of the collating loop keeps total, children and weights in step |
| Progresses.Collate | PeakOperation/ConcurrentOperation.swift:128-137 | the total is the sum of the weights and of the children's pending units; each member is one child weighted by its weight |
| Progresses.SplitStep | PeakOperation/Core/Operation+Queue.swift:47-53 | one turn of the `chainProgress` loop keeps the even split |
| Progresses.ChainProgress | PeakOperation/Core/Operation+Queue.swift:41-56 | 100 units over one child per member; the first `n - 1` get `100 / n`, the last also the remainder, and the pending units sum to 100 |
| OperationQueues.ChainKnown | PeakOperation/Core/Operation+Queue.swift:16-18 | every member of a known operation's chain is known |
| OperationQueues.Then | PeakOperation/Core/Operation+Queue.swift:35-39 | `op` gains the receiver as a dependency and is returned; its chain gains the receiver's chain; nothing else changes |
| OperationQueues.ChainsOfReach | PeakOperation/Core/Operation+Queue.swift:108-111 | the union of the chains is exactly what the members reach |
| OperationQueues.ChainsOfClosed | PeakOperation/Core/Operation+Queue.swift:108-111 | what is handed to the queue includes every dependency of what is handed over |
| OperationQueues.ChainsOfChain | PeakOperation/Core/Operation+Queue.swift:108-111 | the chains of a chain's members add nothing to the chain |
| OperationQueues.EnqueueAll | PeakOperation/Core/Operation+Queue.swift:108-111 | the union of the members' chains is handed to the queue, and nothing else changes |
| OperationQueues.Enqueue | PeakOperation/Core/Operation+Queue.swift:24-28 | the receiver's chain is handed to the queue and the receiver returned |
| OperationQueues.EnqueueWithCompletion | PeakOperation/Core/Operation+Queue.swift:68-73 | a result block is added, then the chain is handed to the queue |
| OperationQueues.ChainProgressOf | PeakOperation/Core/Operation+Queue.swift:41-56 | `chainProgress()` over the receiver's chain, which is never empty |
| OperationQueues.EnqueueWithProgress | PeakOperation/Core/Operation+Queue.swift:83-86 | the chain is enqueued and the returned progress totals 100 over one child per member: 100/n pending units each, the remainder of 100/n on the last |
| OperationQueues.EnqueueWithProgressAndCompletion | PeakOperation/Core/Operation+Queue.swift:96-100 | the result block is added, the chain enqueued, and the chain's progress returned: 100 units over one child per member, 100/n each, the remainder on the last |
| OperationQueues.OverallProgress | PeakOperation/ConcurrentOperation.swift:128-137 | one child per chain member weighted by its estimated seconds; the total is the sum of those seconds |
| OperationQueues.DetailedProgressGraph | PeakOperationTests/PeakOperationTests.swift:286-297 | two block operations estimated at 1 and 10 seconds, joined by `then`, make a chain of two |
| OperationQueues.DetailedProgressExample | PeakOperationTests/PeakOperationTests.swift:284-312 | the second operation's `overallProgress()` totals 11 units over two children |
| OperationThen.AddCompletionBlock | Operation/Operation+Then.swift:19-29 | the new block runs after the existing ones, and nothing else changes |
| OperationThen.AddDependency | Operation/Operation+Then.swift:31-33 | `x` waits for `d` as well; no other operation's dependencies change |
| OperationThen.AddDependencies | Operation/Operation+Then.swift:35-41 | `x` gains exactly the listed dependencies |
| OperationThen.RemoveDependency | Operation/Operation+Then.swift:43-45 | `x` no longer waits for `d`; nothing else changes |
| OperationThen.RemoveDependencies | Operation/Operation+Then.swift:47-49 | `x` loses exactly the listed dependencies |
| OperationThen.RemoveAllDependencies | Operation/Operation+Then.swift:51-53 | `x` is left with no dependency; no other operation changes |
| OperationThen.ThenPair | Operation/Operation+Then.swift:55-59 | `op` waits for the receiver, and `[self, op]` is returned |
| OperationThen.ThenBlock | Operation/Operation+Then.swift:61-64 | no operation gives `[self]` with nothing changed; a thrown error is rethrown; otherwise as `ThenPair` |
| OperationThen.ThenSeq | Operation/Collection+Then.swift:15-27 | the lists are joined in order; every operation of the second waits for the last of the first; an empty receiver adds no dependency |
| OperationThen.ThenSeqBlock | Operation/Collection+Then.swift:29-32 | no operation leaves the list as it is; a thrown error is rethrown; otherwise the new operation is appended and waits for the last |
| UsingResults.AddResultBlock | PeakOperation/Core/UsingResult.swift:51-65 | a result block is added after the existing completion pieces, and nothing else changes |
| UsingResults.PassesResult | PeakOperation/Core/UsingResult.swift:76-85 | the consumer waits for the producer, the producer gains one passing will-finish block, and the consumer is returned |
| UsingResults.PassesResultAppending | PeakOperation/Core/UsingResult.swift:93-104 | the same, with a block that appends to the consumer's input array |
| UsingResults.PassesResultToAll | PeakOperation/Core/UsingResult.swift:114-119 | each consumer waits for the producer, with no dependency between consumers, and gains one passing block, in order |
| UsingResults.PassesResultAppendingToAll | PeakOperation/Core/UsingResult.swift:129-134 | the same for consumers of several results |
| UsingResults.AppendHooksOfAppends | PeakOperation/Core/UsingResult.swift:146-151 | each listed producer gains one appending block per listing, after its earlier blocks, and nothing else changes |
| UsingResults.PassesResults | PeakOperation/Core/UsingResult.swift:146-151 | the consumer waits for every producer, each producer gains its appending blocks, and the consumer is returned |
| UsingResults.FinishPassesResult | PeakOperation/Core/UsingResult.swift:78-83 | once a wired producer finishes, the consumer's input is its output, or unchanged when it was cancelled |
| UsingResults.FinishAppendsResult | PeakOperation/Core/UsingResult.swift:95-101 | once a wired producer finishes, the consumer's array gains its output once per block, or nothing when it was cancelled |
| GroupChains.CollateProgress | PeakOperation/Core/GroupChainOperation.swift:39-50 | a collating group's progress and estimate are rebuilt from the chain's weights |
| GroupChains.RegisterGroup | PeakOperation/Core/GroupChainOperation.swift:33-50 | a new group whose input is `success(())`, set up for collating or not |
| GroupChains.NewGroup | PeakOperation/Core/GroupChainOperation.swift:33-62 | the group's progress is set up from the wrapped operation's chain, and the wrapped operation gains the result block that finishes the group |
| GroupChains.PairChain | PeakOperationTests/PeakOperationTests.swift:326-328 | a consumer wired to an independent producer has the chain of the two |
| GroupChains.SingleSum | PeakOperation/ConcurrentOperation.swift:128-137 | the weight sum over one operation is its weight |
| GroupChains.PassingPair | PeakOperationTests/PeakOperationTests.swift:318-328 | two operations joined by `passesResult` have a chain of two |
| GroupChains.GroupProgressExample | PeakOperationTests/PeakOperationTests.swift:315-380 | the grouped pair gives 100 units from `enqueueWithProgress()`, and `overallProgress()` totals 1, or 2 when collating |
| Initialisers.NewBlockResult | PeakOperation/Core/BlockResultOperation.swift:36-38 | a new operation keeping the block as it is |
| Initialisers.NewBlockValue | PeakOperation/Core/BlockResultOperation.swift:26-30 | the block's value is wrapped as a success, so the operation cannot fail |
| Initialisers.NewMap | PeakOperation/Core/MapOperation.swift:28-33 | the input is a success of the given value, or `noResult` without one |
| Initialisers.NewCombine | Sources/PeakOperation/CombineOperation.swift:18-23 | the input array is the given one, or empty |
| Initialisers.NewRetrying | PeakOperation/Core/RetryingOperation.swift:18-25 | strategy `none`, failure count 0, output `noResult` |
| OperationGraphs.FrameKeepsValid | Sources/PeakOperation/ConcurrentOperation.swift:121-185 | every life-cycle step keeps the graph valid |
| OperationGraphs.RegisterKeepsValid | PeakOperation/ConcurrentOperation.swift:31-34 | a new operation keeps the graph valid |
| OperationGraphs.AddEdgeKeepsValid | PeakOperation/Core/Operation+Queue.swift:37 | a dependency that closes no cycle keeps the graph valid |
| OperationGraphs.RemoveEdgeKeepsValid | Operation/Operation+Then.swift:43-45 | removing a dependency keeps the graph valid |
| OperationGraphs.ReconfigureKeepsValid | PeakOperation/Core/GroupChainOperation.swift:37-41 | changing what is attached to an operation, but not its kind, keeps the graph valid |
| OperationGraphs.OperationGraph.FireBlocks | Sources/PeakOperation/ConcurrentOperation.swift:191-232 | a composed block's loop logs exactly what `Fires` says |
| OperationGraphs.OperationGraph.RunWillFinishHook | PeakOperation/Core/UsingResult.swift:78-83 | one will-finish block moves the graph exactly as `Lifecycle.RunHook` says: a user block, a passing block (lines 78-83) or an appending block (lines 95-101) |
| OperationGraphs.OperationGraph.StampFinish | Sources/PeakOperation/ConcurrentOperation.swift:182 | only the operation's finish date is set, and the stamp is logged |
| OperationGraphs.OperationGraph.RunWillFinishHooks | Sources/PeakOperation/ConcurrentOperation.swift:214-220 | the hook loop moves the graph exactly as `RunHooks` says |
| OperationGraphs.OperationGraph.SetState | Sources/PeakOperation/ConcurrentOperation.swift:58-79 | the setter moves the graph exactly as `Lifecycle.SetState` says |
| OperationGraphs.OperationGraph.BaseFinish | Sources/PeakOperation/ConcurrentOperation.swift:177-185 | exactly as `Lifecycle.BaseFinish` |
| OperationGraphs.OperationGraph.RunAttempt | PeakOperation/Core/RetryingOperation.swift:32-34 | exactly as `Lifecycle.RunAttempt` |
| OperationGraphs.OperationGraph.Finish | PeakOperation/Core/RetryingOperation.swift:28-40 | exactly as `Lifecycle.Finish`, the corrected override: a cancelled retrying operation finishes; a valid graph stays valid |
| OperationGraphs.OperationGraph.RetryFinish | PeakOperation/Core/RetryingOperation.swift:28-40 | exactly as `Lifecycle.RetryFinish`, the corrected override: a cancelled operation is never retried |
| OperationGraphs.OperationGraph.SetOutputAndFinish | PeakOperation/Core/BlockResultOperation.swift:41-44 | sets the output, then finishes as `Lifecycle.BaseFinish` |
| OperationGraphs.OperationGraph.ExecuteBody | PeakOperation/Core/GroupChainOperation.swift:64-72 | exactly as `Lifecycle.ExecuteBody` |
| OperationGraphs.OperationGraph.EnqueueWrapped | PeakOperation/Core/GroupChainOperation.swift:66-67 | the wrapped chain goes onto the queue and the group's internal queue |
| OperationGraphs.OperationGraph.Execute | Sources/PeakOperation/ConcurrentOperation.swift:172-174 | exactly as `Lifecycle.Execute` |
| OperationGraphs.OperationGraph.Begin | Sources/PeakOperation/ConcurrentOperation.swift:128-134 | exactly as `Lifecycle.Begin` |
| OperationGraphs.OperationGraph.Start | Sources/PeakOperation/ConcurrentOperation.swift:121-137 | on a ready operation, exactly as `Lifecycle.Start`, keeping the graph valid; a cancelled retrying operation finishes instead of re-running its body |
| OperationGraphs.OperationGraph.Cancel | Sources/PeakOperation/ConcurrentOperation.swift:163-166 | exactly as `Lifecycle.Cancel`, the cascade through nested internal queues; a valid graph stays valid |
| OperationGraphs.OperationGraph.CompletionStep | PeakOperation/Core/UsingResult.swift:51-65 | exactly as `Lifecycle.CompletionStep` |
| OperationGraphs.OperationGraph.RunCompletion | PeakOperation/Core/UsingResult.swift:51-65 | on a finished operation, exactly as `Lifecycle.RunCompletion`, keeping the graph valid |
| OperationGraphs.OperationGraph.AddWillStartBlock | Sources/PeakOperation/ConcurrentOperation.swift:191-197 | the block is added after every earlier will-start block; nothing else changes |
| OperationGraphs.OperationGraph.AddDidStartBlock | Sources/PeakOperation/ConcurrentOperation.swift:202-208 | the block is added after every earlier did-start block; nothing else changes |
| OperationGraphs.OperationGraph.AddWillFinishBlock | Sources/PeakOperation/ConcurrentOperation.swift:214-220 | the block is added after every earlier will-finish block; nothing else changes |
| OperationGraphs.OperationGraph.AddDidFinishBlock | Sources/PeakOperation/ConcurrentOperation.swift:226-232 | the block is added after every earlier did-finish block; nothing else changes |
| OperationGraphs.OperationGraph.AddCompletion | Operation/Operation+Then.swift:19-29 | the piece is added after every earlier completion piece; nothing else changes |
| OperationGraphs.OperationGraph.Register | PeakOperation/ConcurrentOperation.swift:31-34 | a fresh identity with the default configuration, a new status and its subclass's input slot |
| OperationGraphs.OperationGraph.AddDependency | PeakOperation/Core/Operation+Queue.swift:37 | exactly one edge is added, and the graph stays valid |
| OperationGraphs.OperationGraph.RemoveDependency | Operation/Operation+Then.swift:43-45 | exactly one edge is removed, and the graph stays valid |
| OperationGraphs.OperationGraph.AddOperations | Operation/Collection+Then.swift:34-36 | the operations are handed to the queue, and nothing else changes |
| OperationGraphs.OperationGraph.SetEstimatedSeconds | PeakOperation/ConcurrentOperation.swift:34 | only the estimate of that operation changes |
| OperationGraphs.OperationGraph.SetProgress | PeakOperation/Core/GroupChainOperation.swift:37-40 | the operation now manages its own progress and has the given progress; nothing else changes |
| OperationGraphs.OperationGraph.SetRetryStrategy | PeakOperation/Core/RetryingOperation.swift:25 | only that operation's strategy changes |
| OperationGraphs.OperationGraph.SetInput | PeakOperation/Core/MapOperation.swift:30-32 | only that input slot changes |
| OperationGraphs.OperationGraph.SetInputs | Sources/PeakOperation/CombineOperation.swift:20-22 | only that input array changes |

## Left out

- Scheduling and threads are not modelled.
  - `OperationQueue` scheduling is an outside actor. It calls `start()` on a ready operation, and later calls the completion block of a finished one (`OperationGraph.Start`, `OperationGraph.RunCompletion`).
  - The internal queues, the GCD state queue with its barrier writes, and `resultPassingQueue` are left out. Their appends are plain appends.
- Observation is not modelled: `NotificationCenter` posts, KVO change notifications and the `keyPathsForValuesAffecting*` declarations.
- `Date()`, `TimeInterval` and `Progress.fractionCompleted` are floating point and are left out. Dates are abstract integers passed in as `now`, and progress is integer unit counts.
  - The `Progress` objects are their integer content: total, children and pending counts.
  - Foundation's propagation of completed units through a tree is stated as `CompletedUnits` over the set of complete children.
- 64-bit `TimeInSeconds` and `Int64` unit arithmetic are unbounded integers. Overflow is not modelled.
- `Lifecycle.Value`: the source is generic in the result types. The model uses one value type, so that any producer can be wired to any consumer.
- Only user blocks of the hooks are modelled; what they do is not. User blocks are known by a tag, and the log records when they run.
- References and memory management are not modelled. Operations are identities, and the `weak`/`unowned` captures are left out: every capture is alive.
- Result passing of a retrying producer that retries is asynchronous. `Lifecycle.Execute` runs the body of a retrying operation once. The body's own later `finish()` is a separate step.
  - The synchronous test shape is proved on `Retrying.RunToCompletion`.
- Lifecycle.Finish: a cancelled retrying operation finishes instead of re-running its body (the corrected behaviour of the Findings row). `Lifecycle.FinishAsWritten` is the source's behaviour.
- Lifecycle.RetryFinish: a cancelled retrying operation finishes instead of re-running its body (the corrected behaviour of the Findings row). `Lifecycle.RetryFinishAsWritten` is the source's behaviour.
- Lifecycle.Start: a cancelled retrying operation finishes instead of re-running its body (the corrected behaviour of the Findings row).
- OperationGraphs.OperationGraph.Finish: a cancelled retrying operation finishes instead of re-running its body (the corrected behaviour of the Findings row).
- OperationGraphs.OperationGraph.RetryFinish: a cancelled retrying operation finishes instead of re-running its body (the corrected behaviour of the Findings row).
- OperationGraphs.OperationGraph.Start: a cancelled retrying operation finishes instead of re-running its body (the corrected behaviour of the Findings row).
- LifecycleFacts.RetryFinishOutcomes: states the corrected `finish()`, where a cancelled retrying operation finishes instead of re-running its body (the corrected behaviour of the Findings row).
- UsingResults.FinishPassesResult: a cancelled retrying producer finishes instead of re-running its body (the corrected behaviour of the Findings row).
- UsingResults.FinishAppendsResult: a cancelled retrying producer finishes instead of re-running its body (the corrected behaviour of the Findings row).
- `super.start()` (Sources/PeakOperation/ConcurrentOperation.swift:122) is not modelled. Foundation refuses to start an operation that is not ready; `OperationGraph.Start` stands for it by requiring `IsReady`.
- Only map, group and combine operations have input slots (`NewInputs`, `NewArrays`). A user-defined `ConsumesResult` or `ConsumesMultipleResults` consumer is not modelled, so it cannot be wired with `passesResult`.
- Retrying.RunToCompletion: a `fuel` bound limits the number of retries, because a strategy may retry forever. Out of fuel, the run is reported unfinished.
- Dependencies are sets. Foundation's `dependencies` arrays may list an operation twice, and their order is not modelled.
- Acyclicity is required of every new dependency. `operationChain` never terminates on a cycle, so closing one is the caller's error. This requirement is the model's, not a check of the source.
- `then(do:)` on a finished operation is required away, because the source asserts against it (Operation/Operation+Then.swift:56 and Operation/Collection+Then.swift:18).
- Variadic overloads are not modelled separately. They are the sequence forms: `add(dependencies:)`, `then(do:)` on a collection.
- The collection `enqueue` and `passesResults` receive the collection as a set or a sequence of identities.
- The `compactMap { $0 as? ConcurrentOperation }` filters are not modelled. Every operation in the model is a `ConcurrentOperation`.
- The base `execute()` and the value-level `map(input:)` are `fatalError`. The model only has subclasses that supply them.
- `cancel()` with its cascade is one update of the statuses. `cancelAllOperations()` sends `cancel()` to every operation still on the internal queue, and a nested `ConcurrentOperation` cancels its own internal queue in turn. The model flags every unfinished operation reached this way, in no particular order. Operations that have finished have left their queue, and a finished operation is not flagged.
- One internal queue per operation: the model uses the `internalQueue` of Sources/PeakOperation/ConcurrentOperation.swift for both `cancel()` and the group's `execute()`. PeakOperation/Core/GroupChainOperation.swift declares a queue of its own, which that version's `cancel()` would not reach.
- The group cancellation test is left out. It depends on timing (Tests/PeakOperationTests/GroupTests.swift:108-152).
- Superseded copies of the core files are not part of this model:
  - PeakOperation/Core/ConcurrentOperation.swift, PeakOperation/Core/CombineOperation.swift;
  - Sources/PeakOperation/GroupChainOperation.swift, PeakOperation/GroupChainOperation.swift;
  - PeakOperation/UsingResult.swift, PeakOperation/MapOperation.swift;
  - everything under Operation/ other than Operation+Then.swift and Collection+Then.swift.

  The one exception is `enqueue` of Operation/Collection+Then.swift, which is `OperationGraph.AddOperations`.
- Playground.playground/Contents.swift is not part of this model.
- `description`: the dynamic type's name is a parameter, because the model has no Swift types.

## Findings

| source | as written | input that shows it | evidently intended | confidence | as-written member | corrected member |
|---|---|---|---|---|---|---|
| PeakOperation/Core/RetryingOperation.swift:28-40 | `finish()` re-runs `execute()` whenever the strategy asks for a retry, without looking at `isCancelled`. `start()` of a cancelled operation calls `finish()` (Sources/PeakOperation/ConcurrentOperation.swift:124-126). | a `RetryingOperation` with `repeat(times: 1)`, cancelled before it starts. Its `noResult` output counts as failure 1 and the strategy says retry, so the body runs although the operation was cancelled; its finish is delayed by one run. | a cancelled operation finishes without running its body | not executed; medium | Lifecycle.FinishAsWritten, LifecycleFacts.CancelledRepeatOnceRunsAsWritten | Lifecycle.Finish, LifecycleFacts.CancelledStartNeverExecutes |
