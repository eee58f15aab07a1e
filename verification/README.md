# FluentDataflow completion propagation, modelled in Dafny

FluentDataflow is a fluent builder layer over .NET TPL Dataflow. A chain such
as `FromSource(s).Batch(10).LinkToTarget(t).Create()` links engine blocks and
returns one composite block that stands for the whole chain. The composite
block has these behaviours:

- `Complete()` and `Fault(e)` go to the head of the chain.
- Offers go to the first target.
- Links, reservations and consumption go to the last source.
- Reading `Completion` can register a continuation. The continuation
  completes or faults the tail once the frontier block has finished. This is
  how the library propagates completion across links that carry none
  themselves.

This project models that layer:

- the six composite wrappers;
- the five builders and the broadcast builder;
- `LinkHelper`;
- the factory, including `Join` and `BatchedJoin`;
- the overload families of the extension methods that add a "declined" edge.

It proves where every call lands and what every continuation does.

Modules:

- `Tasks`: task outcomes and `Task.WhenAll`. The fold is proved against a
  reference definition of its error list.
- `Engine`: handles for engine and composite blocks, the calls recorded on
  engine blocks, continuations, and the `Runtime` class. The class records
  every `Complete`/`Fault`/message call, every `LinkTo`, every `ContinueWith`
  and every block the layer creates, in order.
- `Composites`: the dispatch of each composite as specification functions
  (`Shutdown`, `Read`, `Route`), with the methods that act on a `Runtime`
  proved against them (`Send`, `ReadCompletion`, `Settle`, `Forward`,
  `LinkTo`).
- `FanIn`, `FanOut`, `SingleEdge`, `TargetWrapper`: properties of the
  multiple-source, broadcast, single-edge and target wrappers.
- `LinkHelper`, `DataflowBuilder`, `TargetDataflowBuilder`,
  `SourceDataflowBuilder`, `PropagatorDataflowBuilder`,
  `MultipleSourceDataflowBuilder`, `BroadcastDataflowBuilder`,
  `DataflowFactory`, `DataflowBuilderExtensions`: the builders.
- `Scenarios`: whole chains run on a fresh `Runtime`, following the unit
  tests.

Engine blocks are opaque. Their outcomes are a parameter
`env: nat -> Outcome`, and a continuation runs only when `Settle` is called
for it. `Settle` requires that the continuation's antecedent has finished.

Behaviour of the code that is easy to misread:

- **Completion returns early.** A propagating wrapper's `Completion` is
  `ContinueWith(...)` without `Unwrap`. The task it returns has therefore
  run as soon as the continuation has run, and it carries the tail's
  completion instead of waiting for it (FluentDataflow/DataflowWrapper.cs:28-36,
  `SingleEdge.SettledCompletionCarriesTail`).
- **All errors are collected.** A faulted `Task.WhenAll` carries the
  exceptions of every faulted task in order, not only the first
  (FluentDataflow/MultipleSourceDataflowWrapper.cs:17,
  FluentDataflow/BroadcastDataflowWrapper.cs:42).
- **No validation in LinkHelper.** `LinkHelper.Link` checks nothing; the
  builders do the null checks (FluentDataflow/LinkHelper.cs:8-17).
- **The broadcast builder keeps only the newest target.**
  `BroadcastDataflowBuilder.LinkTo` returns a new builder holding only the
  target just linked (FluentDataflow/BroadcastDataflowBuilder.cs:34). A built broadcast composite therefore cascades
  completion to that one target (`Scenarios.BroadcastKeepsNewestTarget`).

## Model

| member | source | states |
|---|---|---|
| Tasks.WhenAllPendingIff | FluentDataflow/MultipleSourceDataflowWrapper.cs:17 | WhenAll is pending exactly when some task is pending |
| Tasks.WhenAllFaultedIff | FluentDataflow/MultipleSourceDataflowWrapper.cs:17 | WhenAll faults exactly when all tasks are done and one faulted; once it is done its exceptions are every task's exceptions in task order |
| Tasks.WhenAllCanceledIff | FluentDataflow/MultipleSourceDataflowWrapper.cs:17 | WhenAll is canceled exactly when all are done, none faulted and one was canceled |
| Tasks.WhenAllRanIff | FluentDataflow/MultipleSourceDataflowWrapper.cs:17 | WhenAll ran to completion exactly when every task did (also for no tasks) |
| Tasks.AllErrorsKeepsEvery | FluentDataflow/MultipleSourceDataflowWrapper.cs:17 | no exception of a faulted task is lost from the aggregate |
| Engine.StatusAll | FluentDataflow/BroadcastDataflowWrapper.cs:42 | the status of a list of tasks is each task's status, position by position |
| Engine.Runtime.Allocate | FluentDataflow/SourceDataflowBuilder.cs:59 | a new engine block gets the next free id and is recorded with its kind |
| Engine.LinkOptions.constructor | FluentDataflow/DataflowDefaultOptions.cs:18 | link options carry the given propagation flag |
| Composites.Read | FluentDataflow/DataflowWrapper.cs:24-40 | reading Completion only appends continuations and never alters registered ones |
| Composites.ReadAll | FluentDataflow/MultipleSourceDataflowWrapper.cs:17 | reading the sources' completions yields one task per source and only appends continuations |
| Composites.Returned | FluentDataflow/BroadcastDataflowWrapper.cs:42 | the task a continuation returns is read without altering registered continuations |
| Composites.ShutdownReachesHeads | FluentDataflow/MultipleSourceDataflowWrapper.cs:19-33 | through any nesting of composites, Complete/Fault reaches exactly the head engine blocks, each with the same signal |
| Composites.ShutdownAllReachesHeads | FluentDataflow/MultipleSourceDataflowWrapper.cs:19-33 | the same for a list of handles: exactly the heads of all of them |
| Composites.ShutdownAllSingle | FluentDataflow/MultipleSourceDataflowWrapper.cs:21-24 | shutting down a one-element array is shutting down its element |
| Composites.ShutdownAllPrimitives | FluentDataflow/MultipleSourceDataflowWrapper.cs:21-24 | over engine blocks, one call per block, in array order |
| Composites.ReadAllPrimitives | FluentDataflow/MultipleSourceDataflowWrapper.cs:17 | reading engine blocks' completions registers nothing and yields their own tasks |
| Composites.StatusOfPrimitives | FluentDataflow/MultipleSourceDataflowWrapper.cs:17 | waiting for engine blocks is WhenAll of their outcomes |
| Composites.Send | FluentDataflow/DataflowWrapper.cs:43-51 | calling Complete/Fault on a handle records exactly the calls of its dispatch, recursing through nested composites |
| Composites.SendAll | FluentDataflow/MultipleSourceDataflowWrapper.cs:19-33 | the loop over the sources records each source's dispatch in order |
| Composites.ReadCompletion | FluentDataflow/DataflowWrapper.cs:24-40 | reading Completion registers exactly the continuations of its specification and returns its task |
| Composites.ReadCompletions | FluentDataflow/MultipleSourceDataflowWrapper.cs:17 | the same for the sources' completions |
| Composites.Settle | FluentDataflow/DataflowWrapper.cs:28-36 | running a continuation whose antecedent finished records its Fault/Complete calls and stores its returned task, changing no other continuation |
| Composites.Forward | FluentDataflow/SourceDataflowWrapper.cs:52-75 | a message call reaches exactly the engine block the composite routes it to, and its reply is that block's |
| Composites.LinkTo | FluentDataflow/SourceDataflowWrapper.cs:62-65 | LinkTo on a composite links its last source block, with the options' flag |
| FanIn.ShutdownReachesEverySourceInOrder | FluentDataflow/MultipleSourceDataflowWrapper.cs:19-33 | Complete/Fault reach every source once, in array order, with the same signal |
| FanIn.CompletionIsWhenAllOfSources | FluentDataflow/MultipleSourceDataflowWrapper.cs:17 | Completion registers nothing and is WhenAll of the sources |
| FanIn.CompletionPendingIff | FluentDataflow/MultipleSourceDataflowWrapper.cs:17 | Completion is pending exactly while some source is |
| FanIn.CompletionFaultedIff | FluentDataflow/MultipleSourceDataflowWrapper.cs:17 | Completion faults exactly when all sources are done and one faulted, carrying all their exceptions |
| FanIn.CompletionKeepsEveryFault | FluentDataflow/MultipleSourceDataflowWrapper.cs:17 | every exception of every faulted source appears in Completion's exception |
| FanIn.CompletionCanceledIff | FluentDataflow/MultipleSourceDataflowWrapper.cs:17 | Completion is canceled exactly when all are done, none faulted and one was canceled |
| FanIn.CompletionRanIff | FluentDataflow/MultipleSourceDataflowWrapper.cs:17 | Completion ran exactly when every source ran |
| FanIn.NoMessageRoute | FluentDataflow/MultipleSourceDataflowWrapper.cs:8 | the multiple-source wrapper is neither a source nor a target and routes no message |
| FanOut.NoTargetsIsBroadcastCompletion | FluentDataflow/BroadcastDataflowWrapper.cs:23 | with a null or empty target array, Completion is the broadcast block's and nothing is registered |
| FanOut.CompletionRegistersOneCascade | FluentDataflow/BroadcastDataflowWrapper.cs:25-43 | with targets, each read registers one continuation on the broadcast block, pending until it runs |
| FanOut.CascadeFaultsEveryTarget | FluentDataflow/BroadcastDataflowWrapper.cs:27-33 | when the broadcast block faulted, every target is faulted with its exception, in order |
| FanOut.CascadeCompletesEveryTarget | FluentDataflow/BroadcastDataflowWrapper.cs:34-40 | when it ran or was canceled, every target is completed, in order |
| FanOut.SettledCompletionCarriesTargets | FluentDataflow/BroadcastDataflowWrapper.cs:42 | once the continuation ran, Completion has run and carries WhenAll of the targets' completions |
| FanOut.ShutdownGoesToBroadcastOnly | FluentDataflow/BroadcastDataflowWrapper.cs:47-55 | Complete/Fault reach only the broadcast block, never the targets |
| FanOut.OfferGoesToBroadcast | FluentDataflow/BroadcastDataflowWrapper.cs:57-60 | offers go to the broadcast block; it accepts no source-side call |
| SingleEdge.ShutdownGoesToOriginal | FluentDataflow/DataflowWrapper.cs:43-51 | Complete/Fault reach the original block only, whatever the flag |
| SingleEdge.PropagatedCompletionRegistersCascade | FluentDataflow/DataflowWrapper.cs:26-36 | with the flag true, a read registers one continuation on the current block's completion, pending until it runs |
| SingleEdge.EveryReadRegistersAgain | FluentDataflow/DataflowWrapper.cs:24-36 | each read registers a further continuation, so two reads signal the tail twice |
| SingleEdge.CascadeOnFault | FluentDataflow/DataflowWrapper.cs:30-31 | a faulted frontier faults the tail with its exception |
| SingleEdge.CascadeOnSuccessOrCancel | FluentDataflow/DataflowWrapper.cs:32-33 | a frontier that ran or was canceled completes the tail |
| SingleEdge.SettledCompletionCarriesTail | FluentDataflow/DataflowWrapper.cs:35 | after the continuation ran, the returned task has run and carries the tail's completion, whose status is the tail's |
| SingleEdge.UnpropagatedCompletionIsFinal | FluentDataflow/DataflowWrapper.cs:39 | with the flag false or absent, Completion is the tail's own |
| SingleEdge.MessageRouting | FluentDataflow/PropagatorDataflowWrapper.cs:51-79 | offers go to the original block of a propagator wrapper; source-side calls go to the final block; the plain wrapper routes nothing |
| TargetWrapper.CompletionIsFinal | FluentDataflow/TargetDataflowWrapper.cs:18 | Completion is the final target's |
| TargetWrapper.ShutdownGoesToOriginal | FluentDataflow/TargetDataflowWrapper.cs:20-28 | Complete/Fault reach the original target |
| TargetWrapper.OfferGoesToOriginal | FluentDataflow/TargetDataflowWrapper.cs:30-33 | offers go to the original target |
| LinkHelper.DefaultLinkOptions | FluentDataflow/DataflowDefaultOptions.cs:18 | the default link options are a new object with propagation on |
| LinkHelper.OrDefault | FluentDataflow/LinkHelper.cs:8-17 | null options become a new default object; given options are used as they are |
| LinkHelper.Link | FluentDataflow/LinkHelper.cs:8-17 | exactly one link from the source's last block to the target, with the given or default options and the filter |
| DataflowBuilder.FromSource | FluentDataflow/DataflowBuilder.cs:18-22 | a one-step builder starts and continues at the source |
| DataflowBuilder.Create | FluentDataflow/DataflowBuilder.cs:32-35 | the built block shuts down the original block, routes no message, and its Completion is the target's or cascades from the current block, as the flag says |
| TargetDataflowBuilder.FromBlock | FluentDataflow/TargetDataflowBuilder.cs:13-16 | a fresh target builder starts and ends at the block |
| TargetDataflowBuilder.Create | FluentDataflow/TargetDataflowBuilder.cs:24-29 | returns the block itself when nothing was chained; the result shuts down and takes offers at the original block, and its Completion is the final block's |
| SourceDataflowBuilder.FromBlock | FluentDataflow/SourceDataflowBuilder.cs:18-21 | a fresh source builder has no flag and starts, continues and ends at the block |
| SourceDataflowBuilder.Create | FluentDataflow/SourceDataflowBuilder.cs:35-39 | returns the final block when nothing was chained, and otherwise the non-receivable source wrapper; the result shuts down the original, links from the final block, and its Completion is the final block's or cascades to it |
| SourceDataflowBuilder.LinkToTarget | FluentDataflow/SourceDataflowBuilder.cs:41-47 | null target refused with "targetBlock"; otherwise one link from the final block and a builder whose current block is the old final block |
| SourceDataflowBuilder.LinkToPropagator | FluentDataflow/SourceDataflowBuilder.cs:49-55 | null propagator refused with "propagatorBlock"; otherwise one link and the propagator becomes the final block |
| SourceDataflowBuilder.Batch | FluentDataflow/SourceDataflowBuilder.cs:57-62 | creates one batch block, links the final block to it, and it becomes the final block |
| SourceDataflowBuilder.WriteOnce | FluentDataflow/SourceDataflowBuilder.cs:64-71 | null cloning function refused before anything is created; otherwise as Batch with a write-once block |
| PropagatorDataflowBuilder.FromBlock | FluentDataflow/PropagatorDataflowBuilder.cs:18-21 | a fresh propagator builder has no flag and starts, continues and ends at the block |
| PropagatorDataflowBuilder.Create | FluentDataflow/PropagatorDataflowBuilder.cs:35-46 | returns the block itself, the encapsulation of a one-link chain (flag ignored), or a wrapper that is receivable exactly when the final block is; offers and Complete/Fault reach the original block and source-side calls the final block |
| PropagatorDataflowBuilder.LinkToTarget | FluentDataflow/PropagatorDataflowBuilder.cs:48-54 | null target refused; otherwise one link and a target builder from the original block to the target |
| PropagatorDataflowBuilder.LinkToPropagator | FluentDataflow/PropagatorDataflowBuilder.cs:56-62 | null propagator refused; otherwise one link and the propagator becomes the final block |
| PropagatorDataflowBuilder.Batch | FluentDataflow/PropagatorDataflowBuilder.cs:64-69 | one new batch block, linked from the final block, becomes the final block |
| PropagatorDataflowBuilder.WriteOnce | FluentDataflow/PropagatorDataflowBuilder.cs:71-78 | null cloning function refused before anything is created; otherwise as Batch with a write-once block |
| MultipleSourceDataflowBuilder.Link | FluentDataflow/MultipleSourceDataflowBuilder.cs:53-72 | switches the shared options' propagation off, links every source in order without propagation, and returns the flag the options held before (true for null options) |
| MultipleSourceDataflowBuilder.LinkToTarget | FluentDataflow/MultipleSourceDataflowBuilder.cs:34-41 | null target refused with options untouched; otherwise every source linked without propagation, the caller's options object left with propagation off, and a builder over the fan-in whose flag is the caller's earlier propagation setting |
| MultipleSourceDataflowBuilder.LinkToPropagator | FluentDataflow/MultipleSourceDataflowBuilder.cs:25-32 | the same, options object included, continuing as a source builder whose final block is the propagator |
| MultipleSourceDataflowBuilder.Batch | FluentDataflow/MultipleSourceDataflowBuilder.cs:17-23 | one new batch block, every source linked to it, the caller's options object left with propagation off, and a source builder over the fan-in carrying the caller's earlier flag |
| MultipleSourceDataflowBuilder.WriteOnce | FluentDataflow/MultipleSourceDataflowBuilder.cs:43-51 | null cloning function refused before anything is created and the options untouched; otherwise as Batch with a write-once block |
| MultipleSourceDataflowBuilder.FanInCascadeWaitsForAllSources | FluentDataflow/MultipleSourceDataflowBuilder.cs:53-72 | the built chain waits for all sources: its continuation runs only once every source is done, then faults the tail with all sources' exceptions or completes it |
| BroadcastDataflowBuilder.Builder.constructor | FluentDataflow/BroadcastDataflowBuilder.cs:15-22 | a new builder holds the given target, or none when it is null |
| BroadcastDataflowBuilder.Builder.Create | FluentDataflow/BroadcastDataflowBuilder.cs:24-27 | the built block shuts down and takes offers at the broadcast block, is no source, and cascades completion to the held targets when there are any |
| BroadcastDataflowBuilder.Builder.LinkTo | FluentDataflow/BroadcastDataflowBuilder.cs:29-35 | null target refused; otherwise one link from the broadcast block and a new builder holding only that target |
| DataflowFactory.FromMultipleSources | FluentDataflow/DataflowFactory.cs:18-23 | refused with "sourceBlocks" exactly when the array is null or empty; otherwise a builder over those sources |
| DataflowFactory.FromPropagator | FluentDataflow/DataflowFactory.cs:32-37 | null refused with "propagatorBlock"; otherwise a fresh propagator builder |
| DataflowFactory.FromSource | FluentDataflow/DataflowFactory.cs:45-50 | null refused with "sourceBlock"; otherwise a fresh source builder |
| DataflowFactory.FromTarget | FluentDataflow/DataflowFactory.cs:58-63 | null refused with "targetBlock"; otherwise a fresh target builder |
| DataflowFactory.FromBroadcast | FluentDataflow/DataflowFactory.cs:177-182 | null refused with "broadcastBlock"; otherwise a new builder with no targets |
| DataflowFactory.FirstNull | FluentDataflow/DataflowFactory.cs:102-104 | the null checks refuse the first null source |
| DataflowFactory.Join | FluentDataflow/DataflowFactory.cs:74-169 | Join and BatchedJoin: the first null source is refused by its parameter name with nothing created; otherwise one join block and one join target per source, each source linked to its join target, and a source builder over a wrapper that shuts down all sources and reads the join block |
| DataflowFactory.JoinedChainShape | FluentDataflow/DataflowFactory.cs:83-86 | the joined chain shuts down every source, its Completion is the join block's and it links from the join block |
| DataflowBuilderExtensions.NextEndpoint | FluentDataflow/DataflowBuilderExtenions.cs:204-226 | the next block is the given one, or a new ActionBlock with the given or default block options |
| DataflowBuilderExtensions.DeclinedEndpoint | FluentDataflow/DataflowBuilderExtenions.cs:263-289 | the declined edge's block is the given one, a new ActionBlock for a declined action, or none |
| DataflowBuilderExtensions.LinkDeclined | FluentDataflow/DataflowBuilderExtenions.cs:27-48 | the declined edge is linked only when there is a declined block, with the declined link options or the defaults and no filter |
| DataflowBuilderExtensions.PropagatorLinkToTarget | FluentDataflow/DataflowBuilderExtenions.cs:27-289 | null builder gives null and does nothing; a missing block, action or required filter is refused with its name and nothing is created; otherwise the next link comes first, then the declined edge, and the result is the builder's own step |
| DataflowBuilderExtensions.SourceLinkToTarget | FluentDataflow/DataflowBuilderExtenions.cs:1525-1546 | the same scheme for source builders |
| DataflowBuilderExtensions.BroadcastLinkTo | FluentDataflow/DataflowBuilderExtenions.cs:4249-4270 | the same scheme for broadcast builders, the declined edge leaving the broadcast block |
| DataflowBuilderExtensions.MultipleSourceLinkToTarget | FluentDataflow/DataflowBuilderExtenions.cs:2976-2997 | the same scheme for multiple sources: every source linked to the next block, then every source linked to the declined block without propagation; both options objects untouched when nothing is linked, and each left with propagation off once its edges are made |
| DataflowBuilderExtensions.Numbered | FluentDataflow/DataflowBuilderExtenions.cs:216 | the ActionBlocks an overload creates are numbered in creation order |
| DataflowBuilderExtensions.ShorthandDropsBlockOptions | FluentDataflow/DataflowBuilderExtenions.cs:303-312 | as written, the shorthand builds its ActionBlock with the default options even when the caller passed its own |
| DataflowBuilderExtensions.ShorthandKeepsBlockOptions | FluentDataflow/DataflowBuilderExtenions.cs:239-247 | corrected, the ActionBlock gets the caller's options, and the argument checks, declined route, filter and link options stay as written |
| Scenarios.WrapperShutdown | FluentDataflow.Tests.UnitTests/DataflowWrapperTests.cs:21-36 | Complete and Fault on a DataflowWrapper reach only the original block |
| Scenarios.WrapperCascade | FluentDataflow.Tests.UnitTests/DataflowWrapperTests.cs:38-60 | a finished frontier completes or faults the target; the returned task has run and carries the target's completion |
| Scenarios.TwoReadsSignalTwice | FluentDataflow.Tests.UnitTests/DataflowWrapperTests.cs:45-59 | reading Completion twice signals the target twice |
| Scenarios.BatchedSources | FluentDataflow.Tests.UnitTests/MultipleSourceDataflowBuilderTests.cs:40-48 | two batched sources: Complete reaches both in order, both links carry no propagation, and the batch block gets both sources' exceptions or Complete |
| Scenarios.BothSettled | FluentDataflow/MultipleSourceDataflowWrapper.cs:17 | waiting for two finished tasks has finished, faulted with both tasks' exceptions in order when either faulted |
| Scenarios.BroadcastKeepsNewestTarget | FluentDataflow/BroadcastDataflowBuilder.cs:29-35 | after linking two targets, both are linked but completion cascades only to the second |

## Left out

- The TPL Dataflow engine itself is not part of this model: buffering, scheduling, message
  delivery and the engine's native completion propagation along links. Engine blocks are
  ids, their outcomes are a parameter, and links are only recorded.
- Asynchrony and concurrency: a continuation runs when `Settle` is called for it, one
  at a time.
- `DataflowBlock.Encapsulate` is modelled by its routing and shutdown only (offers and
  Complete/Fault to the target, source-side calls and Completion to the source).
- The receivable wrappers (ReceivableSourceDataflowWrapper.cs,
  ReceivablePropagatorDataflowWrapper.cs) are a flag on the chain. `TryReceive` and
  `TryReceiveAll` are not modelled.
- Message payloads, message headers and generic element types are not modelled. The
  reply of an engine block is a parameter of `Forward`.
- The options classes and their setters (DataflowOptionsExtensions.cs,
  DataflowBatchOptions.cs, DataflowJoinOptions.cs, DataflowWriteOnceOptions.cs) are
  reduced to a link-options object with a propagation flag and an opaque block-options
  handle.
- DataflowFactoryExtensions.cs, the interfaces (IDataflowBuilder.cs,
  IDataflowFactory.cs) and the console demo are not part of this model.
- Argument failures raised by engine constructors (for example a non-positive batch
  size) are not modelled; the batch size is recorded as given.
- DataflowFactory.Join: the join block's targets (`Target1` to `Target3`) are modelled
  as extra allocated handles numbered after the join block. In the source they are
  properties of the one join block, and no block is constructed for them.
- Block ids passed in by callers are not checked against the blocks the layer created.
- Reference equality in the builders' `Create` is structural equality of handles. Two
  separately built but identical wrappers compare equal here.
- The extension overloads come in families per builder kind and per next step (target
  block, action, propagator, transform, transform-many). Each family follows one
  scheme, modelled once per builder kind by a request value. The `LinkToPropagator`,
  transform and transform-many overloads are not modelled separately.

## Findings

| source | as written | input that shows it | evidently intended | confidence | as-written member | corrected member |
|---|---|---|---|---|---|---|
| FluentDataflow/DataflowBuilderExtenions.cs:303-312 | the overload taking an action, block options, a filter and a declined action forwards `DataflowDefaultOptions.DefaultBlockOptions` instead of its `blockOptions` parameter | any non-null `blockOptions`, e.g. a bounded capacity: the ActionBlock is built with the default options | forward `blockOptions`, as the sibling overload without a declined action does (lines 239-247) | not executed | DataflowBuilderExtensions.ShorthandDropsBlockOptions | DataflowBuilderExtensions.ShorthandKeepsBlockOptions |
