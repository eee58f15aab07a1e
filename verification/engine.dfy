/** The boundary between the completion-propagation layer and the dataflow
    engine underneath it.  Engine blocks are opaque and named by a number;
    composite blocks are values built from them; the effects the layer has on
    the engine are recorded by a Runtime object. */
module Engine {
  import opened Basics
  import opened Tasks

  /** A predicate delegate handed to a link, named by a number. */
  datatype Filter = Filter(id: nat)

  /** Block options handed to an ActionBlock: the library defaults or the
      caller's own object. */
  datatype BlockOptions = DefaultBlockOptions | GivenBlockOptions(handle: nat)

  /** Which single-edge wrapper a Chain is: the plain DataflowWrapper (only
      Complete, Fault and Completion), the SourceDataflowWrapper or the
      PropagatorDataflowWrapper; `receivable` records the Receivable... subclass,
      which adds TryReceive and nothing else. */
  datatype ChainKind =
    | VoidChain
    | SourceChain(receivable: bool)
    | PropagatorChain(receivable: bool)

  /** A block handle: an engine block, or one of the composite wrappers.
      Wrappers only hold the handles they were built from, so a handle is a
      value; the shutdown, completion and message routing recurse through it. */
  datatype Block =
    | Primitive(id: nat)
      /** MultipleSourceDataflowWrapper over its source array. */
    | FanIn(sources: seq<Block>)
      /** Single-edge wrapper: original (head), current (frontier), final
          (tail) and the nullable propagate-completion flag. */
    | Chain(kind: ChainKind, original: Block, current: Block, final: Block, propagate: Option<bool>)
      /** TargetDataflowWrapper: original (entry) and final (last target). */
    | TargetChain(original: Block, final: Block)
      /** BroadcastDataflowWrapper: the broadcast block and its nullable target array. */
    | FanOut(broadcast: nat, targets: Option<seq<Block>>)
      /** The engine's DataflowBlock.Encapsulate(target, source): completion is
          the source's, Complete, Fault and offers go to the target, the
          source-side calls to the source. */
    | Encapsulated(target: Block, source: Block)

  /** What a shutdown call carries: Complete(), or Fault(exception). */
  datatype Signal = Complete | Fault(error: Error)

  /** The message-protocol calls a wrapper forwards (header and value are opaque). */
  datatype Request =
    | Offer(header: nat, value: int, source: Option<Block>, consumeToAccept: bool)
    | Consume(header: nat, target: Block)
    | Reserve(header: nat, target: Block)
    | Release(header: nat, target: Block)

  /** A call that reached an engine block. */
  datatype Call = Signalled(block: nat, signal: Signal) | Requested(block: nat, request: Request)

  /** DataflowLinkOptions: a mutable object shared by reference. */
  class LinkOptions {
    var propagateCompletion: bool

    constructor (propagate: bool)
      ensures propagateCompletion == propagate
    {
      propagateCompletion := propagate;
    }
  }

  /** A LinkTo made on an engine block; `propagate` is the flag the options
      object held at the moment of linking. */
  datatype Link = Link(source: nat, target: Block, options: LinkOptions, propagate: bool, filter: Option<Filter>)

  /** A task as the layer builds it: an engine block's Completion, a WhenAll,
      or the outer task of the continuation registered at an index. */
  datatype Task = OfBlock(id: nat) | AllOf(parts: seq<Task>) | Continued(index: nat)

  /** What a registered continuation does once its antecedent is done: signal
      one tail, or signal every target of a broadcast. */
  datatype Action = SignalTail(tail: Block) | SignalTargets(targets: seq<Block>)

  /** A ContinueWith registration; `result` is the task the continuation
      returned, None while it has not run. */
  datatype Continuation = Continuation(antecedent: Task, action: Action, result: Option<Task>)

  /** The engine blocks the layer constructs itself. */
  datatype BlockKind =
    | BatchBlock(batchSize: int)
    | WriteOnceBlock(cloning: nat)
    | JoinBlock(arity: nat)
    | BatchedJoinBlock(arity: nat, batchSize: int)
    | JoinTarget(join: nat, index: nat)
    | ActionBlock(action: nat, options: BlockOptions)

  datatype Allocation = Allocation(id: nat, kind: BlockKind)

  /** Everything the layer does to the engine, in order. */
  class Runtime {
    var calls: seq<Call>
    var links: seq<Link>
    var continuations: seq<Continuation>
    var allocations: seq<Allocation>
    var nextId: nat

    /** A world in which engine blocks numbered from `firstFree` on are still unused. */
    constructor (firstFree: nat)
      ensures calls == [] && links == [] && continuations == [] && allocations == []
      ensures nextId == firstFree
    {
      calls := [];
      links := [];
      continuations := [];
      allocations := [];
      nextId := firstFree;
    }

    /** Constructs a new engine block. */
    method Allocate(kind: BlockKind) returns (id: nat)
      modifies this`nextId, this`allocations
      ensures id == old(nextId) && nextId == id + 1
      ensures allocations == old(allocations) + [Allocation(id, kind)]
    {
      id := nextId;
      nextId := nextId + 1;
      allocations := allocations + [Allocation(id, kind)];
    }
  }

  /** The outcome of a task, given the outcomes of the engine blocks and the
      continuations registered so far.  ContinueWith is used without Unwrap,
      so a continued task has run as soon as its continuation has returned,
      whatever happens afterwards to the task it returned. */
  function Status(t: Task, env: nat -> Outcome, conts: seq<Continuation>): Outcome
    decreases t
  {
    match t
    case OfBlock(id) => env(id)
    case AllOf(parts) => WhenAll(StatusAll(parts, env, conts))
    case Continued(k) => if k < |conts| && conts[k].result.Some? then Ran else Pending
  }

  function StatusAll(ts: seq<Task>, env: nat -> Outcome, conts: seq<Continuation>): (r: seq<Outcome>)
    ensures |r| == |ts|
    ensures forall i :: 0 <= i < |ts| ==> r[i] == Status(ts[i], env, conts)
    decreases ts
  {
    if ts == [] then [] else StatusAll(ts[..|ts| - 1], env, conts) + [Status(ts[|ts| - 1], env, conts)]
  }
}
