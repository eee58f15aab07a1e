/** MultipleSourceDataflowBuilder: several sources feeding one next block.
    The engine links are made with completion propagation off; the fan-in
    wrapper and the returned flag carry completion instead. */
module MultipleSourceDataflowBuilder {
  import opened Basics
  import opened Tasks
  import opened Engine
  import opened Composites
  import LinkHelper
  import SourceDataflowBuilder
  import DataflowBuilder

  datatype Builder = Builder(sources: seq<Block>)

  predicate Valid(b: Builder) {
    forall i :: 0 <= i < |b.sources| ==> IsSource(b.sources[i])
  }

  /** `after` is `before` with one link per source, in source order, each from
      that source's final engine block to `target`, with propagation off. */
  predicate LinkedEach(before: seq<Link>, after: seq<Link>, sources: seq<Block>, target: Block, filter: Option<Filter>) {
    |after| == |before| + |sources| && after[..|before|] == before &&
    forall i :: 0 <= i < |sources| ==>
      SourceEnd(sources[i]) == Some(after[|before| + i].source) &&
      after[|before| + i].target == target && after[|before| + i].filter == filter &&
      !after[|before| + i].propagate
  }

  /** Links every source to the target through one options object (the
      caller's, or a new default one), after switching that object's
      propagation off; returns the flag it held before. */
  method Link(rt: Runtime, b: Builder, target: Block, options: LinkOptions?, filter: Option<Filter>) returns (propagate: bool)
    requires Valid(b)
    modifies rt`links, options
    ensures propagate == (options == null || old(options.propagateCompletion))
    ensures options != null ==> !options.propagateCompletion
    ensures LinkedEach(old(rt.links), rt.links, b.sources, target, filter)
    ensures options != null ==> forall j :: |old(rt.links)| <= j < |rt.links| ==> rt.links[j].options == options
  {
    var o := LinkHelper.OrDefault(options);
    propagate := o.propagateCompletion;
    o.propagateCompletion := false;
    for i := 0 to |b.sources|
      invariant LinkedEach(old(rt.links), rt.links, b.sources[..i], target, filter)
      invariant forall j :: |old(rt.links)| <= j < |rt.links| ==> rt.links[j].options == o
      invariant !o.propagateCompletion
    {
      LinkTo(rt, b.sources[i], target, o, filter);
    }
    assert b.sources[..|b.sources|] == b.sources;
  }

  method LinkToTarget(rt: Runtime, b: Builder, target: Option<Block>, options: LinkOptions?, filter: Option<Filter>)
    returns (r: Result<DataflowBuilder.Builder, Error>)
    requires Valid(b)
    modifies rt`links, options
    ensures target.None? ==> r == Err(ArgumentNull("targetBlock")) && rt.links == old(rt.links)
    ensures target.None? && options != null ==> options.propagateCompletion == old(options.propagateCompletion)
    ensures target.Some? ==>
      r == Ok(DataflowBuilder.Builder(FanIn(b.sources), FanIn(b.sources), target.value,
                                      Some(options == null || old(options.propagateCompletion)))) &&
      LinkedEach(old(rt.links), rt.links, b.sources, target.value, filter)
    ensures target.Some? && options != null ==> !options.propagateCompletion
  {
    if target.None? {
      return Err(ArgumentNull("targetBlock"));
    }
    var propagate := Link(rt, b, target.value, options, filter);
    var w := FanIn(b.sources);
    r := Ok(DataflowBuilder.Builder(w, w, target.value, Some(propagate)));
  }

  method LinkToPropagator(rt: Runtime, b: Builder, propagator: Option<Block>, options: LinkOptions?, filter: Option<Filter>)
    returns (r: Result<SourceDataflowBuilder.Builder, Error>)
    requires Valid(b)
    requires propagator.Some? ==> IsSource(propagator.value)
    modifies rt`links, options
    ensures propagator.None? ==> r == Err(ArgumentNull("propagatorBlock")) && rt.links == old(rt.links)
    ensures propagator.None? && options != null ==> options.propagateCompletion == old(options.propagateCompletion)
    ensures propagator.Some? ==>
      r == Ok(SourceDataflowBuilder.Builder(FanIn(b.sources), FanIn(b.sources), propagator.value,
                                            Some(options == null || old(options.propagateCompletion)))) &&
      SourceDataflowBuilder.Valid(r.value) &&
      LinkedEach(old(rt.links), rt.links, b.sources, propagator.value, filter)
    ensures propagator.Some? && options != null ==> !options.propagateCompletion
  {
    if propagator.None? {
      return Err(ArgumentNull("propagatorBlock"));
    }
    var propagate := Link(rt, b, propagator.value, options, filter);
    var w := FanIn(b.sources);
    r := Ok(SourceDataflowBuilder.Builder(w, w, propagator.value, Some(propagate)));
  }

  /** A null `options` stands for the options struct's default, a new default link object. */
  method Batch(rt: Runtime, b: Builder, batchSize: int, options: LinkOptions?) returns (r: SourceDataflowBuilder.Builder)
    requires Valid(b)
    modifies rt`links, rt`allocations, rt`nextId, options
    ensures rt.nextId == old(rt.nextId) + 1
    ensures rt.allocations == old(rt.allocations) + [Allocation(old(rt.nextId), BatchBlock(batchSize))]
    ensures LinkedEach(old(rt.links), rt.links, b.sources, Primitive(old(rt.nextId)), None)
    ensures r == SourceDataflowBuilder.Builder(FanIn(b.sources), FanIn(b.sources), Primitive(old(rt.nextId)),
                                               Some(options == null || old(options.propagateCompletion)))
    ensures SourceDataflowBuilder.Valid(r)
    ensures options != null ==> !options.propagateCompletion
  {
    var batch := rt.Allocate(BatchBlock(batchSize));
    var propagate := Link(rt, b, Primitive(batch), options, None);
    var w := FanIn(b.sources);
    r := SourceDataflowBuilder.Builder(w, w, Primitive(batch), Some(propagate));
  }

  method WriteOnce(rt: Runtime, b: Builder, cloning: Option<nat>, options: LinkOptions?)
    returns (r: Result<SourceDataflowBuilder.Builder, Error>)
    requires Valid(b)
    modifies rt`links, rt`allocations, rt`nextId, options
    ensures cloning.None? ==>
      r == Err(ArgumentNull("cloningFunction")) &&
      rt.links == old(rt.links) && rt.allocations == old(rt.allocations) && rt.nextId == old(rt.nextId)
    ensures cloning.None? && options != null ==> options.propagateCompletion == old(options.propagateCompletion)
    ensures cloning.Some? ==>
      rt.nextId == old(rt.nextId) + 1 &&
      rt.allocations == old(rt.allocations) + [Allocation(old(rt.nextId), WriteOnceBlock(cloning.value))] &&
      LinkedEach(old(rt.links), rt.links, b.sources, Primitive(old(rt.nextId)), None) &&
      r == Ok(SourceDataflowBuilder.Builder(FanIn(b.sources), FanIn(b.sources), Primitive(old(rt.nextId)),
                                            Some(options == null || old(options.propagateCompletion))))
    ensures cloning.Some? && options != null ==> !options.propagateCompletion
  {
    if cloning.None? {
      return Err(ArgumentNull("cloningFunction"));
    }
    var block := rt.Allocate(WriteOnceBlock(cloning.value));
    var propagate := Link(rt, b, Primitive(block), options, None);
    var w := FanIn(b.sources);
    r := Ok(SourceDataflowBuilder.Builder(w, w, Primitive(block), Some(propagate)));
  }

  /** The composite built after a multiple-source step with the flag true: it
      registers one continuation on WhenAll of the sources' completions, so
      the next block is signalled only once every source is done, and is
      faulted with every source's exception when any source faulted. */
  lemma FanInCascadeWaitsForAllSources(ids: seq<nat>, tail: Block, env: nat -> Outcome, conts: seq<Continuation>)
    requires tail != FanIn(Primitives(ids))
    ensures var w := SourceDataflowBuilder.Create(
              SourceDataflowBuilder.Builder(FanIn(Primitives(ids)), FanIn(Primitives(ids)), tail, Some(true)));
      Read(w, conts) == (Continued(|conts|), conts + [Continuation(AllOf(Completions(ids)), SignalTail(tail), None)])
    ensures IsTerminal(Status(AllOf(Completions(ids)), env, conts)) <==>
      forall i :: 0 <= i < |ids| ==> IsTerminal(env(ids[i]))
    ensures var c := Continuation(AllOf(Completions(ids)), SignalTail(tail), None);
      (forall i :: 0 <= i < |ids| ==> IsTerminal(env(ids[i]))) ==>
        Signals(c, env, conts) ==
          if exists i :: 0 <= i < |ids| && env(ids[i]).Faulted?
          then Shutdown(tail, Fault(Aggregate(AllErrors(Outcomes(ids, env)))))
          else Shutdown(tail, Complete)
  {
    ReadAllPrimitives(ids, conts);
    StatusOfPrimitives(ids, env, conts);
    WhenAllPendingIff(Outcomes(ids, env));
    WhenAllFaultedIff(Outcomes(ids, env));
    ShutdownAllSingle(tail, Reaction(WhenAll(Outcomes(ids, env))));
  }
}
