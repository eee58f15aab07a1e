/** SourceDataflowBuilder: the record of a chain whose last block is a
    source.  Each chaining call links the final block to a new block and
    returns a new record; the original block and the flag carry over. */
module SourceDataflowBuilder {
  import opened Basics
  import opened Tasks
  import opened Engine
  import opened Composites
  import LinkHelper
  import DataflowBuilder

  datatype Builder = Builder(original: Block, current: Block, final: Block, propagate: Option<bool>)

  /** The one-block constructor: original, current and final are that block, the flag is null. */
  function FromBlock(source: Block): (b: Builder)
    ensures b.original == source && b.current == source && b.final == source && b.propagate.None?
  {
    Builder(source, source, source, None)
  }

  /** The final block is a source, as the field's type demands. */
  predicate Valid(b: Builder) {
    IsSource(b.final)
  }

  /** Create returns the final block itself when it is the original one, and
      a (non-receivable) SourceDataflowWrapper otherwise: Complete and Fault
      reach the original block, links and source-side calls the final block,
      and with the flag true Completion cascades from the current block to
      the final one. */
  function Create(b: Builder): (w: Block)
    ensures b.original == b.final ==> w == b.final
    ensures forall s :: Shutdown(w, s) == Shutdown(b.original, s)
    ensures SourceEnd(w) == SourceEnd(b.final)
    ensures b.original != b.final ==> w.Chain? && w.kind == SourceChain(false)
    ensures b.original == b.final || b.propagate != Some(true) ==>
      forall conts :: Read(w, conts) == Read(b.final, conts)
    ensures b.original != b.final && b.propagate == Some(true) ==>
      forall conts :: Read(w, conts) == Cascaded(b.current, b.final, conts)
  {
    if b.original == b.final then b.final else Chain(SourceChain(false), b.original, b.current, b.final, b.propagate)
  }

  method LinkToTarget(rt: Runtime, b: Builder, target: Option<Block>, options: LinkOptions?, filter: Option<Filter>)
    returns (r: Result<DataflowBuilder.Builder, Error>)
    requires Valid(b)
    modifies rt`links
    ensures target.None? ==> r == Err(ArgumentNull("targetBlock")) && rt.links == old(rt.links)
    ensures target.Some? ==>
      r == Ok(DataflowBuilder.Builder(b.original, b.final, target.value, b.propagate)) &&
      LinkHelper.LinkedOnce(old(rt.links), rt.links, SourceEnd(b.final).value, target.value, options, filter)
  {
    if target.None? {
      return Err(ArgumentNull("targetBlock"));
    }
    LinkHelper.Link(rt, b.final, target.value, options, filter);
    r := Ok(DataflowBuilder.Builder(b.original, b.final, target.value, b.propagate));
  }

  method LinkToPropagator(rt: Runtime, b: Builder, propagator: Option<Block>, options: LinkOptions?, filter: Option<Filter>)
    returns (r: Result<Builder, Error>)
    requires Valid(b)
    requires propagator.Some? ==> IsSource(propagator.value)
    modifies rt`links
    ensures propagator.None? ==> r == Err(ArgumentNull("propagatorBlock")) && rt.links == old(rt.links)
    ensures propagator.Some? ==>
      r == Ok(Builder(b.original, b.final, propagator.value, b.propagate)) && Valid(r.value) &&
      LinkHelper.LinkedOnce(old(rt.links), rt.links, SourceEnd(b.final).value, propagator.value, options, filter)
  {
    if propagator.None? {
      return Err(ArgumentNull("propagatorBlock"));
    }
    LinkHelper.Link(rt, b.final, propagator.value, options, filter);
    r := Ok(Builder(b.original, b.final, propagator.value, b.propagate));
  }

  /** A null `options` stands for the options struct's default, a new default link object. */
  method Batch(rt: Runtime, b: Builder, batchSize: int, options: LinkOptions?) returns (r: Builder)
    requires Valid(b)
    modifies rt`links, rt`allocations, rt`nextId
    ensures rt.nextId == old(rt.nextId) + 1
    ensures rt.allocations == old(rt.allocations) + [Allocation(old(rt.nextId), BatchBlock(batchSize))]
    ensures LinkHelper.LinkedOnce(old(rt.links), rt.links, SourceEnd(b.final).value, Primitive(old(rt.nextId)), options, None)
    ensures r == Builder(b.original, b.final, Primitive(old(rt.nextId)), b.propagate) && Valid(r)
  {
    var batch := rt.Allocate(BatchBlock(batchSize));
    LinkHelper.Link(rt, b.final, Primitive(batch), options, None);
    r := Builder(b.original, b.final, Primitive(batch), b.propagate);
  }

  method WriteOnce(rt: Runtime, b: Builder, cloning: Option<nat>, options: LinkOptions?) returns (r: Result<Builder, Error>)
    requires Valid(b)
    modifies rt`links, rt`allocations, rt`nextId
    ensures cloning.None? ==>
      r == Err(ArgumentNull("cloningFunction")) &&
      rt.links == old(rt.links) && rt.allocations == old(rt.allocations) && rt.nextId == old(rt.nextId)
    ensures cloning.Some? ==>
      rt.nextId == old(rt.nextId) + 1 &&
      rt.allocations == old(rt.allocations) + [Allocation(old(rt.nextId), WriteOnceBlock(cloning.value))] &&
      LinkHelper.LinkedOnce(old(rt.links), rt.links, SourceEnd(b.final).value, Primitive(old(rt.nextId)), options, None) &&
      r == Ok(Builder(b.original, b.final, Primitive(old(rt.nextId)), b.propagate)) && Valid(r.value)
  {
    if cloning.None? {
      return Err(ArgumentNull("cloningFunction"));
    }
    var block := rt.Allocate(WriteOnceBlock(cloning.value));
    LinkHelper.Link(rt, b.final, Primitive(block), options, None);
    r := Ok(Builder(b.original, b.final, Primitive(block), b.propagate));
  }
}
