/** PropagatorDataflowBuilder: the record of a chain that starts at a target
    block and whose last block is a source. */
module PropagatorDataflowBuilder {
  import opened Basics
  import opened Tasks
  import opened Engine
  import opened Composites
  import LinkHelper
  import TargetDataflowBuilder

  datatype Builder = Builder(original: Block, current: Block, final: Block, propagate: Option<bool>)

  /** The one-block constructor over a propagator block. */
  function FromBlock(propagator: Block): (b: Builder)
    ensures b.original == propagator && b.current == propagator && b.final == propagator && b.propagate.None?
  {
    Builder(propagator, propagator, propagator, None)
  }

  /** The original block accepts offers and the final block is a source. */
  predicate Valid(b: Builder) {
    IsTarget(b.original) && IsSource(b.final)
  }

  /** Whether a handle implements IReceivableSourceBlock; for engine blocks
      the engine says so. */
  function Receivable(h: Block, engineReceivable: nat -> bool): bool {
    match h
    case Primitive(id) => engineReceivable(id)
    case Chain(kind, _, _, _, _) => !kind.VoidChain? && kind.receivable
    case Encapsulated(_, _) => true
    case _ => false
  }

  /** Create returns the block itself when original and final coincide; the
      engine's encapsulation of original and final when the chain has one
      link (original is current), which ignores the flag; otherwise a
      propagator wrapper, the receivable variant exactly when the final block
      is receivable.  In every case offers, Complete and Fault reach the
      original block and source-side calls the final block. */
  function Create(b: Builder, engineReceivable: nat -> bool): (w: Block)
    ensures b.original == b.final ==> w == b.original
    ensures forall s :: Shutdown(w, s) == Shutdown(b.original, s)
    ensures OfferEnd(w) == OfferEnd(b.original)
    ensures SourceEnd(w) == SourceEnd(b.final)
    ensures b.original != b.final && (b.original == b.current || b.propagate != Some(true)) ==>
      forall conts :: Read(w, conts) == Read(b.final, conts)
    ensures b.original != b.final && b.original != b.current ==>
      w.Chain? && w.kind == PropagatorChain(Receivable(b.final, engineReceivable))
    ensures b.original != b.final && b.original != b.current && b.propagate == Some(true) ==>
      forall conts :: Read(w, conts) == Cascaded(b.current, b.final, conts)
  {
    if b.original == b.final then b.original
    else if b.original == b.current then Encapsulated(b.original, b.final)
    else Chain(PropagatorChain(Receivable(b.final, engineReceivable)), b.original, b.current, b.final, b.propagate)
  }

  /** Linking to a plain target ends the chain: the record keeps only the
      original block and the new target. */
  method LinkToTarget(rt: Runtime, b: Builder, target: Option<Block>, options: LinkOptions?, filter: Option<Filter>)
    returns (r: Result<TargetDataflowBuilder.Builder, Error>)
    requires Valid(b)
    modifies rt`links
    ensures target.None? ==> r == Err(ArgumentNull("targetBlock")) && rt.links == old(rt.links)
    ensures target.Some? ==>
      r == Ok(TargetDataflowBuilder.Builder(b.original, target.value)) &&
      LinkHelper.LinkedOnce(old(rt.links), rt.links, SourceEnd(b.final).value, target.value, options, filter)
  {
    if target.None? {
      return Err(ArgumentNull("targetBlock"));
    }
    LinkHelper.Link(rt, b.final, target.value, options, filter);
    r := Ok(TargetDataflowBuilder.Builder(b.original, target.value));
  }

  method LinkToPropagator(rt: Runtime, b: Builder, propagator: Option<Block>, options: LinkOptions?, filter: Option<Filter>)
    returns (r: Result<Builder, Error>)
    requires Valid(b)
    requires propagator.Some? ==> IsSource(propagator.value)
    modifies rt`links
    ensures propagator.None? ==> r == Err(ArgumentNull("propagatorBlock")) && rt.links == old(rt.links)
    ensures propagator.Some? ==>
      r == Ok(Builder(b.original, b.final, propagator.value, b.propagate)) && Valid(r.value) &&
      LinkHelper.LinkedOnce(old(rt.links), rt.links, SourceEnd(b.final).value, propagator.value, options, filter)
  {
    if propagator.None? {
      return Err(ArgumentNull("propagatorBlock"));
    }
    LinkHelper.Link(rt, b.final, propagator.value, options, filter);
    r := Ok(Builder(b.original, b.final, propagator.value, b.propagate));
  }

  /** A null `options` stands for the options struct's default, a new default link object. */
  method Batch(rt: Runtime, b: Builder, batchSize: int, options: LinkOptions?) returns (r: Builder)
    requires Valid(b)
    modifies rt`links, rt`allocations, rt`nextId
    ensures rt.nextId == old(rt.nextId) + 1
    ensures rt.allocations == old(rt.allocations) + [Allocation(old(rt.nextId), BatchBlock(batchSize))]
    ensures LinkHelper.LinkedOnce(old(rt.links), rt.links, SourceEnd(b.final).value, Primitive(old(rt.nextId)), options, None)
    ensures r == Builder(b.original, b.final, Primitive(old(rt.nextId)), b.propagate) && Valid(r)
  {
    var batch := rt.Allocate(BatchBlock(batchSize));
    LinkHelper.Link(rt, b.final, Primitive(batch), options, None);
    r := Builder(b.original, b.final, Primitive(batch), b.propagate);
  }

  method WriteOnce(rt: Runtime, b: Builder, cloning: Option<nat>, options: LinkOptions?) returns (r: Result<Builder, Error>)
    requires Valid(b)
    modifies rt`links, rt`allocations, rt`nextId
    ensures cloning.None? ==>
      r == Err(ArgumentNull("cloningFunction")) &&
      rt.links == old(rt.links) && rt.allocations == old(rt.allocations) && rt.nextId == old(rt.nextId)
    ensures cloning.Some? ==>
      rt.nextId == old(rt.nextId) + 1 &&
      rt.allocations == old(rt.allocations) + [Allocation(old(rt.nextId), WriteOnceBlock(cloning.value))] &&
      LinkHelper.LinkedOnce(old(rt.links), rt.links, SourceEnd(b.final).value, Primitive(old(rt.nextId)), options, None) &&
      r == Ok(Builder(b.original, b.final, Primitive(old(rt.nextId)), b.propagate)) && Valid(r.value)
  {
    if cloning.None? {
      return Err(ArgumentNull("cloningFunction"));
    }
    var block := rt.Allocate(WriteOnceBlock(cloning.value));
    LinkHelper.Link(rt, b.final, Primitive(block), options, None);
    r := Ok(Builder(b.original, b.final, Primitive(block), b.propagate));
  }
}
