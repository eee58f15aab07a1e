/** TargetDataflowBuilder: the record of a chain that starts at a target and
    whose last block is a plain target. */
module TargetDataflowBuilder {
  import opened Engine
  import opened Composites

  datatype Builder = Builder(original: Block, final: Block)

  /** The one-argument constructor: original and final are the same block. */
  function FromBlock(target: Block): (b: Builder)
    ensures b.original == target && b.final == target
  {
    Builder(target, target)
  }

  /** Create returns the original block itself when it is also the final
      one, and a TargetDataflowWrapper otherwise; either way offers, Complete
      and Fault reach the original block and Completion is the final block's. */
  function Create(b: Builder): (w: Block)
    ensures b.original == b.final ==> w == b.original
    ensures forall s :: Shutdown(w, s) == Shutdown(b.original, s)
    ensures OfferEnd(w) == OfferEnd(b.original)
    ensures forall conts :: Read(w, conts) == Read(b.final, conts)
  {
    if b.original == b.final then b.original else TargetChain(b.original, b.final)
  }
}
