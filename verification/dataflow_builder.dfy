/** DataflowBuilder: the record a chain ends in when its last block is a
    plain target (IDataflowBuilder). */
module DataflowBuilder {
  import opened Basics
  import opened Engine
  import opened Composites

  datatype Builder = Builder(original: Block, current: Block, target: Block, propagate: Option<bool>)

  /** The three-argument constructor: the current block is the original one. */
  function FromSource(source: Block, target: Block, propagate: Option<bool>): (b: Builder)
    ensures b.original == source && b.current == source && b.target == target && b.propagate == propagate
  {
    Builder(source, source, target, propagate)
  }

  /** Create always builds a DataflowWrapper: Complete and Fault reach the
      original block; with the flag true, reading Completion registers a
      cascade from the current block's completion to the target; otherwise
      Completion is the target's.  The result is neither a source nor a target. */
  function Create(b: Builder): (w: Block)
    ensures forall s :: Shutdown(w, s) == Shutdown(b.original, s)
    ensures !IsSource(w) && !IsTarget(w)
    ensures b.propagate != Some(true) ==> forall conts :: Read(w, conts) == Read(b.target, conts)
    ensures b.propagate == Some(true) ==> forall conts :: Read(w, conts) == Cascaded(b.current, b.target, conts)
  {
    Chain(VoidChain, b.original, b.current, b.target, b.propagate)
  }
}
