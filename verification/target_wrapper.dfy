/** Properties of TargetDataflowWrapper: an entry block and the last target
    of a chain, with no completion cascade of its own. */
module TargetWrapper {
  import opened Basics
  import opened Engine
  import opened Composites

  /** Completion is the final block's own. */
  lemma CompletionIsFinal(original: Block, final: Block, conts: seq<Continuation>)
    ensures Read(TargetChain(original, final), conts) == Read(final, conts)
  {
  }

  /** Complete() and Fault(e) go to the original block. */
  lemma ShutdownGoesToOriginal(original: Block, final: Block, s: Signal)
    ensures Shutdown(TargetChain(original, final), s) == Shutdown(original, s)
  {
  }

  /** OfferMessage goes to the original block; the wrapper is not a source. */
  lemma OfferGoesToOriginal(original: Block, final: Block, req: Request)
    ensures Route(TargetChain(original, final), req) == if req.Offer? then OfferEnd(original) else None
  {
  }
}
