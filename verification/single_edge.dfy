/** Properties shared by the single-edge wrappers DataflowWrapper,
    SourceDataflowWrapper and PropagatorDataflowWrapper: an original (head)
    block, a current (frontier) block, a final (tail) block, and a nullable
    flag saying whether completion is carried from frontier to tail. */
module SingleEdge {
  import opened Basics
  import opened Tasks
  import opened Engine
  import opened Composites

  /** The continuation a read of a propagating wrapper's Completion registers. */
  function Cascade(current: nat, final: Block): Continuation {
    Continuation(OfBlock(current), SignalTail(final), None)
  }

  /** Complete() and Fault(e) go to the original block and nowhere else,
      whatever the flag. */
  lemma ShutdownGoesToOriginal(kind: ChainKind, original: Block, current: Block, final: Block, propagate: Option<bool>, s: Signal)
    ensures Shutdown(Chain(kind, original, current, final, propagate), s) == Shutdown(original, s)
    ensures Heads(Chain(kind, original, current, final, propagate)) == Heads(original)
  {
  }

  /** With the flag true, each read registers one continuation on the
      frontier's completion aimed at the tail; the returned task stays pending
      until it runs. */
  lemma PropagatedCompletionRegistersCascade(kind: ChainKind, original: Block, current: nat, final: Block, env: nat -> Outcome, conts: seq<Continuation>)
    ensures Read(Chain(kind, original, Primitive(current), final, Some(true)), conts) ==
      (Continued(|conts|), conts + [Cascade(current, final)])
    ensures Status(Continued(|conts|), env, conts + [Cascade(current, final)]) == Pending
  {
  }

  /** Every read registers afresh: two reads register two cascades, so the
      tail is signalled once per read. */
  lemma EveryReadRegistersAgain(kind: ChainKind, original: Block, current: nat, final: Block, conts: seq<Continuation>)
    ensures var w := Chain(kind, original, Primitive(current), final, Some(true));
      Read(w, Read(w, conts).1) ==
        (Continued(|conts| + 1), conts + [Cascade(current, final), Cascade(current, final)])
  {
    var c := Cascade(current, final);
    var env := (id: nat) => Pending;
    PropagatedCompletionRegistersCascade(kind, original, current, final, env, conts);
    PropagatedCompletionRegistersCascade(kind, original, current, final, env, conts + [c]);
    assert conts + [c] + [c] == conts + [c, c];
  }

  /** A faulted frontier faults the tail with its AggregateException. */
  lemma CascadeOnFault(current: nat, final: nat, env: nat -> Outcome, conts: seq<Continuation>)
    requires env(current).Faulted?
    ensures Signals(Cascade(current, Primitive(final)), env, conts) ==
      [Signalled(final, Fault(Aggregate(env(current).errors)))]
  {
    ShutdownAllSingle(Primitive(final), Fault(Aggregate(env(current).errors)));
  }

  /** A frontier that ran to completion or was canceled completes the tail:
      only a fault is passed on as a fault. */
  lemma CascadeOnSuccessOrCancel(current: nat, final: nat, env: nat -> Outcome, conts: seq<Continuation>)
    requires env(current) == Ran || env(current) == Canceled
    ensures Signals(Cascade(current, Primitive(final)), env, conts) == [Signalled(final, Complete)]
  {
    ShutdownAllSingle(Primitive(final), Complete);
  }

  /** Once the cascade has run, the returned task has run to completion,
      also when the frontier faulted and while the tail is still pending; the
      task it carries is the tail's own completion. */
  lemma SettledCompletionCarriesTail(kind: ChainKind, original: Block, current: nat, final: nat, env: nat -> Outcome, conts: seq<Continuation>)
    ensures var (t, cs) := Read(Chain(kind, original, Primitive(current), Primitive(final), Some(true)), conts);
      var done := Finish(cs, |conts|);
      Status(t, env, done) == Ran &&
      done[|conts|].result == Some(OfBlock(final)) &&
      Status(done[|conts|].result.value, env, done) == env(final)
  {
  }

  /** With the flag false or null, Completion is the tail's and nothing is registered. */
  lemma UnpropagatedCompletionIsFinal(kind: ChainKind, original: Block, current: Block, final: Block, propagate: Option<bool>, conts: seq<Continuation>)
    requires propagate != Some(true)
    ensures Read(Chain(kind, original, current, final, propagate), conts) == Read(final, conts)
  {
  }

  /** A source or propagator wrapper sends ConsumeMessage, ReserveMessage,
      ReleaseReservation and LinkTo to its final block; only the propagator
      wrapper accepts offers, and sends them to its original block. */
  lemma MessageRouting(kind: ChainKind, original: Block, current: Block, final: Block, propagate: Option<bool>, req: Request)
    ensures var w := Chain(kind, original, current, final, propagate);
      Route(w, req) ==
        if req.Offer? then (if kind.PropagatorChain? then OfferEnd(original) else None)
        else (if kind.VoidChain? then None else SourceEnd(final))
  {
  }
}
