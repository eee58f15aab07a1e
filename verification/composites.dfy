/** The composite wrappers' behaviour: where Complete and Fault go, what
    reading Completion registers and returns, what a registered continuation
    does when it runs, and where message-protocol calls and links go.  The
    pure functions are the specification; the methods perform the calls on a
    Runtime and are proved against them. */
module Composites {
  import opened Basics
  import opened Tasks
  import opened Engine

  /** The calls a Complete() (or a Fault(e)) on a handle makes on engine blocks:
      a fan-in passes it to every source in array order, a single-edge or
      target wrapper to its original block only, a fan-out to its broadcast
      block only. */
  function Shutdown(h: Block, s: Signal): seq<Call>
    decreases h
  {
    match h
    case Primitive(id) => [Signalled(id, s)]
    case FanIn(sources) => ShutdownAll(sources, s)
    case Chain(_, original, _, _, _) => Shutdown(original, s)
    case TargetChain(original, _) => Shutdown(original, s)
    case FanOut(broadcast, _) => [Signalled(broadcast, s)]
    case Encapsulated(target, _) => Shutdown(target, s)
  }

  function ShutdownAll(hs: seq<Block>, s: Signal): seq<Call>
    decreases hs
  {
    if hs == [] then [] else ShutdownAll(hs[..|hs| - 1], s) + Shutdown(hs[|hs| - 1], s)
  }

  /** Reference definition: the engine blocks a shutdown must reach. */
  function Heads(h: Block): set<nat>
    decreases h
  {
    match h
    case Primitive(id) => {id}
    case FanIn(sources) => HeadsAll(sources)
    case Chain(_, original, _, _, _) => Heads(original)
    case TargetChain(original, _) => Heads(original)
    case FanOut(broadcast, _) => {broadcast}
    case Encapsulated(target, _) => Heads(target)
  }

  function HeadsAll(hs: seq<Block>): set<nat>
    decreases hs
  {
    if hs == [] then {} else HeadsAll(hs[..|hs| - 1]) + Heads(hs[|hs| - 1])
  }

  /** Reading Completion: the task it returns and the continuations registered
      by then.  A single-edge wrapper whose flag is true reads its current
      block's completion and registers a continuation that will signal the
      final block; with the flag false or null it returns the final block's
      completion.  A fan-out with a non-empty target array registers a
      continuation on the broadcast block that will signal every target.
      Every read registers afresh. */
  function Read(h: Block, conts: seq<Continuation>): (r: (Task, seq<Continuation>))
    ensures conts <= r.1
    decreases h
  {
    match h
    case Primitive(id) => (OfBlock(id), conts)
    case FanIn(sources) =>
      var (ts, cs) := ReadAll(sources, conts);
      (AllOf(ts), cs)
    case Chain(_, _, current, final, propagate) =>
      if propagate == Some(true) then
        var (antecedent, cs) := Read(current, conts);
        (Continued(|cs|), cs + [Continuation(antecedent, SignalTail(final), None)])
      else
        Read(final, conts)
    case TargetChain(_, final) => Read(final, conts)
    case FanOut(broadcast, targets) =>
      if targets.None? || targets.value == [] then (OfBlock(broadcast), conts)
      else (Continued(|conts|), conts + [Continuation(OfBlock(broadcast), SignalTargets(targets.value), None)])
    case Encapsulated(_, source) => Read(source, conts)
  }

  function ReadAll(hs: seq<Block>, conts: seq<Continuation>): (r: (seq<Task>, seq<Continuation>))
    ensures |r.0| == |hs| && conts <= r.1
    decreases hs
  {
    if hs == [] then ([], conts)
    else
      var (ts, cs) := ReadAll(hs[..|hs| - 1], conts);
      var (t, cs') := Read(hs[|hs| - 1], cs);
      (ts + [t], cs')
  }

  /** What a read of a propagating single-edge wrapper returns: its frontier
      is read, then a continuation aimed at the tail is registered. */
  function Cascaded(current: Block, tail: Block, conts: seq<Continuation>): (Task, seq<Continuation>) {
    var (antecedent, cs) := Read(current, conts);
    (Continued(|cs|), cs + [Continuation(antecedent, SignalTail(tail), None)])
  }

  /** The signal a continuation passes on: the antecedent's AggregateException
      when it faulted, Complete otherwise (also when it was canceled). */
  function Reaction(o: Outcome): Signal {
    if o.Faulted? then Fault(Aggregate(o.errors)) else Complete
  }

  function Targets(a: Action): seq<Block> {
    match a
    case SignalTail(tail) => [tail]
    case SignalTargets(targets) => targets
  }

  /** The calls a continuation makes when it runs. */
  function Signals(c: Continuation, env: nat -> Outcome, conts: seq<Continuation>): seq<Call> {
    ShutdownAll(Targets(c.action), Reaction(Status(c.antecedent, env, conts)))
  }

  /** The task a continuation returns, and the continuations registered by
      then: the tail's Completion, or WhenAll of the targets' completions. */
  function Returned(a: Action, conts: seq<Continuation>): (r: (Task, seq<Continuation>))
    ensures conts <= r.1
  {
    match a
    case SignalTail(tail) => Read(tail, conts)
    case SignalTargets(targets) =>
      var (ts, cs) := ReadAll(targets, conts);
      (AllOf(ts), cs)
  }

  /** The continuations after the one at index k has run. */
  function Finish(conts: seq<Continuation>, k: nat): seq<Continuation>
    requires k < |conts|
  {
    var (r, cs) := Returned(conts[k].action, conts);
    cs[k := conts[k].(result := Some(r))]
  }

  /** Where a message-protocol call to a handle ends up: offers go to the
      entry of a propagator, target or broadcast wrapper, consume, reserve and
      release to the final block of a source or propagator wrapper. */
  function Route(h: Block, req: Request): Option<nat> {
    if req.Offer? then OfferEnd(h) else SourceEnd(h)
  }

  function OfferEnd(h: Block): Option<nat>
    decreases h
  {
    match h
    case Primitive(id) => Some(id)
    case FanIn(_) => None
    case Chain(kind, original, _, _, _) => if kind.PropagatorChain? then OfferEnd(original) else None
    case TargetChain(original, _) => OfferEnd(original)
    case FanOut(broadcast, _) => Some(broadcast)
    case Encapsulated(target, _) => OfferEnd(target)
  }

  /** The engine block that LinkTo, ConsumeMessage, ReserveMessage and
      ReleaseReservation reach. */
  function SourceEnd(h: Block): Option<nat>
    decreases h
  {
    match h
    case Primitive(id) => Some(id)
    case Chain(kind, _, _, final, _) => if kind.VoidChain? then None else SourceEnd(final)
    case Encapsulated(_, source) => SourceEnd(source)
    case _ => None
  }

  predicate IsSource(h: Block) {
    SourceEnd(h).Some?
  }

  predicate IsTarget(h: Block) {
    OfferEnd(h).Some?
  }

  /** Handles for engine blocks, in order. */
  function Primitives(ids: seq<nat>): (r: seq<Block>)
    ensures |r| == |ids| && forall i :: 0 <= i < |ids| ==> r[i] == Primitive(ids[i])
  {
    seq(|ids|, i requires 0 <= i < |ids| => Primitive(ids[i]))
  }

  /** A shutdown reaches exactly the head blocks, each with the same signal. */
  lemma {:induction false} ShutdownReachesHeads(h: Block, s: Signal)
    ensures forall c :: c in Shutdown(h, s) ==> c == Signalled(c.block, s) && c.block in Heads(h)
    ensures forall id :: id in Heads(h) ==> Signalled(id, s) in Shutdown(h, s)
    decreases h
  {
    match h
    case Primitive(_) =>
    case FanIn(sources) => ShutdownAllReachesHeads(sources, s);
    case Chain(_, original, _, _, _) => ShutdownReachesHeads(original, s);
    case TargetChain(original, _) => ShutdownReachesHeads(original, s);
    case FanOut(_, _) =>
    case Encapsulated(target, _) => ShutdownReachesHeads(target, s);
  }

  lemma {:induction false} ShutdownAllReachesHeads(hs: seq<Block>, s: Signal)
    ensures forall c :: c in ShutdownAll(hs, s) ==> c == Signalled(c.block, s) && c.block in HeadsAll(hs)
    ensures forall id :: id in HeadsAll(hs) ==> Signalled(id, s) in ShutdownAll(hs, s)
    decreases hs
  {
    if hs != [] {
      ShutdownAllReachesHeads(hs[..|hs| - 1], s);
      ShutdownReachesHeads(hs[|hs| - 1], s);
    }
  }

  lemma ShutdownAllSingle(h: Block, s: Signal)
    ensures ShutdownAll([h], s) == Shutdown(h, s)
  {
    assert [h][..0] == [];
  }

  /** Over engine blocks, the loop signals each one once, in array order. */
  lemma {:induction false} ShutdownAllPrimitives(ids: seq<nat>, s: Signal)
    ensures |ShutdownAll(Primitives(ids), s)| == |ids|
    ensures forall i :: 0 <= i < |ids| ==> ShutdownAll(Primitives(ids), s)[i] == Signalled(ids[i], s)
    decreases |ids|
  {
    if ids != [] {
      var init := ids[..|ids| - 1];
      assert Primitives(ids)[..|ids| - 1] == Primitives(init);
      ShutdownAllPrimitives(init, s);
    }
  }

  /** The completions of engine blocks, in order. */
  function Completions(ids: seq<nat>): (r: seq<Task>)
    ensures |r| == |ids| && forall i :: 0 <= i < |ids| ==> r[i] == OfBlock(ids[i])
  {
    seq(|ids|, i requires 0 <= i < |ids| => OfBlock(ids[i]))
  }

  /** Reading the completions of engine blocks registers nothing and yields
      each block's own completion, in order. */
  lemma {:induction false} ReadAllPrimitives(ids: seq<nat>, conts: seq<Continuation>)
    ensures ReadAll(Primitives(ids), conts) == (Completions(ids), conts)
    decreases |ids|
  {
    if ids != [] {
      var init := ids[..|ids| - 1];
      assert Primitives(ids)[..|ids| - 1] == Primitives(init);
      ReadAllPrimitives(init, conts);
      assert Completions(init) + [OfBlock(ids[|ids| - 1])] == Completions(ids);
    }
  }

  /** The outcomes of engine blocks, in order. */
  function Outcomes(ids: seq<nat>, env: nat -> Outcome): (r: seq<Outcome>)
    ensures |r| == |ids| && forall i :: 0 <= i < |ids| ==> r[i] == env(ids[i])
  {
    seq(|ids|, i requires 0 <= i < |ids| => env(ids[i]))
  }

  /** WhenAll over the completions of engine blocks is WhenAll over their outcomes. */
  lemma StatusOfPrimitives(ids: seq<nat>, env: nat -> Outcome, conts: seq<Continuation>)
    ensures Status(AllOf(Completions(ids)), env, conts) == WhenAll(Outcomes(ids, env))
  {
    assert StatusAll(Completions(ids), env, conts) == Outcomes(ids, env);
  }

  /** Complete() or Fault(e) on a handle. */
  method Send(rt: Runtime, h: Block, s: Signal)
    modifies rt`calls
    ensures rt.calls == old(rt.calls) + Shutdown(h, s)
    decreases h, 1
  {
    match h
    case Primitive(id) =>
      rt.calls := rt.calls + [Signalled(id, s)];
    case FanIn(sources) =>
      SendAll(rt, sources, s);
    case Chain(_, original, _, _, _) =>
      Send(rt, original, s);
    case TargetChain(original, _) =>
      Send(rt, original, s);
    case FanOut(broadcast, _) =>
      rt.calls := rt.calls + [Signalled(broadcast, s)];
    case Encapsulated(target, _) =>
      Send(rt, target, s);
  }

  /** The loop over a block array that the fan-in's Complete and Fault and
      the fan-out's continuation run. */
  method SendAll(rt: Runtime, hs: seq<Block>, s: Signal)
    modifies rt`calls
    ensures rt.calls == old(rt.calls) + ShutdownAll(hs, s)
    decreases hs, 0
  {
    for i := 0 to |hs|
      invariant rt.calls == old(rt.calls) + ShutdownAll(hs[..i], s)
    {
      assert hs[..i + 1][..i] == hs[..i];
      Send(rt, hs[i], s);
    }
    assert hs[..|hs|] == hs;
  }

  /** The Completion property of a handle. */
  method ReadCompletion(rt: Runtime, h: Block) returns (t: Task)
    modifies rt`continuations
    ensures (t, rt.continuations) == Read(h, old(rt.continuations))
    decreases h, 1
  {
    match h
    case Primitive(id) =>
      t := OfBlock(id);
    case FanIn(sources) =>
      var ts := ReadCompletions(rt, sources);
      t := AllOf(ts);
    case Chain(_, _, current, final, propagate) =>
      if propagate == Some(true) {
        var antecedent := ReadCompletion(rt, current);
        t := Continued(|rt.continuations|);
        rt.continuations := rt.continuations + [Continuation(antecedent, SignalTail(final), None)];
      } else {
        t := ReadCompletion(rt, final);
      }
    case TargetChain(_, final) =>
      t := ReadCompletion(rt, final);
    case FanOut(broadcast, targets) =>
      if targets.None? || targets.value == [] {
        t := OfBlock(broadcast);
      } else {
        t := Continued(|rt.continuations|);
        rt.continuations := rt.continuations + [Continuation(OfBlock(broadcast), SignalTargets(targets.value), None)];
      }
    case Encapsulated(_, source) =>
      t := ReadCompletion(rt, source);
  }

  /** The Completion of every block of an array, in order (the Select inside WhenAll). */
  method ReadCompletions(rt: Runtime, hs: seq<Block>) returns (ts: seq<Task>)
    modifies rt`continuations
    ensures (ts, rt.continuations) == ReadAll(hs, old(rt.continuations))
    decreases hs, 0
  {
    ts := [];
    for i := 0 to |hs|
      invariant (ts, rt.continuations) == ReadAll(hs[..i], old(rt.continuations))
    {
      assert hs[..i + 1][..i] == hs[..i];
      var t := ReadCompletion(rt, hs[i]);
      ts := ts + [t];
    }
    assert hs[..|hs|] == hs;
  }

  /** Runs the continuation registered at index k once its antecedent is done:
      fault every block it signals with the antecedent's exception if the
      antecedent faulted, complete them otherwise, then return their completion. */
  method Settle(rt: Runtime, env: nat -> Outcome, k: nat)
    requires k < |rt.continuations| && rt.continuations[k].result.None?
    requires IsTerminal(Status(rt.continuations[k].antecedent, env, rt.continuations))
    modifies rt`calls, rt`continuations
    ensures rt.calls == old(rt.calls) + Signals(old(rt.continuations[k]), env, old(rt.continuations))
    ensures rt.continuations == Finish(old(rt.continuations), k)
  {
    var c := rt.continuations[k];
    var signal := Reaction(Status(c.antecedent, env, rt.continuations));
    var r: Task;
    match c.action {
      case SignalTail(tail) =>
        Send(rt, tail, signal);
        ShutdownAllSingle(tail, signal);
        r := ReadCompletion(rt, tail);
      case SignalTargets(targets) =>
        SendAll(rt, targets, signal);
        var ts := ReadCompletions(rt, targets);
        r := AllOf(ts);
    }
    rt.continuations := rt.continuations[k := c.(result := Some(r))];
  }

  /** A message-protocol call on a handle; the engine's answer comes from `replies`. */
  method Forward(rt: Runtime, h: Block, req: Request, replies: (nat, Request) -> int) returns (reply: int)
    requires Route(h, req).Some?
    modifies rt`calls
    ensures rt.calls == old(rt.calls) + [Requested(Route(h, req).value, req)]
    ensures reply == replies(Route(h, req).value, req)
    decreases h
  {
    match h
    case Primitive(id) =>
      rt.calls := rt.calls + [Requested(id, req)];
      reply := replies(id, req);
    case Chain(_, original, _, final, _) =>
      if req.Offer? {
        reply := Forward(rt, original, req, replies);
      } else {
        reply := Forward(rt, final, req, replies);
      }
    case TargetChain(original, _) =>
      reply := Forward(rt, original, req, replies);
    case FanOut(broadcast, _) =>
      rt.calls := rt.calls + [Requested(broadcast, req)];
      reply := replies(broadcast, req);
    case Encapsulated(target, source) =>
      if req.Offer? {
        reply := Forward(rt, target, req, replies);
      } else {
        reply := Forward(rt, source, req, replies);
      }
  }

  /** source.LinkTo(target, options[, predicate]): a wrapper links from its final block. */
  method LinkTo(rt: Runtime, source: Block, target: Block, options: LinkOptions, filter: Option<Filter>)
    requires IsSource(source)
    modifies rt`links
    ensures rt.links == old(rt.links) + [Link(SourceEnd(source).value, target, options, options.propagateCompletion, filter)]
    decreases source
  {
    match source
    case Primitive(id) =>
      rt.links := rt.links + [Link(id, target, options, options.propagateCompletion, filter)];
    case Chain(_, _, _, final, _) =>
      LinkTo(rt, final, target, options, filter);
    case Encapsulated(_, inner) =>
      LinkTo(rt, inner, target, options, filter);
  }
}
