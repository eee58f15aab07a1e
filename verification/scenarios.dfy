/** End-to-end runs of the model on a fresh Runtime, following the library's
    own unit tests and typical fluent chains.  Each takes the engine blocks'
    outcomes as parameters and states what the engine blocks receive. */
module Scenarios {
  import opened Basics
  import opened Tasks
  import opened Engine
  import opened Composites
  import SourceDataflowBuilder
  import MultipleSourceDataflowBuilder
  import BroadcastDataflowBuilder
  import DataflowFactory

  /** Complete() and Fault(e) on a DataflowWrapper reach only its original block. */
  method WrapperShutdown(original: nat, current: nat, target: nat, s: Signal) returns (calls: seq<Call>)
    ensures calls == [Signalled(original, s)]
  {
    var rt := new Runtime(0);
    Send(rt, Chain(VoidChain, Primitive(original), Primitive(current), Primitive(target), Some(true)), s);
    calls := rt.calls;
  }

  /** Reading a propagating DataflowWrapper's Completion, then letting the
      frontier finish: the target is faulted with the frontier's exception or
      completed, and the returned task has run to completion even though the
      target has not finished, carrying the target's completion. */
  method WrapperCascade(original: nat, current: nat, target: nat, frontier: Outcome)
    returns (calls: seq<Call>, outer: Outcome, inner: Option<Task>)
    requires IsTerminal(frontier) && current != target
    ensures frontier.Faulted? ==> calls == [Signalled(target, Fault(Aggregate(frontier.errors)))]
    ensures !frontier.Faulted? ==> calls == [Signalled(target, Complete)]
    ensures outer == Ran
    ensures inner == Some(OfBlock(target))
  {
    var rt := new Runtime(0);
    var w := Chain(VoidChain, Primitive(original), Primitive(current), Primitive(target), Some(true));
    var t := ReadCompletion(rt, w);
    var env := (x: nat) => if x == current then frontier else Pending;
    Settle(rt, env, 0);
    ShutdownAllSingle(Primitive(target), Reaction(frontier));
    calls := rt.calls;
    outer := Status(t, env, rt.continuations);
    inner := rt.continuations[0].result;
  }

  /** Two reads of Completion register two continuations; running both
      signals the target twice. */
  method TwoReadsSignalTwice(original: nat, current: nat, target: nat, frontier: Outcome) returns (calls: seq<Call>)
    requires IsTerminal(frontier)
    ensures calls == [Signalled(target, Reaction(frontier)), Signalled(target, Reaction(frontier))]
  {
    var rt := new Runtime(0);
    var w := Chain(VoidChain, Primitive(original), Primitive(current), Primitive(target), Some(true));
    var _ := ReadCompletion(rt, w);
    var _ := ReadCompletion(rt, w);
    var env := (x: nat) => if x == current then frontier else Pending;
    ShutdownAllSingle(Primitive(target), Reaction(frontier));
    Settle(rt, env, 0);
    Settle(rt, env, 1);
    calls := rt.calls;
  }

  /** Two sources batched through the fluent API: completing the chain
      completes both sources in order; the engine links carry no completion;
      once both sources are done the batch block is faulted with every
      source's exceptions, or completed. */
  method BatchedSources(s1: nat, s2: nat, o1: Outcome, o2: Outcome)
    returns (shutdown: seq<Call>, links: seq<Link>, cascade: seq<Call>, batch: nat)
    requires s1 != s2 && IsTerminal(o1) && IsTerminal(o2)
    ensures shutdown == [Signalled(s1, Complete), Signalled(s2, Complete)]
    ensures |links| == 2 && links[0].source == s1 && links[1].source == s2
    ensures links[0].target == Primitive(batch) && links[1].target == Primitive(batch)
    ensures !links[0].propagate && !links[1].propagate
    ensures o1.Faulted? || o2.Faulted? ==> cascade == [Signalled(batch, Fault(Aggregate(ErrorsOf(o1) + ErrorsOf(o2))))]
    ensures !o1.Faulted? && !o2.Faulted? ==> cascade == [Signalled(batch, Complete)]
  {
    var rt := new Runtime(s1 + s2 + 1);
    var sources := [Primitive(s1), Primitive(s2)];
    var m := DataflowFactory.FromMultipleSources(Some(sources));
    var b := MultipleSourceDataflowBuilder.Batch(rt, m.value, 2, null);
    batch := s1 + s2 + 1;
    assert b == SourceDataflowBuilder.Builder(FanIn(sources), FanIn(sources), Primitive(batch), Some(true));
    var w := SourceDataflowBuilder.Create(b);
    assert w == Chain(SourceChain(false), FanIn(sources), FanIn(sources), Primitive(batch), Some(true));
    assert Primitives([s1, s2]) == sources;
    ShutdownAllPrimitives([s1, s2], Complete);
    Send(rt, w, Complete);
    shutdown := rt.calls;
    links := rt.links;
    var t := ReadCompletion(rt, w);
    ReadAllPrimitives([s1, s2], []);
    var env := (x: nat) => if x == s1 then o1 else if x == s2 then o2 else Pending;
    StatusOfPrimitives([s1, s2], env, rt.continuations);
    assert Outcomes([s1, s2], env) == [o1, o2];
    BothSettled(o1, o2);
    Settle(rt, env, 0);
    ShutdownAllSingle(Primitive(batch), Reaction(WhenAll([o1, o2])));
    cascade := rt.calls[2..];
  }

  /** Waiting for two finished tasks: finished, and faulted with both
      tasks' exceptions in order when either faulted. */
  lemma BothSettled(o1: Outcome, o2: Outcome)
    requires IsTerminal(o1) && IsTerminal(o2)
    ensures IsTerminal(WhenAll([o1, o2]))
    ensures Reaction(WhenAll([o1, o2])) ==
      if o1.Faulted? || o2.Faulted? then Fault(Aggregate(ErrorsOf(o1) + ErrorsOf(o2))) else Complete
  {
    WhenAllPendingIff([o1, o2]);
    WhenAllFaultedIff([o1, o2]);
    assert [o1, o2][..1] == [o1] && [o1][..0] == [];
    assert AllErrors([o1]) == ErrorsOf(o1);
    assert AllErrors([o1, o2]) == AllErrors([o1]) + ErrorsOf(o2);
  }

  /** A broadcast builder keeps only the newest target: after linking to two
      targets the built composite signals only the second one when the
      broadcast block faults, although both targets are linked. */
  method BroadcastKeepsNewestTarget(broadcast: nat, t1: nat, t2: nat, errors: seq<Error>)
    returns (links: seq<Link>, cascade: seq<Call>)
    ensures |links| == 2 && links[0].source == broadcast && links[1].source == broadcast
    ensures links[0].target == Primitive(t1) && links[1].target == Primitive(t2)
    ensures cascade == [Signalled(t2, Fault(Aggregate(errors)))]
  {
    var rt := new Runtime(0);
    var start := DataflowFactory.FromBroadcast(Some(broadcast));
    var first := start.value.LinkTo(rt, Some(Primitive(t1)), null, None);
    var second := first.value.LinkTo(rt, Some(Primitive(t2)), null, None);
    var w := second.value.Create();
    links := rt.links;
    var t := ReadCompletion(rt, w);
    var env := (x: nat) => if x == broadcast then Faulted(errors) else Pending;
    Settle(rt, env, 0);
    ShutdownAllSingle(Primitive(t2), Fault(Aggregate(errors)));
    cascade := rt.calls;
  }
}
