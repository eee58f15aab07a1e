/** Properties of BroadcastDataflowWrapper, the fan-out composite around a
    broadcast block and the targets it feeds. */
module FanOut {
  import opened Basics
  import opened Tasks
  import opened Engine
  import opened Composites

  /** The continuation a read of the fan-out's Completion registers. */
  function Cascade(broadcast: nat, targets: seq<Block>): Continuation {
    Continuation(OfBlock(broadcast), SignalTargets(targets), None)
  }

  /** With a null or empty target array, Completion is the broadcast block's own. */
  lemma NoTargetsIsBroadcastCompletion(broadcast: nat, targets: Option<seq<Block>>, conts: seq<Continuation>)
    requires targets.None? || targets.value == []
    ensures Read(FanOut(broadcast, targets), conts) == (OfBlock(broadcast), conts)
  {
  }

  /** With targets, each read registers one continuation on the broadcast
      block's completion, and the returned task stays pending until it runs. */
  lemma CompletionRegistersOneCascade(broadcast: nat, targets: seq<Block>, env: nat -> Outcome, conts: seq<Continuation>)
    requires targets != []
    ensures Read(FanOut(broadcast, Some(targets)), conts) ==
      (Continued(|conts|), conts + [Cascade(broadcast, targets)])
    ensures Status(Continued(|conts|), env, conts + [Cascade(broadcast, targets)]) == Pending
  {
  }

  /** A faulted broadcast block faults every target, in array order, with its AggregateException. */
  lemma CascadeFaultsEveryTarget(broadcast: nat, ids: seq<nat>, env: nat -> Outcome, conts: seq<Continuation>)
    requires env(broadcast).Faulted?
    ensures |Signals(Cascade(broadcast, Primitives(ids)), env, conts)| == |ids|
    ensures forall i :: 0 <= i < |ids| ==>
      Signals(Cascade(broadcast, Primitives(ids)), env, conts)[i] ==
        Signalled(ids[i], Fault(Aggregate(env(broadcast).errors)))
  {
    ShutdownAllPrimitives(ids, Fault(Aggregate(env(broadcast).errors)));
  }

  /** A broadcast block that ran to completion or was canceled completes every target, in array order. */
  lemma CascadeCompletesEveryTarget(broadcast: nat, ids: seq<nat>, env: nat -> Outcome, conts: seq<Continuation>)
    requires env(broadcast) == Ran || env(broadcast) == Canceled
    ensures |Signals(Cascade(broadcast, Primitives(ids)), env, conts)| == |ids|
    ensures forall i :: 0 <= i < |ids| ==>
      Signals(Cascade(broadcast, Primitives(ids)), env, conts)[i] == Signalled(ids[i], Complete)
  {
    ShutdownAllPrimitives(ids, Complete);
  }

  /** Once the registered continuation has run, the task the read returned
      has run to completion whatever the targets' state; the task it carries
      is WhenAll over the targets' completions. */
  lemma SettledCompletionCarriesTargets(broadcast: nat, ids: seq<nat>, env: nat -> Outcome, conts: seq<Continuation>)
    ensures var done := Finish(conts + [Cascade(broadcast, Primitives(ids))], |conts|);
      Status(Continued(|conts|), env, done) == Ran &&
      done[|conts|].result == Some(AllOf(Completions(ids))) &&
      Status(AllOf(Completions(ids)), env, done) == WhenAll(Outcomes(ids, env))
  {
    var cs := conts + [Cascade(broadcast, Primitives(ids))];
    ReadAllPrimitives(ids, cs);
    assert Returned(SignalTargets(Primitives(ids)), cs) == (AllOf(Completions(ids)), cs);
    var done := Finish(cs, |conts|);
    assert done == cs[|conts| := cs[|conts|].(result := Some(AllOf(Completions(ids))))];
    StatusOfPrimitives(ids, env, done);
  }

  /** Complete() and Fault(e) go to the broadcast block only, never to a target. */
  lemma ShutdownGoesToBroadcastOnly(broadcast: nat, targets: Option<seq<Block>>, s: Signal)
    ensures Shutdown(FanOut(broadcast, targets), s) == [Signalled(broadcast, s)]
  {
  }

  /** OfferMessage goes to the broadcast block; the fan-out is not a source. */
  lemma OfferGoesToBroadcast(broadcast: nat, targets: Option<seq<Block>>, req: Request)
    ensures Route(FanOut(broadcast, targets), req) == if req.Offer? then Some(broadcast) else None
  {
  }
}
