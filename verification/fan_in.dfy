/** Properties of MultipleSourceDataflowWrapper, the fan-in composite over
    several source blocks. */
module FanIn {
  import opened Tasks
  import opened Engine
  import opened Composites

  /** The outcome of the task a fresh read of the fan-in's Completion returns. */
  function CompletionOf(ids: seq<nat>, env: nat -> Outcome, conts: seq<Continuation>): Outcome {
    var (t, cs) := Read(FanIn(Primitives(ids)), conts);
    Status(t, env, cs)
  }

  /** Complete() and Fault(e) reach every source once, in array order, with the same signal. */
  lemma ShutdownReachesEverySourceInOrder(ids: seq<nat>, s: Signal)
    ensures |Shutdown(FanIn(Primitives(ids)), s)| == |ids|
    ensures forall i :: 0 <= i < |ids| ==> Shutdown(FanIn(Primitives(ids)), s)[i] == Signalled(ids[i], s)
  {
    ShutdownAllPrimitives(ids, s);
  }

  /** Completion registers no continuation: it is WhenAll over the sources' completions. */
  lemma CompletionIsWhenAllOfSources(ids: seq<nat>, env: nat -> Outcome, conts: seq<Continuation>)
    ensures Read(FanIn(Primitives(ids)), conts).1 == conts
    ensures CompletionOf(ids, env, conts) == WhenAll(Outcomes(ids, env))
  {
    ReadAllPrimitives(ids, conts);
    StatusOfPrimitives(ids, env, conts);
  }

  lemma CompletionPendingIff(ids: seq<nat>, env: nat -> Outcome, conts: seq<Continuation>)
    ensures CompletionOf(ids, env, conts).Pending? <==> exists i :: 0 <= i < |ids| && env(ids[i]).Pending?
  {
    CompletionIsWhenAllOfSources(ids, env, conts);
    WhenAllPendingIff(Outcomes(ids, env));
  }

  /** The fan-in faults only once every source is done and one faulted, and
      then it carries the exceptions of all faulted sources, in source order. */
  lemma CompletionFaultedIff(ids: seq<nat>, env: nat -> Outcome, conts: seq<Continuation>)
    ensures CompletionOf(ids, env, conts).Faulted? <==>
      (forall i :: 0 <= i < |ids| ==> IsTerminal(env(ids[i]))) &&
      (exists i :: 0 <= i < |ids| && env(ids[i]).Faulted?)
    ensures CompletionOf(ids, env, conts).Faulted? ==>
      CompletionOf(ids, env, conts).errors == AllErrors(Outcomes(ids, env))
  {
    CompletionIsWhenAllOfSources(ids, env, conts);
    WhenAllFaultedIff(Outcomes(ids, env));
  }

  /** No source's exception is dropped once all sources are done. */
  lemma CompletionKeepsEveryFault(ids: seq<nat>, env: nat -> Outcome, conts: seq<Continuation>, i: nat, e: Error)
    requires forall j :: 0 <= j < |ids| ==> IsTerminal(env(ids[j]))
    requires i < |ids| && env(ids[i]).Faulted? && e in env(ids[i]).errors
    ensures CompletionOf(ids, env, conts).Faulted? && e in CompletionOf(ids, env, conts).errors
  {
    CompletionFaultedIff(ids, env, conts);
    AllErrorsKeepsEvery(Outcomes(ids, env), i, e);
  }

  lemma CompletionCanceledIff(ids: seq<nat>, env: nat -> Outcome, conts: seq<Continuation>)
    ensures CompletionOf(ids, env, conts).Canceled? <==>
      (forall i :: 0 <= i < |ids| ==> IsTerminal(env(ids[i])) && !env(ids[i]).Faulted?) &&
      (exists i :: 0 <= i < |ids| && env(ids[i]).Canceled?)
  {
    CompletionIsWhenAllOfSources(ids, env, conts);
    WhenAllCanceledIff(Outcomes(ids, env));
  }

  lemma CompletionRanIff(ids: seq<nat>, env: nat -> Outcome, conts: seq<Continuation>)
    ensures CompletionOf(ids, env, conts) == Ran <==> forall i :: 0 <= i < |ids| ==> env(ids[i]) == Ran
  {
    CompletionIsWhenAllOfSources(ids, env, conts);
    WhenAllRanIff(Outcomes(ids, env));
  }

  /** A fan-in is neither a target nor a source: it has no offer or link route. */
  lemma NoMessageRoute(sources: seq<Block>, req: Request)
    ensures Route(FanIn(sources), req).None?
    ensures !IsSource(FanIn(sources)) && !IsTarget(FanIn(sources))
  {
  }
}
