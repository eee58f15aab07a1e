/** DataflowFactory: the entry points that start a chain, and the joins that
    combine two or three sources into one. */
module DataflowFactory {
  import opened Basics
  import opened Tasks
  import opened Engine
  import opened Composites
  import LinkHelper
  import SourceDataflowBuilder
  import PropagatorDataflowBuilder
  import TargetDataflowBuilder
  import MultipleSourceDataflowBuilder
  import BroadcastDataflowBuilder

  /** A null or empty source array is refused. */
  function FromMultipleSources(sources: Option<seq<Block>>): (r: Result<MultipleSourceDataflowBuilder.Builder, Error>)
    ensures r.Err? <==> sources.None? || sources.value == []
    ensures r.Err? ==> r.error == ArgumentNull("sourceBlocks")
    ensures r.Ok? ==> r.value.sources == sources.value
  {
    if sources.None? || sources.value == [] then Err(ArgumentNull("sourceBlocks"))
    else Ok(MultipleSourceDataflowBuilder.Builder(sources.value))
  }

  function FromPropagator(propagator: Option<Block>): (r: Result<PropagatorDataflowBuilder.Builder, Error>)
    ensures propagator.None? ==> r == Err(ArgumentNull("propagatorBlock"))
    ensures propagator.Some? ==> r == Ok(PropagatorDataflowBuilder.FromBlock(propagator.value))
  {
    if propagator.None? then Err(ArgumentNull("propagatorBlock"))
    else Ok(PropagatorDataflowBuilder.FromBlock(propagator.value))
  }

  function FromSource(source: Option<Block>): (r: Result<SourceDataflowBuilder.Builder, Error>)
    ensures source.None? ==> r == Err(ArgumentNull("sourceBlock"))
    ensures source.Some? ==> r == Ok(SourceDataflowBuilder.FromBlock(source.value))
  {
    if source.None? then Err(ArgumentNull("sourceBlock"))
    else Ok(SourceDataflowBuilder.FromBlock(source.value))
  }

  function FromTarget(target: Option<Block>): (r: Result<TargetDataflowBuilder.Builder, Error>)
    ensures target.None? ==> r == Err(ArgumentNull("targetBlock"))
    ensures target.Some? ==> r == Ok(TargetDataflowBuilder.FromBlock(target.value))
  {
    if target.None? then Err(ArgumentNull("targetBlock"))
    else Ok(TargetDataflowBuilder.FromBlock(target.value))
  }

  method FromBroadcast(broadcast: Option<nat>) returns (r: Result<BroadcastDataflowBuilder.Builder, Error>)
    ensures broadcast.None? ==> r == Err(ArgumentNull("broadcastBlock"))
    ensures broadcast.Some? ==>
      r.Ok? && fresh(r.value) && r.value.broadcast == broadcast.value && r.value.targets == []
  {
    if broadcast.None? {
      return Err(ArgumentNull("broadcastBlock"));
    }
    var b := new BroadcastDataflowBuilder.Builder(broadcast.value, None);
    r := Ok(b);
  }

  /** DataflowJoinOptions: the per-target link options; null stands for the
      struct's default, a new default link object. */
  datatype JoinOptions = JoinOptions(target1: LinkOptions?, target2: LinkOptions?, target3: LinkOptions?)

  function TargetLinkOptions(options: JoinOptions, i: nat): LinkOptions? {
    if i == 0 then options.target1 else if i == 1 then options.target2 else options.target3
  }

  function SourceParam(i: nat): string {
    if i == 0 then "sourceBlock1" else if i == 1 then "sourceBlock2" else "sourceBlock3"
  }

  /** The position of the first null source. */
  function FirstNull(sources: seq<Option<Block>>): (i: nat)
    requires exists j :: 0 <= j < |sources| && sources[j].None?
    ensures i < |sources| && sources[i].None? && forall j :: 0 <= j < i ==> sources[j].Some?
    decreases |sources|
  {
    if sources[0].None? then 0
    else
      assert exists j :: 0 <= j < |sources[1..]| && sources[1..][j].None? by {
        var j :| 0 <= j < |sources| && sources[j].None?;
        assert sources[1..][j - 1] == sources[j];
      }
      1 + FirstNull(sources[1..])
  }

  function Values(sources: seq<Option<Block>>): (r: seq<Block>)
    requires forall i :: 0 <= i < |sources| ==> sources[i].Some?
    ensures |r| == |sources| && forall i :: 0 <= i < |sources| ==> r[i] == sources[i].value
  {
    seq(|sources|, i requires 0 <= i < |sources| => sources[i].value)
  }

  /** The engine blocks a join allocates after the join block itself: one target per source. */
  function JoinTargets(join: nat, n: nat): (r: seq<Allocation>)
    ensures |r| == n && forall i :: 0 <= i < n ==> r[i] == Allocation(join + 1 + i, JoinTarget(join, i + 1))
  {
    seq(n, i requires 0 <= i < n => Allocation(join + 1 + i, JoinTarget(join, i + 1)))
  }

  /** One link per source, in order, from the source to the join target of
      the same position, with that target's options. */
  predicate JoinLinked(before: seq<Link>, after: seq<Link>, sources: seq<Block>, join: nat, options: JoinOptions)
    reads options.target1, options.target2, options.target3
  {
    |after| == |before| + |sources| && after[..|before|] == before &&
    forall i :: 0 <= i < |sources| ==> JoinLinkAt(after[|before| + i], sources[i], join, i, options)
  }

  /** Link `l` goes from `source` to the join target at position `i`, with
      that target's options (propagating when they are null). */
  predicate JoinLinkAt(l: Link, source: Block, join: nat, i: nat, options: JoinOptions)
    reads options.target1, options.target2, options.target3
  {
    SourceEnd(source) == Some(l.source) && l.target == Primitive(join + 1 + i) && l.filter.None? &&
    (TargetLinkOptions(options, i) != null ==>
      l.options == TargetLinkOptions(options, i) && l.propagate == TargetLinkOptions(options, i).propagateCompletion) &&
    (TargetLinkOptions(options, i) == null ==> l.propagate)
  }

  /** Linking source i to its join target extends the links of the first i
      sources to the first i + 1. */
  lemma JoinLinkedStep(before: seq<Link>, mid: seq<Link>, after: seq<Link>, sources: seq<Block>, i: nat, join: nat, options: JoinOptions)
    requires i < |sources| && IsSource(sources[i])
    requires JoinLinked(before, mid, sources[..i], join, options)
    requires LinkHelper.LinkedOnce(mid, after, SourceEnd(sources[i]).value, Primitive(join + 1 + i), TargetLinkOptions(options, i), None)
    ensures JoinLinked(before, after, sources[..i + 1], join, options)
  {
    var done := sources[..i + 1];
    assert after[..|before|] == mid[..|before|];
    forall k | 0 <= k < |done|
      ensures JoinLinkAt(after[|before| + k], done[k], join, k, options)
    {
      if k < i {
        assert done[k] == sources[..i][k];
        assert after[|before| + k] == mid[|before| + k];
      }
    }
  }

  /** The composite a join of these sources on this join block yields: Complete
      and Fault reach the sources, Completion and everything else is the join
      block's, and the flag is null so no cascade is registered. */
  function Joined(sources: seq<Block>, join: nat): Block {
    Chain(SourceChain(false), FanIn(sources), Primitive(join), Primitive(join), None)
  }

  /** Join and BatchedJoin of two or three sources: refuses the first null
      source, then creates the (batched) join block, links each source to its
      join target, and starts a source chain at the composite. */
  method Join(rt: Runtime, sources: seq<Option<Block>>, options: JoinOptions, batchSize: Option<int>)
    returns (r: Result<SourceDataflowBuilder.Builder, Error>)
    requires 2 <= |sources| <= 3
    requires forall i :: 0 <= i < |sources| && sources[i].Some? ==> IsSource(sources[i].value)
    modifies rt`links, rt`allocations, rt`nextId
    ensures (exists i :: 0 <= i < |sources| && sources[i].None?) ==>
      r == Err(ArgumentNull(SourceParam(FirstNull(sources)))) &&
      rt.links == old(rt.links) && rt.allocations == old(rt.allocations) && rt.nextId == old(rt.nextId)
    ensures (forall i :: 0 <= i < |sources| ==> sources[i].Some?) ==>
      var join := old(rt.nextId);
      var kind := if batchSize.Some? then BatchedJoinBlock(|sources|, batchSize.value) else JoinBlock(|sources|);
      rt.nextId == join + 1 + |sources| &&
      rt.allocations == old(rt.allocations) + [Allocation(join, kind)] + JoinTargets(join, |sources|) &&
      JoinLinked(old(rt.links), rt.links, Values(sources), join, options) &&
      r == Ok(SourceDataflowBuilder.FromBlock(Joined(Values(sources), join)))
  {
    for i := 0 to |sources|
      invariant forall j :: 0 <= j < i ==> sources[j].Some?
    {
      if sources[i].None? {
        return Err(ArgumentNull(SourceParam(i)));
      }
    }
    var values := Values(sources);
    var kind := if batchSize.Some? then BatchedJoinBlock(|sources|, batchSize.value) else JoinBlock(|sources|);
    var join := rt.Allocate(kind);
    for i := 0 to |sources|
      invariant rt.nextId == join + 1 + i
      invariant rt.allocations == old(rt.allocations) + [Allocation(join, kind)] + JoinTargets(join, i)
      invariant JoinLinked(old(rt.links), rt.links, values[..i], join, options)
    {
      var target := rt.Allocate(JoinTarget(join, i + 1));
      assert JoinTargets(join, i) + [Allocation(target, JoinTarget(join, i + 1))] == JoinTargets(join, i + 1);
      ghost var linked := rt.links;
      LinkHelper.Link(rt, values[i], Primitive(target), TargetLinkOptions(options, i), None);
      JoinLinkedStep(old(rt.links), linked, rt.links, values, i, join, options);
    }
    assert values[..|sources|] == values;
    r := Ok(SourceDataflowBuilder.FromBlock(Joined(values, join)));
  }

  /** The chain a join starts: Completing or faulting it reaches every source
      in order; its Completion is the join block's; links and receives go to
      the join block. */
  lemma JoinedChainShape(sources: seq<Block>, join: nat, s: Signal, conts: seq<Continuation>)
    ensures var w := SourceDataflowBuilder.Create(SourceDataflowBuilder.FromBlock(Joined(sources, join)));
      Shutdown(w, s) == ShutdownAll(sources, s) &&
      Read(w, conts) == (OfBlock(join), conts) &&
      SourceEnd(w) == Some(join)
  {
  }
}
