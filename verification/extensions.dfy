/** The fluent extension overloads that add a filtered link together with a
    "declined" edge for the messages the filter refuses.  Every overload of a
    family follows one scheme, described here by a LinkRequest: the next
    block (given, or an ActionBlock built from an action), the link options,
    the filter, whether the overload insists on a filter, and the declined
    route (none, a given block, or an ActionBlock built from an action). */
module DataflowBuilderExtensions {
  import opened Basics
  import opened Tasks
  import opened Engine
  import opened Composites
  import LinkHelper
  import TargetDataflowBuilder
  import DataflowBuilder
  import SourceDataflowBuilder
  import PropagatorDataflowBuilder
  import MultipleSourceDataflowBuilder
  import BroadcastDataflowBuilder

  /** The next block: a given target, or an action to run in a new ActionBlock
      (a null block-options object stands for the defaults). */
  datatype Next =
    | NextBlock(target: Option<Block>)
    | NextAction(action: Option<nat>, blockOptions: Option<BlockOptions>)

  /** Where messages the filter refuses go; a null block or action means no edge. */
  datatype Declined =
    | NoDeclined
    | DeclinedBlock(target: Option<Block>, linkOptions: LinkOptions?)
    | DeclinedAction(action: Option<nat>, blockOptions: Option<BlockOptions>, linkOptions: LinkOptions?)

  /** A null `linkOptions` stands for the library's default link options, a
      new object with completion propagation on, as in LinkHelper. */
  datatype LinkRequest = LinkRequest(next: Next, linkOptions: LinkOptions?, filter: Option<Filter>, filterRequired: bool, declined: Declined)

  /** `blockOptions ?? DataflowDefaultOptions.DefaultBlockOptions`. */
  function OrDefaultBlockOptions(o: Option<BlockOptions>): BlockOptions {
    if o.Some? then o.value else DefaultBlockOptions
  }

  /** The argument check an overload makes after finding the builder non-null:
      the next block or action first, then the filter when it insists on one. */
  function Refused(req: LinkRequest): Option<Error> {
    if req.next.NextBlock? && req.next.target.None? then Some(ArgumentNull("targetBlock"))
    else if req.next.NextAction? && req.next.action.None? then Some(ArgumentNull("action"))
    else if req.filterRequired && req.filter.None? then Some(ArgumentNull("predicate"))
    else None
  }

  /** The ActionBlock the overload builds for the next block, if any. */
  function NextCreated(req: LinkRequest): seq<BlockKind> {
    if req.next.NextAction? && req.next.action.Some?
    then [ActionBlock(req.next.action.value, OrDefaultBlockOptions(req.next.blockOptions))]
    else []
  }

  /** The ActionBlock the overload builds for the declined route, if any. */
  function DeclinedCreated(req: LinkRequest): seq<BlockKind> {
    if req.declined.DeclinedAction? && req.declined.action.Some?
    then [ActionBlock(req.declined.action.value, OrDefaultBlockOptions(req.declined.blockOptions))]
    else []
  }

  /** The next block, when engine blocks from `first` on are still free. */
  function NextTarget(req: LinkRequest, first: nat): Block
    requires Refused(req).None?
  {
    if req.next.NextBlock? then req.next.target.value else Primitive(first)
  }

  /** The declined target, when engine blocks from `first` on are still free. */
  function DeclinedTarget(req: LinkRequest, first: nat): Option<Block> {
    match req.declined
    case NoDeclined => None
    case DeclinedBlock(target, _) => target
    case DeclinedAction(action, _, _) => if action.Some? then Some(Primitive(first)) else None
  }

  function DeclinedLinkOptions(d: Declined): LinkOptions? {
    if d.NoDeclined? then null else d.linkOptions
  }

  /** Allocations numbered from `first`, one per kind, in order. */
  function Numbered(first: nat, kinds: seq<BlockKind>): (r: seq<Allocation>)
    ensures |r| == |kinds| && forall i :: 0 <= i < |kinds| ==> r[i] == Allocation(first + i, kinds[i])
  {
    seq(|kinds|, i requires 0 <= i < |kinds| => Allocation(first + i, kinds[i]))
  }

  /** `after` is `before` plus the declined edge from engine block `source`, if there is one. */
  predicate DeclinedLinked(before: seq<Link>, after: seq<Link>, source: nat, target: Option<Block>, options: LinkOptions?)
    reads options
  {
    if target.None? then after == before
    else LinkHelper.LinkedOnce(before, after, source, target.value, options, None)
  }

  /** Builds the ActionBlock for the next block when the overload takes an action. */
  method NextEndpoint(rt: Runtime, req: LinkRequest) returns (t: Block)
    requires Refused(req).None?
    modifies rt`allocations, rt`nextId
    ensures t == NextTarget(req, old(rt.nextId))
    ensures rt.nextId == old(rt.nextId) + |NextCreated(req)|
    ensures rt.allocations == old(rt.allocations) + Numbered(old(rt.nextId), NextCreated(req))
  {
    if req.next.NextBlock? {
      t := req.next.target.value;
    } else {
      var id := rt.Allocate(ActionBlock(req.next.action.value, OrDefaultBlockOptions(req.next.blockOptions)));
      t := Primitive(id);
    }
  }

  /** Builds the declined ActionBlock when there is one. */
  method DeclinedEndpoint(rt: Runtime, req: LinkRequest) returns (t: Option<Block>)
    modifies rt`allocations, rt`nextId
    ensures t == DeclinedTarget(req, old(rt.nextId))
    ensures rt.nextId == old(rt.nextId) + |DeclinedCreated(req)|
    ensures rt.allocations == old(rt.allocations) + Numbered(old(rt.nextId), DeclinedCreated(req))
  {
    match req.declined {
      case NoDeclined => t := None;
      case DeclinedBlock(target, _) => t := target;
      case DeclinedAction(action, blockOptions, _) =>
        if action.Some? {
          var id := rt.Allocate(ActionBlock(action.value, OrDefaultBlockOptions(blockOptions)));
          t := Some(Primitive(id));
        } else {
          t := None;
        }
    }
  }

  /** The declined edge of the single-source families: from the builder's
      final block (as it was before the main link), with
      `declinedLinkOptions ?? DefaultLinkOptions` and no filter. */
  method LinkDeclined(rt: Runtime, source: Block, req: LinkRequest)
    requires IsSource(source)
    modifies rt`links, rt`allocations, rt`nextId
    ensures rt.nextId == old(rt.nextId) + |DeclinedCreated(req)|
    ensures rt.allocations == old(rt.allocations) + Numbered(old(rt.nextId), DeclinedCreated(req))
    ensures DeclinedLinked(old(rt.links), rt.links, SourceEnd(source).value,
                           DeclinedTarget(req, old(rt.nextId)), DeclinedLinkOptions(req.declined))
  {
    var declined := DeclinedEndpoint(rt, req);
    if declined.Some? {
      var options := LinkHelper.OrDefault(DeclinedLinkOptions(req.declined));
      LinkHelper.Link(rt, source, declined.value, options, None);
    }
  }

  /** The propagator family (LinkToTarget on a propagator chain). */
  method PropagatorLinkToTarget(rt: Runtime, builder: Option<PropagatorDataflowBuilder.Builder>, req: LinkRequest)
    returns (r: Result<Option<TargetDataflowBuilder.Builder>, Error>)
    requires builder.Some? ==> PropagatorDataflowBuilder.Valid(builder.value)
    modifies rt`links, rt`allocations, rt`nextId
    ensures builder.None? || Refused(req).Some? ==>
      rt.links == old(rt.links) && rt.allocations == old(rt.allocations) && rt.nextId == old(rt.nextId)
    ensures builder.None? ==> r == Ok(None)
    ensures builder.Some? && Refused(req).Some? ==> r == Err(Refused(req).value)
    ensures builder.Some? && Refused(req).None? ==>
      var b := builder.value;
      var first := old(rt.nextId);
      var second := first + |NextCreated(req)|;
      var source := SourceEnd(b.final).value;
      r == Ok(Some(TargetDataflowBuilder.Builder(b.original, NextTarget(req, first)))) &&
      rt.nextId == second + |DeclinedCreated(req)| &&
      rt.allocations == old(rt.allocations) + Numbered(first, NextCreated(req)) + Numbered(second, DeclinedCreated(req)) &&
      |old(rt.links)| < |rt.links| &&
      LinkHelper.LinkedOnce(old(rt.links), rt.links[..|old(rt.links)| + 1], source, NextTarget(req, first), req.linkOptions, req.filter) &&
      DeclinedLinked(rt.links[..|old(rt.links)| + 1], rt.links, source, DeclinedTarget(req, second), DeclinedLinkOptions(req.declined))
  {
    if builder.None? {
      return Ok(None);
    }
    if Refused(req).Some? {
      return Err(Refused(req).value);
    }
    var b := builder.value;
    var target := NextEndpoint(rt, req);
    var next := PropagatorDataflowBuilder.LinkToTarget(rt, b, Some(target), req.linkOptions, req.filter);
    ghost var linked := rt.links;
    LinkDeclined(rt, b.final, req);
    assert rt.links[..|old(rt.links)| + 1] == linked by {
      if DeclinedTarget(req, old(rt.nextId) + |NextCreated(req)|).Some? {
        assert linked == rt.links[..|linked|];
      }
    }
    r := Ok(Some(next.value));
  }

  /** The source family (LinkToTarget on a source chain). */
  method SourceLinkToTarget(rt: Runtime, builder: Option<SourceDataflowBuilder.Builder>, req: LinkRequest)
    returns (r: Result<Option<DataflowBuilder.Builder>, Error>)
    requires builder.Some? ==> SourceDataflowBuilder.Valid(builder.value)
    modifies rt`links, rt`allocations, rt`nextId
    ensures builder.None? || Refused(req).Some? ==>
      rt.links == old(rt.links) && rt.allocations == old(rt.allocations) && rt.nextId == old(rt.nextId)
    ensures builder.None? ==> r == Ok(None)
    ensures builder.Some? && Refused(req).Some? ==> r == Err(Refused(req).value)
    ensures builder.Some? && Refused(req).None? ==>
      var b := builder.value;
      var first := old(rt.nextId);
      var second := first + |NextCreated(req)|;
      var source := SourceEnd(b.final).value;
      r == Ok(Some(DataflowBuilder.Builder(b.original, b.final, NextTarget(req, first), b.propagate))) &&
      rt.nextId == second + |DeclinedCreated(req)| &&
      rt.allocations == old(rt.allocations) + Numbered(first, NextCreated(req)) + Numbered(second, DeclinedCreated(req)) &&
      |old(rt.links)| < |rt.links| &&
      LinkHelper.LinkedOnce(old(rt.links), rt.links[..|old(rt.links)| + 1], source, NextTarget(req, first), req.linkOptions, req.filter) &&
      DeclinedLinked(rt.links[..|old(rt.links)| + 1], rt.links, source, DeclinedTarget(req, second), DeclinedLinkOptions(req.declined))
  {
    if builder.None? {
      return Ok(None);
    }
    if Refused(req).Some? {
      return Err(Refused(req).value);
    }
    var b := builder.value;
    var target := NextEndpoint(rt, req);
    var next := SourceDataflowBuilder.LinkToTarget(rt, b, Some(target), req.linkOptions, req.filter);
    ghost var linked := rt.links;
    LinkDeclined(rt, b.final, req);
    assert rt.links[..|old(rt.links)| + 1] == linked by {
      if DeclinedTarget(req, old(rt.nextId) + |NextCreated(req)|).Some? {
        assert linked == rt.links[..|linked|];
      }
    }
    r := Ok(Some(next.value));
  }

  /** The broadcast family (LinkTo on a broadcast builder): the declined edge
      leaves the broadcast block. */
  method BroadcastLinkTo(rt: Runtime, builder: BroadcastDataflowBuilder.Builder?, req: LinkRequest)
    returns (r: Result<BroadcastDataflowBuilder.Builder?, Error>)
    modifies rt`links, rt`allocations, rt`nextId
    ensures builder == null || Refused(req).Some? ==>
      rt.links == old(rt.links) && rt.allocations == old(rt.allocations) && rt.nextId == old(rt.nextId)
    ensures builder == null ==> r == Ok(null)
    ensures builder != null && Refused(req).Some? ==> r == Err(Refused(req).value)
    ensures builder != null && Refused(req).None? ==>
      var first := old(rt.nextId);
      var second := first + |NextCreated(req)|;
      r.Ok? && r.value != null && fresh(r.value) &&
      r.value.broadcast == builder.broadcast && r.value.targets == [NextTarget(req, first)] &&
      rt.nextId == second + |DeclinedCreated(req)| &&
      rt.allocations == old(rt.allocations) + Numbered(first, NextCreated(req)) + Numbered(second, DeclinedCreated(req)) &&
      |old(rt.links)| < |rt.links| &&
      LinkHelper.LinkedOnce(old(rt.links), rt.links[..|old(rt.links)| + 1], builder.broadcast, NextTarget(req, first), req.linkOptions, req.filter) &&
      DeclinedLinked(rt.links[..|old(rt.links)| + 1], rt.links, builder.broadcast, DeclinedTarget(req, second), DeclinedLinkOptions(req.declined))
  {
    if builder == null {
      return Ok(null);
    }
    if Refused(req).Some? {
      return Err(Refused(req).value);
    }
    var target := NextEndpoint(rt, req);
    var next := builder.LinkTo(rt, Some(target), req.linkOptions, req.filter);
    ghost var linked := rt.links;
    LinkDeclined(rt, Primitive(builder.broadcast), req);
    assert rt.links[..|old(rt.links)| + 1] == linked by {
      if DeclinedTarget(req, old(rt.nextId) + |NextCreated(req)|).Some? {
        assert linked == rt.links[..|linked|];
      }
    }
    r := Ok(next.value);
  }

  /** The multiple-source family (LinkToTarget on several sources): both the
      main and the declined edges go through the builder's Link, so each
      leaves every source with propagation off, and the declined edges carry
      no filter; the flag Link returns for the declined edges is dropped. */
  method MultipleSourceLinkToTarget(rt: Runtime, builder: Option<MultipleSourceDataflowBuilder.Builder>, req: LinkRequest)
    returns (r: Result<Option<DataflowBuilder.Builder>, Error>)
    requires builder.Some? ==> MultipleSourceDataflowBuilder.Valid(builder.value)
    modifies rt`links, rt`allocations, rt`nextId, req.linkOptions, DeclinedLinkOptions(req.declined)
    ensures builder.None? || Refused(req).Some? ==>
      rt.links == old(rt.links) && rt.allocations == old(rt.allocations) && rt.nextId == old(rt.nextId)
    ensures builder.None? ==> r == Ok(None)
    ensures builder.Some? && Refused(req).Some? ==> r == Err(Refused(req).value)
    ensures builder.Some? && Refused(req).None? ==>
      var sources := builder.value.sources;
      var first := old(rt.nextId);
      var second := first + |NextCreated(req)|;
      var mid := |old(rt.links)| + |sources|;
      r == Ok(Some(DataflowBuilder.Builder(FanIn(sources), FanIn(sources), NextTarget(req, first),
                                           Some(req.linkOptions == null || old(req.linkOptions.propagateCompletion))))) &&
      rt.nextId == second + |DeclinedCreated(req)| &&
      rt.allocations == old(rt.allocations) + Numbered(first, NextCreated(req)) + Numbered(second, DeclinedCreated(req)) &&
      mid <= |rt.links| &&
      MultipleSourceDataflowBuilder.LinkedEach(old(rt.links), rt.links[..mid], sources, NextTarget(req, first), req.filter) &&
      (DeclinedTarget(req, second).None? ==> |rt.links| == mid) &&
      (DeclinedTarget(req, second).Some? ==>
        MultipleSourceDataflowBuilder.LinkedEach(rt.links[..mid], rt.links, sources, DeclinedTarget(req, second).value, None))
    ensures builder.None? || Refused(req).Some? ==>
      (req.linkOptions != null ==> req.linkOptions.propagateCompletion == old(req.linkOptions.propagateCompletion)) &&
      (DeclinedLinkOptions(req.declined) != null ==>
        DeclinedLinkOptions(req.declined).propagateCompletion == old(DeclinedLinkOptions(req.declined).propagateCompletion))
    ensures builder.Some? && Refused(req).None? ==>
      var declined := DeclinedLinkOptions(req.declined);
      var second := old(rt.nextId) + |NextCreated(req)|;
      (req.linkOptions != null ==> !req.linkOptions.propagateCompletion) &&
      (DeclinedTarget(req, second).Some? && declined != null ==> !declined.propagateCompletion) &&
      (DeclinedTarget(req, second).None? && declined != null && declined != req.linkOptions ==>
        declined.propagateCompletion == old(declined.propagateCompletion))
  {
    if builder.None? {
      return Ok(None);
    }
    if Refused(req).Some? {
      return Err(Refused(req).value);
    }
    var b := builder.value;
    var target := NextEndpoint(rt, req);
    var next := MultipleSourceDataflowBuilder.LinkToTarget(rt, b, Some(target), req.linkOptions, req.filter);
    ghost var linked := rt.links;
    var declined := DeclinedEndpoint(rt, req);
    if declined.Some? {
      var options := LinkHelper.OrDefault(DeclinedLinkOptions(req.declined));
      var _ := MultipleSourceDataflowBuilder.Link(rt, b, declined.value, options, None);
    }
    assert rt.links[..|linked|] == linked;
    r := Ok(Some(next.value));
  }

  /** The shorthand overload that takes an action, block options, a filter and
      a declined action, as written: it forwards the library's default block
      options in place of the caller's. */
  function ShorthandActionAsWritten(action: Option<nat>, blockOptions: Option<BlockOptions>, filter: Option<Filter>,
                                    declinedAction: Option<nat>, declinedBlockOptions: Option<BlockOptions>): LinkRequest
  {
    LinkRequest(NextAction(action, Some(DefaultBlockOptions)), null, filter, true,
                DeclinedAction(declinedAction, declinedBlockOptions, null))
  }

  /** The same shorthand forwarding the caller's block options, as its
      sibling overloads without a declined action do. */
  function ShorthandAction(action: Option<nat>, blockOptions: Option<BlockOptions>, filter: Option<Filter>,
                           declinedAction: Option<nat>, declinedBlockOptions: Option<BlockOptions>): LinkRequest
  {
    LinkRequest(NextAction(action, blockOptions), null, filter, true,
                DeclinedAction(declinedAction, declinedBlockOptions, null))
  }

  /** As written, the ActionBlock is built with the default options even when
      the caller passed its own. */
  lemma ShorthandDropsBlockOptions(action: nat, handle: nat, filter: Filter, declinedAction: Option<nat>, declinedBlockOptions: Option<BlockOptions>)
    ensures var req := ShorthandActionAsWritten(Some(action), Some(GivenBlockOptions(handle)), Some(filter), declinedAction, declinedBlockOptions);
      Refused(req).None? &&
      NextCreated(req) == [ActionBlock(action, DefaultBlockOptions)] &&
      NextCreated(req) != [ActionBlock(action, GivenBlockOptions(handle))]
  {
  }

  /** Corrected, the ActionBlock gets the caller's options (the defaults only
      when the caller passed null), and nothing else about the request changes. */
  lemma ShorthandKeepsBlockOptions(action: Option<nat>, blockOptions: Option<BlockOptions>, filter: Option<Filter>,
                                   declinedAction: Option<nat>, declinedBlockOptions: Option<BlockOptions>)
    ensures var req := ShorthandAction(action, blockOptions, filter, declinedAction, declinedBlockOptions);
      var asWritten := ShorthandActionAsWritten(action, blockOptions, filter, declinedAction, declinedBlockOptions);
      (action.Some? ==> NextCreated(req) == [ActionBlock(action.value, OrDefaultBlockOptions(blockOptions))]) &&
      Refused(req) == Refused(asWritten) &&
      DeclinedCreated(req) == DeclinedCreated(asWritten) &&
      req.filter == asWritten.filter && req.linkOptions == asWritten.linkOptions
  {
  }
}
