/** BroadcastDataflowBuilder: a broadcast block and the targets registered
    with this builder instance. */
module BroadcastDataflowBuilder {
  import opened Basics
  import opened Tasks
  import opened Engine
  import opened Composites
  import LinkHelper

  class Builder {
    const broadcast: nat
    var targets: seq<Block>

    /** Every instance starts with its own empty list and registers the
        given target, if any, when the list does not contain it yet. */
    constructor (broadcast: nat, target: Option<Block>)
      ensures this.broadcast == broadcast
      ensures targets == if target.Some? then [target.value] else []
    {
      this.broadcast := broadcast;
      targets := [];
      new;
      if target.Some? && target.value !in targets {
        targets := targets + [target.value];
      }
    }

    /** Create wraps the broadcast block and a copy of the target list:
        Complete and Fault reach the broadcast block only; with no targets
        Completion is the broadcast block's, otherwise each read registers
        one continuation on it that will signal every registered target. */
    function Create(): (w: Block)
      reads this
      ensures forall s :: Shutdown(w, s) == [Signalled(broadcast, s)]
      ensures OfferEnd(w) == Some(broadcast) && !IsSource(w)
      ensures targets == [] ==> forall conts :: Read(w, conts) == (OfBlock(broadcast), conts)
      ensures targets != [] ==> forall conts :: (Read(w, conts) ==
        (Continued(|conts|), conts + [Continuation(OfBlock(broadcast), SignalTargets(targets), None)]))
    {
      FanOut(broadcast, Some(targets))
    }

    /** Links the broadcast block to the target and returns a new builder
        that holds the same broadcast block and only the new target. */
    method LinkTo(rt: Runtime, target: Option<Block>, options: LinkOptions?, filter: Option<Filter>)
      returns (r: Result<Builder, Error>)
      modifies rt`links
      ensures target.None? ==> r == Err(ArgumentNull("targetBlock")) && rt.links == old(rt.links)
      ensures target.Some? ==>
        r.Ok? && fresh(r.value) && r.value.broadcast == broadcast && r.value.targets == [target.value] &&
        LinkHelper.LinkedOnce(old(rt.links), rt.links, broadcast, target.value, options, filter)
    {
      if target.None? {
        return Err(ArgumentNull("targetBlock"));
      }
      LinkHelper.Link(rt, Primitive(broadcast), target.value, options, filter);
      var next := new Builder(broadcast, target);
      r := Ok(next);
    }
  }
}
