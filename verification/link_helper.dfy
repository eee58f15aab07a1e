/** The default options and the one-edge link helper every builder uses. */
module LinkHelper {
  import opened Basics
  import opened Engine
  import opened Composites

  /** DataflowDefaultOptions.DefaultLinkOptions: a new object on every read,
      with completion propagation on. */
  method DefaultLinkOptions() returns (o: LinkOptions)
    ensures fresh(o) && o.propagateCompletion
  {
    o := new LinkOptions(true);
  }

  /** `options ?? DefaultLinkOptions`. */
  method OrDefault(options: LinkOptions?) returns (o: LinkOptions)
    ensures options != null ==> o == options
    ensures options == null ==> fresh(o) && o.propagateCompletion
  {
    if options != null {
      o := options;
    } else {
      o := DefaultLinkOptions();
    }
  }

  /** `after` is `before` with one more link, from engine block `source` to
      `target` with `filter`, made with the given options object or, when it
      is null, with completion propagation on. */
  predicate LinkedOnce(before: seq<Link>, after: seq<Link>, source: nat, target: Block, options: LinkOptions?, filter: Option<Filter>)
    reads options
  {
    |after| == |before| + 1 && after[..|before|] == before &&
    var l := after[|before|];
    l.source == source && l.target == target && l.filter == filter &&
    if options != null then l.options == options && l.propagate == options.propagateCompletion else l.propagate
  }

  /** Links the source (a wrapper through its final block) to the target,
      with the caller's options or, when null, a new default object, and with
      the predicate when one is given.  The helper checks nothing. */
  method Link(rt: Runtime, source: Block, target: Block, options: LinkOptions?, filter: Option<Filter>)
    requires IsSource(source)
    modifies rt`links
    ensures LinkedOnce(old(rt.links), rt.links, SourceEnd(source).value, target, options, filter)
    ensures options == null ==> fresh(rt.links[|old(rt.links)|].options)
  {
    var o := OrDefault(options);
    LinkTo(rt, source, target, o, filter);
  }
}
