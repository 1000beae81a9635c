/** The navigation tree of the documentation site and its flattening into
    the ordered list of navigable pages (app/lib/routes-config.ts). */
module RouteTree {

  datatype Option<+T> = None | Some(value: T)

  /** One entry of the navigation tree (`EachRoute`). An absent `noLink` is
      `false`; `items` and `tag` may be absent, and an absent `items` is kept
      apart from an empty one. */
  datatype RouteNode = RouteNode(
    title: string,
    href: string,
    noLink: bool,
    items: Items,
    tag: Option<string>)

  /** The optional child list `items?`: absent, or present (possibly empty). */
  datatype Items = Absent | Present(children: seq<RouteNode>)

  /** A navigable page: only a title and a resolved path. */
  datatype Page = Page(title: string, href: string)

  /** The children of a node; an absent `items` has none. */
  function Children(n: RouteNode): seq<RouteNode>
  {
    match n.items
    case Absent => []
    case Present(cs) => cs
  }

  /** Number of nodes in a subtree; the termination measure of the
      flattening, whose recursive calls are on rewritten copies of the
      children rather than on the children themselves. */
  function Size(n: RouteNode): nat
    decreases n
  {
    match n.items
    case Absent => 1
    case Present(cs) => 1 + SizeAll(cs)
  }

  /** Number of nodes in a forest. */
  function SizeAll(cs: seq<RouteNode>): nat
    decreases cs
  {
    if cs == [] then 0 else Size(cs[0]) + SizeAll(cs[1..])
  }

  /** The copy `{...child, href: parentHref + child.href}` made before each
      recursive call: only the path changes. */
  function Prefixed(parentHref: string, child: RouteNode): RouteNode
  {
    child.(href := parentHref + child.href)
  }

  /** Every child of a list rewritten by `Prefixed`, in order. */
  function PrefixAll(parentHref: string, cs: seq<RouteNode>): (r: seq<RouteNode>)
    ensures |r| == |cs|
  {
    if cs == [] then [] else [Prefixed(parentHref, cs[0])] + PrefixAll(parentHref, cs[1..])
  }

  /** The child at each position is rewritten in place: order is kept. */
  lemma {:induction false} PrefixAllAt(parentHref: string, cs: seq<RouteNode>, i: nat)
    requires i < |cs|
    ensures PrefixAll(parentHref, cs)[i] == Prefixed(parentHref, cs[i])
  {
    if i > 0 {
      PrefixAllAt(parentHref, cs[1..], i - 1);
    }
  }

  /** Rewriting the paths does not change the shape of the forest. */
  lemma {:induction false} SizeAllPrefixAll(parentHref: string, cs: seq<RouteNode>)
    ensures SizeAll(PrefixAll(parentHref, cs)) == SizeAll(cs)
  {
    if cs != [] {
      var r := PrefixAll(parentHref, cs);
      assert r[1..] == PrefixAll(parentHref, cs[1..]);
      SizeAllPrefixAll(parentHref, cs[1..]);
    }
  }

  /** The page a node yields for itself: none for a section header. */
  function OwnPage(n: RouteNode): seq<Page>
  {
    if n.noLink then [] else [Page(n.title, n.href)]
  }

  /** The pages one node contributes (`getRecurrsiveAllLinks`): its own page
      unless it is a section header (`noLink`), then, child by child, the
      pages of the child whose href was prefixed with this node's href. */
  function Flatten(n: RouteNode): seq<Page>
    decreases Size(n), 1
  {
    SizeAllPrefixAll(n.href, Children(n));
    OwnPage(n) + FlattenAll(PrefixAll(n.href, Children(n)))
  }

  /** The pages of a forest: each root's contribution, concatenated in root
      order (`ROUTES.map(getRecurrsiveAllLinks).flat()`). */
  function FlattenAll(roots: seq<RouteNode>): seq<Page>
    decreases SizeAll(roots), 2
  {
    if roots == [] then [] else Flatten(roots[0]) + FlattenAll(roots[1..])
  }
}
