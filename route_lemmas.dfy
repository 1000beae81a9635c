/** What the flattening of app/lib/routes-config.ts guarantees: order,
    counting, section headers, and how paths are resolved at any depth. */
module RouteLemmas {
  import opened RouteTree

  /** `pages` with `prefix` put in front of every href, titles untouched. */
  function Rebased(prefix: string, pages: seq<Page>): seq<Page>
  {
    seq(|pages|, i requires 0 <= i < |pages| => Page(pages[i].title, prefix + pages[i].href))
  }

  /** The pages of two forests side by side are the pages of each, in order:
      `page_routes` distributes over concatenation of root lists. */
  lemma {:induction false} FlattenAllAppend(a: seq<RouteNode>, b: seq<RouteNode>)
    ensures FlattenAll(a + b) == FlattenAll(a) + FlattenAll(b)
  {
    if a == [] {
      assert a + b == b;
    } else {
      assert (a + b)[1..] == a[1..] + b;
      FlattenAllAppend(a[1..], b);
    }
  }

  /** Root order is kept: the pages of root `k` form one contiguous block of
      the forest's pages, placed after the pages of all roots before it. */
  lemma FlattenAllBlock(roots: seq<RouteNode>, k: nat)
    requires k < |roots|
    ensures |FlattenAll(roots[..k])| + |Flatten(roots[k])| <= |FlattenAll(roots)|
    ensures FlattenAll(roots)[|FlattenAll(roots[..k])|..|FlattenAll(roots[..k])| + |Flatten(roots[k])|]
            == Flatten(roots[k])
  {
    var before, root, after := roots[..k], roots[k], roots[k + 1..];
    assert roots == before + ([root] + after);
    FlattenAllAppend(before, [root] + after);
    FlattenAllAppend([root], after);
    assert FlattenAll([root]) == Flatten(root) + FlattenAll([]);
    MiddleSlice(FlattenAll(before), Flatten(root), FlattenAll(after));
  }

  /** The middle part of a three-part concatenation, cut back out. */
  lemma MiddleSlice(a: seq<Page>, b: seq<Page>, c: seq<Page>)
    ensures (a + (b + c))[|a|..|a| + |b|] == b
  {
  }

  /** A page of one root is a page of the forest. */
  lemma {:induction false} FlattenAllHasBlock(roots: seq<RouteNode>, k: nat, pg: Page)
    requires k < |roots| && pg in Flatten(roots[k])
    ensures pg in FlattenAll(roots)
  {
    assert FlattenAll(roots) == Flatten(roots[0]) + FlattenAll(roots[1..]);
    if k > 0 {
      assert roots[1..][k - 1] == roots[k];
      FlattenAllHasBlock(roots[1..], k - 1, pg);
    }
  }

  /** Every page of a forest is a page of one of its roots. */
  lemma {:induction false} FlattenAllFromBlock(roots: seq<RouteNode>, pg: Page)
    requires pg in FlattenAll(roots)
    ensures exists k :: 0 <= k < |roots| && pg in Flatten(roots[k])
  {
    if pg !in Flatten(roots[0]) {
      FlattenAllFromBlock(roots[1..], pg);
      var k :| 0 <= k < |roots[1..]| && pg in Flatten(roots[1..][k]);
      assert pg in Flatten(roots[k + 1]);
    }
  }

  /** Rewriting paths twice is rewriting them once with both prefixes. */
  lemma {:induction false} PrefixAllTwice(outer: string, inner: string, cs: seq<RouteNode>)
    ensures PrefixAll(outer, PrefixAll(inner, cs)) == PrefixAll(outer + inner, cs)
  {
    if cs != [] {
      var mid := PrefixAll(inner, cs);
      assert mid[1..] == PrefixAll(inner, cs[1..]);
      PrefixAllTwice(outer, inner, cs[1..]);
      assert outer + (inner + cs[0].href) == (outer + inner) + cs[0].href;
    }
  }

  /** Prefixing a node's href prefixes the href of every page it yields: the
      recursive call on the rewritten child
      (app/lib/routes-config.ts:128-129) yields the child's own
      pages with the parent path in front. */
  lemma {:induction false} FlattenPrefixed(prefix: string, n: RouteNode)
    ensures Flatten(Prefixed(prefix, n)) == Rebased(prefix, Flatten(n))
    decreases Size(n), 1
  {
    var m := Prefixed(prefix, n);
    var kids := PrefixAll(n.href, Children(n));
    assert Children(m) == Children(n);
    PrefixAllTwice(prefix, n.href, Children(n));
    SizeAllPrefixAll(n.href, Children(n));
    FlattenAllPrefixed(prefix, kids);
    assert Flatten(n) == OwnPage(n) + FlattenAll(kids);
    assert Flatten(m) == Rebased(prefix, OwnPage(n)) + Rebased(prefix, FlattenAll(kids));
  }

  /** The same for a forest rewritten root by root. */
  lemma {:induction false} FlattenAllPrefixed(prefix: string, roots: seq<RouteNode>)
    ensures FlattenAll(PrefixAll(prefix, roots)) == Rebased(prefix, FlattenAll(roots))
    decreases SizeAll(roots), 2
  {
    if roots != [] {
      var r := PrefixAll(prefix, roots);
      assert r[1..] == PrefixAll(prefix, roots[1..]);
      FlattenPrefixed(prefix, roots[0]);
      FlattenAllPrefixed(prefix, roots[1..]);
      assert FlattenAll(r) == Flatten(r[0]) + FlattenAll(r[1..]);
    }
  }

  /** Pre-order: a node yields its own page first (unless it is a section
      header), then the pages of its children left to right, each child's
      own pages prefixed with this node's href. */
  lemma FlattenPreorder(n: RouteNode)
    ensures Flatten(n) == OwnPage(n) + Rebased(n.href, FlattenAll(Children(n)))
  {
    FlattenAllPrefixed(n.href, Children(n));
  }

  /** A node that is not a section header comes first in its own pages. */
  lemma OwnPageFirst(n: RouteNode)
    requires !n.noLink
    ensures |Flatten(n)| >= 1 && Flatten(n)[0] == Page(n.title, n.href)
  {
  }

  /** A leaf yields exactly its own page, or nothing for a section header;
      an absent child list and an empty one give the same pages. */
  lemma LeafContribution(n: RouteNode)
    ensures Flatten(n.(items := Absent)) == Flatten(n.(items := Present([])))
                                         == if n.noLink then [] else [Page(n.title, n.href)]
  {
    assert FlattenAll([]) == [];
  }

  /** The subtree with the tag cleared on every node, at every depth. */
  function StripTags(n: RouteNode): RouteNode
    decreases n
  {
    n.(tag := None,
       items := match n.items
                case Absent => Absent
                case Present(cs) => Present(StripAll(cs)))
  }

  function StripAll(cs: seq<RouteNode>): seq<RouteNode>
    decreases cs
  {
    if cs == [] then [] else [StripTags(cs[0])] + StripAll(cs[1..])
  }

  /** No tag anywhere in the subtree reaches a page: clearing them all
      leaves the pages unchanged. */
  lemma {:induction false} TagIgnored(n: RouteNode)
    ensures Flatten(StripTags(n)) == Flatten(n)
    decreases n
  {
    var s := StripTags(n);
    FlattenPreorder(n);
    FlattenPreorder(s);
    assert OwnPage(s) == OwnPage(n);
    match n.items
    case Absent =>
      assert Children(s) == [];
    case Present(cs) =>
      assert Children(s) == StripAll(cs);
      TagIgnoredAll(cs);
  }

  /** The same for a forest. */
  lemma {:induction false} TagIgnoredAll(roots: seq<RouteNode>)
    ensures FlattenAll(StripAll(roots)) == FlattenAll(roots)
    decreases roots
  {
    if roots != [] {
      var s := StripAll(roots);
      assert s[0] == StripTags(roots[0]) && s[1..] == StripAll(roots[1..]);
      TagIgnored(roots[0]);
      TagIgnoredAll(roots[1..]);
    }
  }

  // ----- Counting -----

  /** Number of nodes of a subtree that are not section headers. */
  function LinkCount(n: RouteNode): nat
    decreases n
  {
    (if n.noLink then 0 else 1)
      + match n.items
        case Absent => 0
        case Present(cs) => LinkCountAll(cs)
  }

  function LinkCountAll(cs: seq<RouteNode>): nat
    decreases cs
  {
    if cs == [] then 0 else LinkCount(cs[0]) + LinkCountAll(cs[1..])
  }

  /** No filtering and no deduplication: one page per node that is not a
      section header. */
  lemma {:induction false} FlattenLength(n: RouteNode)
    ensures |Flatten(n)| == LinkCount(n)
    decreases n
  {
    FlattenPreorder(n);
    match n.items
    case Absent =>
    case Present(cs) => FlattenAllLength(cs);
  }

  lemma {:induction false} FlattenAllLength(roots: seq<RouteNode>)
    ensures |FlattenAll(roots)| == LinkCountAll(roots)
    decreases roots
  {
    if roots != [] {
      FlattenLength(roots[0]);
      FlattenAllLength(roots[1..]);
    }
  }

  // ----- Paths -----

  /** `path` is a list of child positions leading from `n` to a node of its
      subtree. */
  predicate IsPath(n: RouteNode, path: seq<nat>)
    decreases path
  {
    path == [] || (path[0] < |Children(n)| && IsPath(Children(n)[path[0]], path[1..]))
  }

  /** The node reached by following `path` from `n`. */
  function NodeAt(n: RouteNode, path: seq<nat>): RouteNode
    requires IsPath(n, path)
    decreases path
  {
    if path == [] then n else NodeAt(Children(n)[path[0]], path[1..])
  }

  /** The raw hrefs of the nodes along `path`, from `n` down, concatenated. */
  function HrefAlong(n: RouteNode, path: seq<nat>): string
    requires IsPath(n, path)
    decreases path
  {
    if path == [] then n.href else n.href + HrefAlong(Children(n)[path[0]], path[1..])
  }

  /** Stepping into child `k` then along `rest` is following `[k] + rest`. */
  lemma PathCons(n: RouteNode, k: nat, rest: seq<nat>)
    requires k < |Children(n)| && IsPath(Children(n)[k], rest)
    ensures IsPath(n, [k] + rest)
    ensures NodeAt(n, [k] + rest) == NodeAt(Children(n)[k], rest)
    ensures HrefAlong(n, [k] + rest) == n.href + HrefAlong(Children(n)[k], rest)
  {
    assert ([k] + rest)[1..] == rest;
  }

  /** Every node of the subtree that is not a section header yields a page
      whose title is its own and whose href is the concatenation of the raw
      hrefs from the root down to it, at any depth. */
  lemma {:induction false} FlattenComplete(n: RouteNode, path: seq<nat>)
    requires IsPath(n, path) && !NodeAt(n, path).noLink
    ensures Page(NodeAt(n, path).title, HrefAlong(n, path)) in Flatten(n)
    decreases path
  {
    FlattenPreorder(n);
    if path != [] {
      var k, c := path[0], Children(n)[path[0]];
      FlattenComplete(c, path[1..]);
      var q := Page(NodeAt(c, path[1..]).title, HrefAlong(c, path[1..]));
      FlattenAllHasBlock(Children(n), k, q);
      var pages := FlattenAll(Children(n));
      var j :| 0 <= j < |pages| && pages[j] == q;
      assert Rebased(n.href, pages)[j] == Page(q.title, n.href + q.href);
    }
  }

  /** A page of a concatenation not in its first part is in its second. */
  lemma InSecondPart(a: seq<Page>, b: seq<Page>, pg: Page)
    requires pg in a + b && pg !in a
    ensures pg in b
  {
    var i :| 0 <= i < |a + b| && (a + b)[i] == pg;
    assert (a + b)[i] == b[i - |a|];
  }

  /** A page of a rebased list is a page of the list with the prefix put in
      front of its href. */
  lemma RebasedFrom(prefix: string, pages: seq<Page>, pg: Page)
    requires pg in Rebased(prefix, pages)
    ensures exists q :: q in pages && pg == Page(q.title, prefix + q.href)
  {
    var i :| 0 <= i < |pages| && Rebased(prefix, pages)[i] == pg;
    assert pages[i] in pages;
  }

  /** A page past a node's own page is a page of one of its children with
      the node's href in front. */
  lemma ChildPageOf(n: RouteNode, pg: Page)
    requires pg in Flatten(n) && pg !in OwnPage(n)
    ensures exists k, q :: 0 <= k < |Children(n)| && q in Flatten(Children(n)[k])
                           && pg == Page(q.title, n.href + q.href)
  {
    FlattenPreorder(n);
    var pages := FlattenAll(Children(n));
    InSecondPart(OwnPage(n), Rebased(n.href, pages), pg);
    RebasedFrom(n.href, pages, pg);
    var q :| q in pages && pg == Page(q.title, n.href + q.href);
    FlattenAllFromBlock(Children(n), q);
  }

  /** Every page comes from a node of the subtree that is not a section
      header: its title verbatim and its href resolved along the path. In
      particular a section header never yields a page of its own. */
  lemma {:induction false} FlattenSound(n: RouteNode, pg: Page)
    requires pg in Flatten(n)
    ensures exists path :: IsPath(n, path) && !NodeAt(n, path).noLink
                           && pg == Page(NodeAt(n, path).title, HrefAlong(n, path))
    decreases n
  {
    if pg !in OwnPage(n) {
      ChildPageOf(n, pg);
      var k, q :| 0 <= k < |Children(n)| && q in Flatten(Children(n)[k])
                  && pg == Page(q.title, n.href + q.href);
      var c := Children(n)[k];
      assert c < n by {
        assert n.items.Present? && c in n.items.children;
      }
      FlattenSound(c, q);
      var rest :| IsPath(c, rest) && !NodeAt(c, rest).noLink
                  && q == Page(NodeAt(c, rest).title, HrefAlong(c, rest));
      PathCons(n, k, rest);
    } else {
      assert IsPath(n, []) && NodeAt(n, []) == n && HrefAlong(n, []) == n.href;
    }
  }
}
