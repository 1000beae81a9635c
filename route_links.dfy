/** The flattening as app/lib/routes-config.ts writes it: a local list that
    receives the node's own page, then the pages of every rewritten child in
    a loop over `items`. */
module RouteLinks {
  import opened RouteTree
  import RouteLemmas

  /** `getRecurrsiveAllLinks`: yields exactly the pages of `Flatten`. */
  method GetRecursiveAllLinks(node: RouteNode) returns (ans: seq<Page>)
    ensures ans == Flatten(node)
    decreases Size(node)
  {
    ans := [];
    if !node.noLink {
      ans := ans + [Page(node.title, node.href)];
    }
    ghost var own := ans;
    assert own == OwnPage(node);
    var subNodes := Children(node);
    ghost var temps := PrefixAll(node.href, subNodes);
    var i := 0;
    assert temps[..0] == [];
    while i < |subNodes|
      invariant 0 <= i <= |subNodes|
      invariant ans == own + FlattenAll(temps[..i])
    {
      var temp := subNodes[i].(href := node.href + subNodes[i].href);
      PrefixAllAt(node.href, subNodes, i);
      SizeBound(node, temps, i);
      var sub := GetRecursiveAllLinks(temp);
      FlattenAllSnoc(temps, i);
      AppendAssoc(own, FlattenAll(temps[..i]), sub);
      ans := ans + sub;
      i := i + 1;
    }
    assert temps[..i] == temps;
    assert Flatten(node) == own + FlattenAll(temps);
  }

  /** Regrouping a concatenation. Stated over plain page lists so that the
      loop step above stays cheap for the solver: it need not regroup terms
      that mention `Flatten` itself. */
  lemma AppendAssoc(a: seq<Page>, b: seq<Page>, c: seq<Page>)
    ensures (a + b) + c == a + (b + c)
  {
  }

  /** Extending a prefix of a forest by one root appends that root's pages. */
  lemma FlattenAllSnoc(roots: seq<RouteNode>, i: nat)
    requires i < |roots|
    ensures FlattenAll(roots[..i + 1]) == FlattenAll(roots[..i]) + Flatten(roots[i])
  {
    assert roots[..i + 1] == roots[..i] + [roots[i]];
    RouteLemmas.FlattenAllAppend(roots[..i], [roots[i]]);
    assert FlattenAll([roots[i]]) == Flatten(roots[i]) + FlattenAll([]);
  }

  /** A rewritten child is smaller than its parent. */
  lemma SizeBound(node: RouteNode, temps: seq<RouteNode>, i: nat)
    requires temps == PrefixAll(node.href, Children(node)) && i < |temps|
    ensures Size(temps[i]) < Size(node)
  {
    SizeAllPrefixAll(node.href, Children(node));
    SizeAllBound(temps, i);
  }

  /** One tree of a forest is no larger than the forest. */
  lemma {:induction false} SizeAllBound(cs: seq<RouteNode>, i: nat)
    requires i < |cs|
    ensures Size(cs[i]) <= SizeAll(cs)
  {
    if i > 0 {
      SizeAllBound(cs[1..], i - 1);
    }
  }
}
