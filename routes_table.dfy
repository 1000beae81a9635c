/** The site's navigation tree `ROUTES` and the page list `page_routes`
    derived from it (app/lib/routes-config.ts). */
module RoutesTable {
  import opened RouteTree
  import RouteLemmas

  /** A page with no children, tag or `noLink`. */
  function Leaf(title: string, href: string): RouteNode
  {
    RouteNode(title, href, false, Absent, None)
  }

  /** A section header (`noLink: true`) over the given pages. */
  function Section(title: string, href: string, items: seq<RouteNode>): RouteNode
  {
    RouteNode(title, href, true, Present(items), None)
  }

  /** The first root: `noLink` is commented out on it, so it is a page. */
  const GETTING_STARTED: RouteNode :=
    RouteNode("Getting Started", "/getting-started", false, Present([
      Leaf("Introduction", "/introduction"),
      Leaf("Quick Start Guide", "/quick-start-guide"),
      Leaf("Glossary", "/glossary"),
      Leaf("Installation setup", "/instal")
    ]), None)

  const CORE: RouteNode :=
    Section("Core", "/core", [
      Leaf("Problem Formulation", "/problem-form"),
      Leaf("Documentation Structure & Guide", "/structure"),
      Leaf("Base Models", "/base-models")
    ])

  const ROUTES: seq<RouteNode> := [
    GETTING_STARTED,
    CORE,
    Section("Absolute Zero", "/abs", [
      Leaf("Paper Summary", "/absolute-zero"),
      Leaf("Code Walkthrough", "/abs-cd"),
      Leaf("Absolute zero Analysis", "/abs-ana"),
      Leaf("Figures & Visualizations", "/abs-fig"),
      Leaf("Methodology", "/abs-meth"),
      Leaf("Buffered Reasoning", "/buffered-reasoning")
    ]),
    Section("Elastic Reasoning", "/ela", [
      Leaf("Paper Summary", "/elastic-reasoning"),
      Leaf("Experiment Analysis", "/elastic-exp-ana"),
      Leaf("Figures and maps", "/elastic-fig"),
      Leaf("Working principle", "/ela-eq"),
      Leaf("Method", "/elstic-method")
    ]),
    Leaf("RL Algorithms", "/rl-algo"),
    Section("Experimental Analysis", "/exp", [
      Leaf("Key Findings", "/key-findings"),
      Leaf("Layers Shake-Down", "/layer-wise"),
      Leaf("Scaling Law", "/scaling-law"),
      Leaf("Error Cases", "/error-case"),
      Leaf("Training Parameters used", "/train-params")
    ]),
    Leaf("System Architecture", "/sys-arch"),
    Leaf("Dataset Info", "/ds-overview"),
    Leaf("Impacts", "/impacts"),
    Section("Research Foundation", "/res-found", [
      Leaf("Research Problems", "/research-problems"),
      Leaf("Related Works", "/related-work"),
      Leaf("Citations", "/citations")
    ]),
    Leaf("Changelogs", "/changelog"),
    Leaf("Credits", "/credits"),
    Leaf("Final Report", "/report"),
    Leaf("Community", "/community"),
    Leaf("Project End-Note", "/end")
  ]

  /** `page_routes`: every root's pages, in root order. */
  function PageRoutes(): seq<Page>
  {
    FlattenAll(ROUTES)
  }

  /** The first page, read by the navigation bar and the landing page, exists
      and is the "Getting Started" root itself. */
  lemma PageRoutesFirst()
    ensures |PageRoutes()| > 0
    ensures PageRoutes()[0] == Page("Getting Started", "/getting-started")
  {
    assert ROUTES[0] == GETTING_STARTED;
    assert FlattenAll(ROUTES) == Flatten(GETTING_STARTED) + FlattenAll(ROUTES[1..]);
    RouteLemmas.OwnPageFirst(GETTING_STARTED);
  }

  /** A leaf that is not a section header yields exactly its own page. */
  lemma LeafPage(title: string, href: string)
    ensures FlattenAll([Leaf(title, href)]) == [Page(title, href)]
  {
    assert FlattenAll([Leaf(title, href)]) == Flatten(Leaf(title, href)) + FlattenAll([]);
  }

  /** The "Core" section, the second root, yields its three pages under
      "/core" and no page of its own. */
  lemma CoreSectionPages()
    ensures ROUTES[1] == CORE
    ensures Flatten(CORE) == [
      Page("Problem Formulation", "/core/problem-form"),
      Page("Documentation Structure & Guide", "/core/structure"),
      Page("Base Models", "/core/base-models")]
  {
    var a := Leaf("Problem Formulation", "/core/problem-form");
    var b := Leaf("Documentation Structure & Guide", "/core/structure");
    var c := Leaf("Base Models", "/core/base-models");
    assert "/core" + "/problem-form" == "/core/problem-form";
    assert "/core" + "/structure" == "/core/structure";
    assert "/core" + "/base-models" == "/core/base-models";
    var kids := Children(CORE);
    PrefixAllAt("/core", kids, 0);
    PrefixAllAt("/core", kids, 1);
    PrefixAllAt("/core", kids, 2);
    assert PrefixAll("/core", kids) == [a, b, c];
    FlattenAllAppend3(a, b, c);
    LeafPage(a.title, a.href);
    LeafPage(b.title, b.href);
    LeafPage(c.title, c.href);
  }

  /** Three roots side by side yield their pages side by side. */
  lemma FlattenAllAppend3(a: RouteNode, b: RouteNode, c: RouteNode)
    ensures FlattenAll([a, b, c]) == FlattenAll([a]) + FlattenAll([b]) + FlattenAll([c])
  {
    assert [a, b, c] == [a] + [b] + [c];
    RouteLemmas.FlattenAllAppend([a] + [b], [c]);
    RouteLemmas.FlattenAllAppend([a], [b]);
  }

  /** Paths resolve through every level, not only two: a grandchild's href
      carries its grandparent's and its parent's hrefs in front of its own. */
  lemma ThreeLevelPaths()
    ensures Flatten(RouteNode("A", "/a", false, Present([
              RouteNode("B", "/b", false, Present([Leaf("C", "/c")]), None)]), None))
            == [Page("A", "/a"), Page("B", "/a/b"), Page("C", "/a/b/c")]
  {
    var b := RouteNode("B", "/b", false, Present([Leaf("C", "/c")]), None);
    var a := RouteNode("A", "/a", false, Present([b]), None);
    var c' := Leaf("C", "/a/b/c");
    var b' := RouteNode("B", "/a/b", false, Present([Leaf("C", "/c")]), None);
    assert "/a/b" + "/c" == "/a/b/c";
    assert PrefixAll("/a/b", [Leaf("C", "/c")])[0] == c';
    assert FlattenAll([c']) == [Page("C", "/a/b/c")];
    assert Flatten(b') == [Page("B", "/a/b"), Page("C", "/a/b/c")];
    assert "/a" + "/b" == "/a/b";
    assert PrefixAll("/a", [b])[0] == b';
    assert FlattenAll([b']) == Flatten(b') + FlattenAll([]);
  }
}
