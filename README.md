# Route-tree flattener of the documentation site

The documentation site keeps its table of contents as a static, ordered
forest of `EachRoute` records (`ROUTES`). Each record has a title, an href
segment, an optional `noLink` flag that makes it a section header, optional
child `items` and an optional `tag`. `getRecurrsiveAllLinks` turns one record
into a list of navigable pages `{title, href}`. It emits the record itself
unless it is a section header. Then, child by child, it rewrites the child's
href to `parent.href + child.href` and recurses on that copy. `page_routes`
maps this over every root and concatenates the results. The navigation bar
and the landing page link to `page_routes[0]`.

The model has four modules:

- `RouteTree` (`route_tree.dfy`): the records (`RouteNode`, with `Items` for
  the optional child list), `Page`, the per-child rewrite `Prefixed`, and the
  flattening as pure functions. `Flatten` models one record and `FlattenAll`
  models the `map(...).flat()` over a forest.
- `RouteLinks` (`route_links.dfy`): `GetRecursiveAllLinks`, the imperative form
  of the source function. It starts with an empty list, pushes the record's
  own page, then runs a loop over the children that appends each rewritten
  child's pages. It is proved to return exactly `Flatten`.
- `RouteLemmas` (`route_lemmas.dfy`): what the flattening guarantees. This
  covers pre-order, root order, counting, section headers, and path
  resolution at any depth against an independent path-based description
  (`IsPath`, `NodeAt`, `HrefAlong`).
- `RoutesTable` (`routes_table.dfy`): the concrete `ROUTES` forest,
  `PageRoutes` (`page_routes`), and facts about it.

Path resolution follows the code. The recursive call receives the rewritten
copy, whose href already carries the parent's resolved path. So a page's href
is the concatenation of the raw hrefs of every node from its root down to
it, at any depth, not only the first two levels. Prefixing only the parent's
raw href would give a different answer for three levels; `ThreeLevelPaths`
shows the code's answer.

## Model

| member | source | states |
|---|---|---|
| `RouteTree.PrefixAll` | app/lib/routes-config.ts:127-128 | the rewritten child list has exactly as many entries as the child list |
| `RouteTree.PrefixAllAt` | app/lib/routes-config.ts:127-128 | every child is rewritten that way at its own position, so the children keep their number and order |
| `RouteLinks.GetRecursiveAllLinks` | app/lib/routes-config.ts:122-132 | the push-and-loop procedure returns exactly the pages of `Flatten` for every record, at any depth |
| `RouteLemmas.FlattenPreorder` | app/lib/routes-config.ts:122-132 | pre-order: a record yields its own page first unless it is a section header, then its children's pages left to right, each child's own pages with the record's href in front |
| `RouteLemmas.FlattenPrefixed` | app/lib/routes-config.ts:128-129 | recursing on the rewritten child yields the child's own pages with the parent's href put in front of every href, titles unchanged |
| `RouteLemmas.FlattenAllPrefixed` | app/lib/routes-config.ts:127-129 | the same for a whole list of rewritten children |
| `RouteLemmas.OwnPageFirst` | app/lib/routes-config.ts:124-126 | a record without `noLink` contributes at least one page, and the first is `{title, href}` of the record itself |
| `RouteLemmas.LeafContribution` | app/lib/routes-config.ts:124-127 | an absent `items` and an empty one give the same pages: exactly the record's own page, or none for a section header |
| `RouteLemmas.TagIgnored` | app/lib/routes-config.ts:120-130 | clearing the `tag` of every record of the subtree, at every depth, leaves its pages unchanged: no tag reaches a page |
| `RouteLemmas.TagIgnoredAll` | app/lib/routes-config.ts:134 | the same for a forest: no tag anywhere in the roots reaches `page_routes` |
| `RouteLemmas.FlattenLength` | app/lib/routes-config.ts:122-132 | the number of pages equals the number of records in the subtree that are not section headers: nothing is filtered or deduplicated |
| `RouteLemmas.FlattenAllLength` | app/lib/routes-config.ts:134 | the same count for a forest, summed over the roots |
| `RouteLemmas.FlattenComplete` | app/lib/routes-config.ts:122-132 | every record of the subtree that is not a section header yields a page with its own title and the concatenated raw hrefs along its root-to-record path, at any depth |
| `RouteLemmas.FlattenSound` | app/lib/routes-config.ts:122-132 | every page comes from a record of the subtree that is not a section header, with that record's title verbatim and its path-concatenated href; so a section header never yields its own page |
| `RouteLemmas.ChildPageOf` | app/lib/routes-config.ts:127-130 | a page other than the record's own comes from one child's pages, with the record's href in front |
| `RouteLemmas.FlattenAllAppend` | app/lib/routes-config.ts:134 | the pages of two root lists placed side by side are the pages of the first followed by the pages of the second |
| `RouteLemmas.FlattenAllBlock` | app/lib/routes-config.ts:134 | root order is kept: root `k`'s pages form one contiguous block, right after the pages of the roots before it |
| `RouteLemmas.FlattenAllHasBlock` | app/lib/routes-config.ts:134 | every page of a root is a page of the forest |
| `RouteLemmas.FlattenAllFromBlock` | app/lib/routes-config.ts:134 | every page of the forest is a page of one of its roots |
| `RoutesTable.PageRoutesFirst` | app/lib/routes-config.ts:12-22 | `page_routes` is not empty and its first page is "Getting Started" at "/getting-started", because `noLink` is commented out on the first root |
| `RoutesTable.CoreSectionPages` | app/lib/routes-config.ts:23-32 | the "Core" section yields exactly "/core/problem-form", "/core/structure" and "/core/base-models", in order, and no page of its own |
| `RoutesTable.ThreeLevelPaths` | app/lib/routes-config.ts:127-129 | a grandchild's href is the grandparent's, the parent's and its own raw hrefs concatenated |

## Left out

- The React components are left out. This covers `Navbar`, `Logo` and `NavMenu` (app/components/navbar.tsx), `Home` and `meta` (app/routes/home.tsx), and `Footer` and `FooterButtons` (app/components/footer.tsx). They are presentation over UI libraries whose code is not part of this model.
- `NAVLINKS` and the landing page's "Get Started" link are not modelled. They only put "/docs" in front of `page_routes[0].href`. `PageRoutesFirst` shows that this index exists.
- The commented-out search-service configuration in app/components/navbar.tsx is left out. It is inactive and reads environment variables.
- `GetRecursiveAllLinks`: `ans` is a local array that no other code can see, so it is modelled as a local sequence that the method reassigns. JavaScript's in-place `push` and aliasing are not modelled.
- `noLink?: true` allows only `true` or absent. The model uses a `bool` in which `false` stands for absent.
- Calling the flattening twice gives the same result. This holds by construction, because the model's functions are deterministic, so there is no separate lemma for it.
