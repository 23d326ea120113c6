/**
 * The site's navigation: the static navigation tree, breadcrumbs for a
 * route, the section a route belongs to, previous/next links between
 * sibling pages, and the search over the tree.
 *
 * The current route path is passed in as `routePath`; Unicode case
 * mapping (`toUpperCase`, `toLowerCase`) is passed in as a function.
 */
module Navigation {
  import opened Optional
  import opened Paths

  datatype Variant = Default | Secondary | Destructive | Outline

  datatype Badge = Badge(text: string, variant: Option<Variant>)

  datatype NavigationItem = NavigationItem(
    title: string,
    path: string,
    description: Option<string>,
    badge: Option<Badge>,
    children: seq<NavigationItem>)

  datatype BreadcrumbItem = BreadcrumbItem(title: string, path: string, isCurrentPage: bool)

  datatype Section = Encyclopedia | Wiki | Home

  datatype NavigationContext = NavigationContext(section: Section, navigation: Option<NavigationItem>, sectionTitle: string)

  datatype PreviousNext = PreviousNext(previous: Option<NavigationItem>, next: Option<NavigationItem>)

  function Page(title: string, path: string, description: string, badge: string, variant: Variant): NavigationItem
  {
    NavigationItem(title, path, Some(description), Some(Badge(badge, Some(variant))), [])
  }

  const EncyclopediaPages: seq<NavigationItem> := [
    Page("異常狀態系統", "/encyclopedia/ailments", "燃燒、流血、中毒等詳細數據與疊加計算", "詳細數據", Destructive),
    Page("怪物增益系統", "/encyclopedia/buffs", "包含強化效果與對應反制關係", "增益效果", Secondary),
    Page("傷害計算系統", "/encyclopedia/damage", "標準化計算規則與示意範例", "計算公式", Default),
    Page("傷害來源分類", "/encyclopedia/sources", "直接、間接、持續類型與攻擊模式標籤", "來源分類", Outline)
  ]

  const WikiPages: seq<NavigationItem> := [
    Page("遊戲核心系統", "/wiki/game-core", "核心流程與戰鬥輪替設計", "核心機制", Default)
  ]

  const EncyclopediaNavigation: seq<NavigationItem> := [
    NavigationItem("Encyclopedia 百科全書", "/encyclopedia", Some("遊戲機制詳細說明與數值計算"), None, EncyclopediaPages)
  ]

  const WikiNavigation: seq<NavigationItem> := [
    NavigationItem("Wiki 知識庫", "/wiki", Some("基礎概念與策略指導"), None, WikiPages)
  ]

  const HomeItem: NavigationItem := NavigationItem("首頁", "/", Some("Planter TD 攻略網站首頁"), None, [])

  const MainNavigation: seq<NavigationItem> := [HomeItem] + EncyclopediaNavigation + WikiNavigation

  /** Breadcrumb titles for the paths that have one. */
  const PathTitleMap: map<string, string> := map[
    "/encyclopedia" := "Encyclopedia",
    "/encyclopedia/ailments" := "異常狀態",
    "/encyclopedia/buffs" := "怪物增益",
    "/encyclopedia/damage" := "傷害計算",
    "/encyclopedia/sources" := "傷害來源",
    "/wiki" := "Wiki",
    "/wiki/game-core" := "遊戲核心"
  ]

  // ----- Breadcrumbs -----

  /** The segment with its first character upper-cased (`charAt(0).toUpperCase() + slice(1)`). */
  function Capitalize(segment: string, toUpperCase: string -> string): string
  {
    if segment == [] then toUpperCase("") else toUpperCase(segment[..1]) + segment[1..]
  }

  /**
   * Capitalising changes only the first character: the rest of the segment follows unchanged,
   * and a segment whose first character is already upper case is returned as it is.
   */
  lemma CapitalizeChangesFirstOnly(segment: string, toUpperCase: string -> string)
    requires segment != ""
    ensures var c := Capitalize(segment, toUpperCase);
      |c| >= |segment| - 1 && c[|c| - (|segment| - 1)..] == segment[1..]
    ensures toUpperCase(segment[..1]) == segment[..1] ==> Capitalize(segment, toUpperCase) == segment
  {
    assert segment[..1] + segment[1..] == segment;
  }

  /** The title of the crumb for `path`: its table entry if it has one, else the capitalised segment. */
  function CrumbTitle(path: string, segment: string, toUpperCase: string -> string): (title: string)
    ensures path in PathTitleMap ==> title == PathTitleMap[path]
    ensures path !in PathTitleMap ==> title == Capitalize(segment, toUpperCase)
  {
    if path in PathTitleMap then PathTitleMap[path] else Capitalize(segment, toUpperCase)
  }

  /** The crumb for segment `k`: the first `k + 1` segments accumulated into a path. */
  function Crumb(segments: seq<string>, k: nat, toUpperCase: string -> string): BreadcrumbItem
    requires k < |segments|
  {
    var path := PathOf(segments[..k + 1]);
    BreadcrumbItem(CrumbTitle(path, segments[k], toUpperCase), path, k == |segments| - 1)
  }

  /** The home crumb, current exactly when the route has no segments. */
  function HomeCrumb(segments: seq<string>): BreadcrumbItem
  {
    BreadcrumbItem("首頁", "/", |segments| == 0)
  }

  /** The crumbs of the first `count` segments, in order. */
  function Crumbs(segments: seq<string>, count: nat, toUpperCase: string -> string): (crumbs: seq<BreadcrumbItem>)
    requires count <= |segments|
    ensures |crumbs| == count
    ensures forall k :: 0 <= k < count ==> crumbs[k] == Crumb(segments, k, toUpperCase)
  {
    if count == 0 then [] else Crumbs(segments, count - 1, toUpperCase) + [Crumb(segments, count - 1, toUpperCase)]
  }

  /** The breadcrumbs of a route: home, then one crumb per segment. */
  function Breadcrumbs(routePath: string, toUpperCase: string -> string): (crumbs: seq<BreadcrumbItem>)
    ensures |crumbs| == |Segments(routePath)| + 1
    ensures crumbs[0].title == "首頁" && crumbs[0].path == "/"
    ensures forall k :: 0 <= k < |crumbs| ==> (crumbs[k].isCurrentPage <==> k == |crumbs| - 1)
  {
    var segments := Segments(routePath);
    [HomeCrumb(segments)] + Crumbs(segments, |segments|, toUpperCase)
  }

  lemma CrumbOf(routePath: string, toUpperCase: string -> string, k: nat)
    requires 1 <= k <= |Segments(routePath)|
    ensures Breadcrumbs(routePath, toUpperCase)[k] == Crumb(Segments(routePath), k - 1, toUpperCase)
  {
  }

  method GenerateBreadcrumbs(routePath: string, toUpperCase: string -> string) returns (breadcrumbs: seq<BreadcrumbItem>)
    ensures breadcrumbs == Breadcrumbs(routePath, toUpperCase)
  {
    var pathSegments := Segments(routePath);
    breadcrumbs := [BreadcrumbItem("首頁", "/", |pathSegments| == 0)];
    var currentPath := "";
    var index := 0;
    while index < |pathSegments|
      invariant 0 <= index <= |pathSegments|
      invariant currentPath == PathOf(pathSegments[..index])
      invariant breadcrumbs == [HomeCrumb(pathSegments)] + Crumbs(pathSegments, index, toUpperCase)
    {
      var segment := pathSegments[index];
      PathOfStep(pathSegments, index);
      currentPath := currentPath + "/" + segment;
      var isLast := index == |pathSegments| - 1;
      var title := Capitalize(segment, toUpperCase);
      if currentPath in PathTitleMap {
        title := PathTitleMap[currentPath];
      }
      breadcrumbs := breadcrumbs + [BreadcrumbItem(title, currentPath, isLast)];
      index := index + 1;
    }
  }

  /** Crumb `k` (after home) has the path of the first `k` segments, which splits back into exactly them. */
  lemma BreadcrumbPaths(routePath: string, toUpperCase: string -> string)
    ensures var crumbs, segments := Breadcrumbs(routePath, toUpperCase), Segments(routePath);
      forall k :: 1 <= k < |crumbs| ==>
        crumbs[k].path == PathOf(segments[..k]) && Segments(crumbs[k].path) == segments[..k]
  {
    var crumbs, segments := Breadcrumbs(routePath, toUpperCase), Segments(routePath);
    forall k | 1 <= k < |crumbs|
      ensures crumbs[k].path == PathOf(segments[..k]) && Segments(crumbs[k].path) == segments[..k]
    {
      CrumbOf(routePath, toUpperCase, k);
      SegmentsOfPathOf(segments[..k]);
    }
  }

  /** Each crumb's path extends the one before it by `/` and the next segment. */
  lemma BreadcrumbPathsExtend(routePath: string, toUpperCase: string -> string)
    ensures var crumbs, segments := Breadcrumbs(routePath, toUpperCase), Segments(routePath);
      (|crumbs| > 1 ==> crumbs[1].path == "/" + segments[0])
      && forall k :: 1 <= k < |crumbs| - 1 ==> crumbs[k + 1].path == crumbs[k].path + "/" + segments[k]
  {
    var crumbs, segments := Breadcrumbs(routePath, toUpperCase), Segments(routePath);
    if |crumbs| > 1 {
      CrumbOf(routePath, toUpperCase, 1);
      PathOfStep(segments, 0);
    }
    forall k | 1 <= k < |crumbs| - 1
      ensures crumbs[k + 1].path == crumbs[k].path + "/" + segments[k]
    {
      CrumbPathStep(routePath, toUpperCase, k);
    }
  }

  lemma CrumbPathStep(routePath: string, toUpperCase: string -> string, k: nat)
    requires 1 <= k < |Segments(routePath)|
    ensures Breadcrumbs(routePath, toUpperCase)[k + 1].path
      == Breadcrumbs(routePath, toUpperCase)[k].path + "/" + Segments(routePath)[k]
  {
    var segments := Segments(routePath);
    CrumbOf(routePath, toUpperCase, k);
    CrumbOf(routePath, toUpperCase, k + 1);
    PathOfStep(segments, k);
  }

  /** A crumb's title is the table entry for its path when there is one, else its capitalised segment. */
  lemma BreadcrumbTitles(routePath: string, toUpperCase: string -> string)
    ensures var crumbs, segments := Breadcrumbs(routePath, toUpperCase), Segments(routePath);
      forall k :: 1 <= k < |crumbs| ==>
        crumbs[k].title == if crumbs[k].path in PathTitleMap then PathTitleMap[crumbs[k].path]
                           else Capitalize(segments[k - 1], toUpperCase)
  {
    var crumbs, segments := Breadcrumbs(routePath, toUpperCase), Segments(routePath);
    forall k | 1 <= k < |crumbs|
      ensures crumbs[k].title == if crumbs[k].path in PathTitleMap then PathTitleMap[crumbs[k].path]
                                 else Capitalize(segments[k - 1], toUpperCase)
    {
      CrumbOf(routePath, toUpperCase, k);
    }
  }

  /** A listed page gets its table titles: `/encyclopedia/damage` reads 首頁 › Encyclopedia › 傷害計算. */
  lemma DamagePageBreadcrumbs(toUpperCase: string -> string)
    ensures Breadcrumbs("/encyclopedia/damage", toUpperCase) == [
      BreadcrumbItem("首頁", "/", false),
      BreadcrumbItem("Encyclopedia", "/encyclopedia", false),
      BreadcrumbItem("傷害計算", "/encyclopedia/damage", true)]
  {
    var segments := ["encyclopedia", "damage"];
    assert "/" + segments[0] == "/encyclopedia";
    assert "/" + segments[0] + "/" + segments[1] == "/encyclopedia/damage";
    TwoSegmentBreadcrumbs(segments, "/encyclopedia/damage", toUpperCase);
    assert CrumbTitle("/encyclopedia", "encyclopedia", toUpperCase) == "Encyclopedia" by { TitlesOfExamples(); }
    assert CrumbTitle("/encyclopedia/damage", "damage", toUpperCase) == "傷害計算" by { TitlesOfExamples(); }
  }

  /** An unlisted segment is titled by capitalising it: `/wiki/notes` reads 首頁 › Wiki › the capitalised `notes`. */
  lemma UnlistedPageBreadcrumbs(toUpperCase: string -> string)
    ensures Breadcrumbs("/wiki/notes", toUpperCase) == [
      BreadcrumbItem("首頁", "/", false),
      BreadcrumbItem("Wiki", "/wiki", false),
      BreadcrumbItem(toUpperCase("n") + "otes", "/wiki/notes", true)]
  {
    var segments := ["wiki", "notes"];
    assert "/" + segments[0] == "/wiki";
    assert "/" + segments[0] + "/" + segments[1] == "/wiki/notes";
    TwoSegmentBreadcrumbs(segments, "/wiki/notes", toUpperCase);
    assert CrumbTitle("/wiki", "wiki", toUpperCase) == "Wiki" by { TitlesOfExamples(); }
    assert CrumbTitle("/wiki/notes", "notes", toUpperCase) == toUpperCase("n") + "otes" by {
      TitlesOfExamples();
      assert "notes"[..1] == "n" && "notes"[1..] == "otes";
    }
  }

  /** The crumbs of a route of two segments: home, then the first segment, then both. */
  lemma TwoSegmentBreadcrumbs(segments: seq<string>, routePath: string, toUpperCase: string -> string)
    requires |segments| == 2 && IsSegment(segments[0]) && IsSegment(segments[1])
    requires routePath == "/" + segments[0] + "/" + segments[1]
    ensures Breadcrumbs(routePath, toUpperCase) == [
      BreadcrumbItem("首頁", "/", false),
      BreadcrumbItem(CrumbTitle("/" + segments[0], segments[0], toUpperCase), "/" + segments[0], false),
      BreadcrumbItem(CrumbTitle(routePath, segments[1], toUpperCase), routePath, true)]
  {
    SegmentsOfRoute(segments, routePath);
    assert Crumbs(segments, 2, toUpperCase) == [Crumb(segments, 0, toUpperCase), Crumb(segments, 1, toUpperCase)];
  }

  /** A route built from two segments splits back into them. */
  lemma SegmentsOfRoute(segments: seq<string>, routePath: string)
    requires |segments| == 2 && IsSegment(segments[0]) && IsSegment(segments[1])
    requires routePath == "/" + segments[0] + "/" + segments[1]
    ensures Segments(routePath) == segments
    ensures PathOf(segments[..1]) == "/" + segments[0] && PathOf(segments[..2]) == routePath
  {
    assert segments[..1] == [segments[0]];
    assert PathOf(segments[..1]) == "/" + segments[0];
    assert segments[..2] == segments;
    assert PathOf(segments) == routePath;
    SegmentsOfPathOf(segments);
  }

  /** The table entries the examples rely on, and one path the table does not list. */
  lemma TitlesOfExamples()
    ensures "/encyclopedia" in PathTitleMap && PathTitleMap["/encyclopedia"] == "Encyclopedia"
    ensures "/encyclopedia/damage" in PathTitleMap && PathTitleMap["/encyclopedia/damage"] == "傷害計算"
    ensures "/wiki" in PathTitleMap && PathTitleMap["/wiki"] == "Wiki"
    ensures "/wiki/notes" !in PathTitleMap
  {
    assert |"/wiki/notes"| == 11;
  }

  // ----- Sections and the sidebar -----

  function GetCurrentNavigationContext(routePath: string): (context: NavigationContext)
    ensures context.section == Encyclopedia <==> StartsWith(routePath, "/encyclopedia")
    ensures context.section == Wiki <==> !StartsWith(routePath, "/encyclopedia") && StartsWith(routePath, "/wiki")
    ensures context.navigation.Some? <==> context.section != Home
    ensures context.navigation.Some? ==>
      context.navigation.value in MainNavigation
      && context.navigation.value.title == context.sectionTitle
      && StartsWith(routePath, context.navigation.value.path)
    ensures context.navigation.None? ==> context.sectionTitle == HomeItem.title
    ensures context.section == Encyclopedia ==> context.navigation == Some(EncyclopediaNavigation[0])
    ensures context.section == Wiki ==> context.navigation == Some(WikiNavigation[0])
  {
    if StartsWith(routePath, "/encyclopedia") then
      NavigationContext(Encyclopedia, Some(EncyclopediaNavigation[0]), "Encyclopedia 百科全書")
    else if StartsWith(routePath, "/wiki") then
      NavigationContext(Wiki, Some(WikiNavigation[0]), "Wiki 知識庫")
    else
      NavigationContext(Home, None, "首頁")
  }

  /** The pages listed in the sidebar: the children of the route's section, none on the home section. */
  function GetSidebarNavigation(routePath: string): (items: seq<NavigationItem>)
    ensures GetCurrentNavigationContext(routePath).section == Home <==> items == []
    ensures GetCurrentNavigationContext(routePath).section == Encyclopedia ==> items == EncyclopediaPages
    ensures GetCurrentNavigationContext(routePath).section == Wiki ==> items == WikiPages
    ensures forall item <- items ::
      StartsWith(item.path, GetCurrentNavigationContext(routePath).navigation.value.path + "/")
  {
    var context := GetCurrentNavigationContext(routePath);
    if context.navigation.Some? then context.navigation.value.children else []
  }

  /** Whether the link to `path` is highlighted: `/` only on the home page, any other path on every route it begins. */
  predicate IsActivePath(routePath: string, path: string)
  {
    if path == "/" then routePath == "/" else StartsWith(routePath, path)
  }

  /**
   * On every route that begins with the path its segments spell (`/`, a route without extra
   * separators, or one with a trailing `/`), every crumb is active except home, which is
   * active exactly on `/`.
   */
  lemma BreadcrumbsAreActive(routePath: string, toUpperCase: string -> string)
    requires StartsWith(routePath, PathOf(Segments(routePath)))
    ensures var crumbs := Breadcrumbs(routePath, toUpperCase);
      (IsActivePath(routePath, crumbs[0].path) <==> routePath == "/")
      && forall k :: 1 <= k < |crumbs| ==> IsActivePath(routePath, crumbs[k].path)
  {
    var crumbs, segments := Breadcrumbs(routePath, toUpperCase), Segments(routePath);
    BreadcrumbPaths(routePath, toUpperCase);
    forall k | 1 <= k < |crumbs|
      ensures IsActivePath(routePath, crumbs[k].path)
    {
      PathOfPrefix(segments, k);
      StartsWithTransitive(routePath, PathOf(segments), crumbs[k].path);
      assert crumbs[k].path != "/" by {
        assert segments[..k][k - 1] == segments[k - 1];
        assert |crumbs[k].path| > 1;
      }
    }
  }

  /** A trailing separator keeps a route within that condition, so `/encyclopedia/` qualifies as `/encyclopedia` does. */
  lemma TrailingSeparatorRouteQualifies(routePath: string)
    requires StartsWith(routePath, PathOf(Segments(routePath)))
    ensures StartsWith(routePath + "/", PathOf(Segments(routePath + "/")))
  {
    ExtraSeparatorsIgnored(routePath, "");
    StartsWithTransitive(routePath + "/", routePath, PathOf(Segments(routePath)));
  }

  /** A doubled separator between two segments leaves the condition: `/a//b` does not begin with `/a/b`. */
  lemma DoubledSeparatorRouteFails(first: string, second: string)
    requires IsSegment(first) && IsSegment(second)
    ensures var routePath := "/" + first + "//" + second;
      !StartsWith(routePath, PathOf(Segments(routePath)))
  {
    var routePath := "/" + first + "//" + second;
    var clean := "/" + first + "/" + second;
    assert Segments(routePath) == Segments(clean) by {
      ExtraSeparatorsIgnored("/" + first, second);
      assert "/" + first + "//" + second == routePath;
    }
    SegmentsOfRoute([first, second], clean);
    assert [first, second][..2] == [first, second];
    var at := |first| + 2;
    assert routePath[at] == '/';
    assert clean[at] == second[0];
    assert second[0] in second;
  }

  /** The home route has no segments, so its only crumb is home. */
  lemma HomeRouteHasNoSegments()
    ensures Segments("/") == []
  {
    assert Split("/") == ["", ""];
  }

  /**
   * A section's entry in the main navigation is highlighted exactly on the routes of that
   * section, and the home entry exactly on `/`.
   */
  lemma SectionEntriesActive(routePath: string)
    ensures var section := GetCurrentNavigationContext(routePath).section;
      (IsActivePath(routePath, EncyclopediaNavigation[0].path) <==> section == Encyclopedia)
      && (IsActivePath(routePath, WikiNavigation[0].path) ==> section != Home)
      && (section == Wiki ==> IsActivePath(routePath, WikiNavigation[0].path))
      && (IsActivePath(routePath, HomeItem.path) ==> section == Home)
  {
    if routePath == "/" {
      assert !StartsWith("/", "/encyclopedia") && !StartsWith("/", "/wiki");
    }
  }

  // ----- Previous and next -----

  /** The index of the first item with path `path`, or -1 (`findIndex`). */
  function FindIndex(items: seq<NavigationItem>, path: string): (index: int)
    ensures -1 <= index < |items|
    ensures index == -1 <==> forall j :: 0 <= j < |items| ==> items[j].path != path
    ensures 0 <= index ==> items[index].path == path && forall j :: 0 <= j < index ==> items[j].path != path
  {
    if items == [] then -1
    else if items[0].path == path then 0
    else
      var rest := FindIndex(items[1..], path);
      if rest == -1 then -1 else rest + 1
  }

  function GetPreviousNextNavigation(routePath: string): (links: PreviousNext)
    ensures var context := GetCurrentNavigationContext(routePath);
      context.navigation.None? ==> links == PreviousNext(None, None)
    ensures var context := GetCurrentNavigationContext(routePath);
      context.navigation.Some? ==>
        var siblings := context.navigation.value.children;
        (links.previous.Some? ==> exists i :: 1 <= i < |siblings| && siblings[i].path == routePath && links.previous.value == siblings[i - 1])
        && (links.next.Some? ==> exists i :: 0 <= i < |siblings| - 1 && siblings[i].path == routePath && links.next.value == siblings[i + 1])
        && ((forall j :: 0 <= j < |siblings| ==> siblings[j].path != routePath) ==> links == PreviousNext(None, None))
  {
    var context := GetCurrentNavigationContext(routePath);
    if context.navigation.None? then
      PreviousNext(None, None)
    else
      var siblings := context.navigation.value.children;
      var currentIndex := FindIndex(siblings, routePath);
      if currentIndex == -1 then
        PreviousNext(None, None)
      else
        PreviousNext(
          if currentIndex > 0 then Some(siblings[currentIndex - 1]) else None,
          if currentIndex < |siblings| - 1 then Some(siblings[currentIndex + 1]) else None)
  }

  /**
   * On the k-th page of a section whose pages have distinct paths, the previous link is
   * exactly the page before it (none on the first) and the next link the page after it (none on the last).
   */
  lemma NeighboursOfPage(routePath: string, k: nat)
    requires GetCurrentNavigationContext(routePath).navigation.Some?
    requires var siblings := GetCurrentNavigationContext(routePath).navigation.value.children;
      DistinctPaths(siblings) && k < |siblings| && siblings[k].path == routePath
    ensures var siblings := GetCurrentNavigationContext(routePath).navigation.value.children;
      var links := GetPreviousNextNavigation(routePath);
      links.previous == (if k > 0 then Some(siblings[k - 1]) else None)
      && links.next == (if k < |siblings| - 1 then Some(siblings[k + 1]) else None)
  {
    var siblings := GetCurrentNavigationContext(routePath).navigation.value.children;
    FoundAtOwnIndex(siblings, k);
  }

  /** Within a section, the first page has no previous page and the last has no next page. */
  lemma SectionEnds()
    ensures GetPreviousNextNavigation("/encyclopedia/ailments").previous.None?
    ensures GetPreviousNextNavigation("/encyclopedia/sources").next.None?
  {
    assert StartsWith("/encyclopedia/ailments", "/encyclopedia");
    assert StartsWith("/encyclopedia/sources", "/encyclopedia");
  }

  /** No links: the home page and a section root lie outside every page list; the wiki's only page is both first and last. */
  lemma NoNeighbours()
    ensures GetPreviousNextNavigation("/") == PreviousNext(None, None)
    ensures GetPreviousNextNavigation("/encyclopedia") == PreviousNext(None, None)
    ensures GetPreviousNextNavigation("/wiki/game-core") == PreviousNext(None, None)
  {
    assert !StartsWith("/", "/encyclopedia") && !StartsWith("/", "/wiki");
    assert StartsWith("/encyclopedia", "/encyclopedia");
    assert "/wiki/game-core"[..13][1] == 'w';
    assert !StartsWith("/wiki/game-core", "/encyclopedia") && StartsWith("/wiki/game-core", "/wiki");
  }

  /** Following `next` and then `previous` leads back to the page one started on. */
  lemma NextThenPrevious(routePath: string)
    requires GetPreviousNextNavigation(routePath).next.Some?
    ensures var after := GetPreviousNextNavigation(routePath).next.value.path;
      GetPreviousNextNavigation(after).previous.Some?
      && GetPreviousNextNavigation(after).previous.value.path == routePath
  {
    var context := GetCurrentNavigationContext(routePath);
    var siblings := context.navigation.value.children;
    var i := FindIndex(siblings, routePath);
    var after := siblings[i + 1].path;
    SamePrefixWithinSection(siblings, "/encyclopedia", i + 1);
    assert GetCurrentNavigationContext(after) == context;
    EncyclopediaPathsDistinct();
    FoundAtOwnIndex(siblings, i + 1);
  }

  /** Every encyclopedia page lies under `/encyclopedia`. */
  lemma SamePrefixWithinSection(siblings: seq<NavigationItem>, prefix: string, k: nat)
    requires siblings == EncyclopediaPages && prefix == "/encyclopedia" && k < |siblings|
    ensures StartsWith(siblings[k].path, prefix)
  {
  }

  /** Whether no two items share a path. */
  predicate DistinctPaths(items: seq<NavigationItem>)
  {
    forall a, b :: 0 <= a < b < |items| ==> items[a].path != items[b].path
  }

  /** Among items with distinct paths, each is found at its own index. */
  lemma FoundAtOwnIndex(items: seq<NavigationItem>, k: nat)
    requires DistinctPaths(items) && k < |items|
    ensures FindIndex(items, items[k].path) == k
  {
  }

  /** The encyclopedia's pages have pairwise different paths. */
  lemma EncyclopediaPathsDistinct()
    ensures DistinctPaths(EncyclopediaPages)
  {
    var pages := EncyclopediaPages;
    assert pages[0].path[14] == 'a' && pages[1].path[14] == 'b';
    assert pages[2].path[14] == 'd' && pages[3].path[14] == 's';
  }

  // ----- Search -----

  /** Whether the title or the description contains the query, compared in lower case. */
  predicate Matches(item: NavigationItem, query: string, toLowerCase: string -> string)
  {
    Includes(toLowerCase(item.title), toLowerCase(query))
    || (item.description.Some? && Includes(toLowerCase(item.description.value), toLowerCase(query)))
  }

  /** The items of a forest in pre-order: each item, then its children, then its later siblings. */
  function PreOrder(items: seq<NavigationItem>): seq<NavigationItem>
    decreases items
  {
    if items == [] then []
    else Visit(items[0]) + PreOrder(items[1..])
  }

  function Visit(item: NavigationItem): seq<NavigationItem>
    decreases item
  {
    [item] + PreOrder(item.children)
  }

  lemma {:induction false} PreOrderAppend(xs: seq<NavigationItem>, ys: seq<NavigationItem>)
    ensures PreOrder(xs + ys) == PreOrder(xs) + PreOrder(ys)
  {
    if xs == [] {
      assert xs + ys == ys;
    } else {
      assert (xs + ys)[0] == xs[0];
      assert (xs + ys)[1..] == xs[1..] + ys;
      PreOrderAppend(xs[1..], ys);
    }
  }

  /** The items of `items` that match, in order. */
  function Matching(items: seq<NavigationItem>, query: string, toLowerCase: string -> string): (found: seq<NavigationItem>)
    ensures |found| <= |items|
  {
    if items == [] then []
    else if Matches(items[0], query, toLowerCase) then [items[0]] + Matching(items[1..], query, toLowerCase)
    else Matching(items[1..], query, toLowerCase)
  }

  lemma {:induction false} MatchingAppend(xs: seq<NavigationItem>, ys: seq<NavigationItem>, query: string, toLowerCase: string -> string)
    ensures Matching(xs + ys, query, toLowerCase) == Matching(xs, query, toLowerCase) + Matching(ys, query, toLowerCase)
  {
    if xs == [] {
      assert xs + ys == ys;
    } else {
      assert (xs + ys)[0] == xs[0];
      assert (xs + ys)[1..] == xs[1..] + ys;
      MatchingAppend(xs[1..], ys, query, toLowerCase);
      if Matches(xs[0], query, toLowerCase) {
        assert Matching(xs + ys, query, toLowerCase)
          == [xs[0]] + (Matching(xs[1..], query, toLowerCase) + Matching(ys, query, toLowerCase));
      }
    }
  }

  /** An item is found exactly when it is in the tree and matches. */
  lemma {:induction false} MatchingMembers(items: seq<NavigationItem>, query: string, toLowerCase: string -> string, item: NavigationItem)
    ensures item in Matching(items, query, toLowerCase) <==> item in items && Matches(item, query, toLowerCase)
  {
    if items != [] {
      MatchingMembers(items[1..], query, toLowerCase, item);
      assert items == [items[0]] + items[1..];
    }
  }

  /** Appends to `results` the matching items of `items` and of their descendants, in pre-order. */
  method SearchInItems(items: seq<NavigationItem>, query: string, toLowerCase: string -> string, results: seq<NavigationItem>)
    returns (found: seq<NavigationItem>)
    ensures found == results + Matching(PreOrder(items), query, toLowerCase)
    decreases items
  {
    found := results;
    var index := 0;
    while index < |items|
      invariant 0 <= index <= |items|
      invariant found == results + Matching(PreOrder(items[..index]), query, toLowerCase)
    {
      var item := items[index];
      ghost var visited := Matching(PreOrder(items[..index]), query, toLowerCase);
      ghost var own: seq<NavigationItem> := if Matches(item, query, toLowerCase) then [item] else [];
      ghost var below := Matching(PreOrder(item.children), query, toLowerCase);
      VisitStep(items, index, query, toLowerCase);
      var matchesTitle := Includes(toLowerCase(item.title), toLowerCase(query));
      var matchesDescription := item.description.Some? && Includes(toLowerCase(item.description.value), toLowerCase(query));
      if matchesTitle || matchesDescription {
        found := found + [item];
      }
      assert found == results + visited + own;
      if item.children != [] {
        found := SearchInItems(item.children, query, toLowerCase, found);
      } else {
        assert below == [];
      }
      Reassociate(results, visited, own, below);
      index := index + 1;
    }
    assert items[..index] == items;
  }

  lemma Reassociate<T>(a: seq<T>, b: seq<T>, c: seq<T>, d: seq<T>)
    ensures a + b + c + d == a + (b + c + d)
  {
  }

  /** Extending the visited prefix by one item adds that item's matches and its descendants'. */
  lemma VisitStep(items: seq<NavigationItem>, index: nat, query: string, toLowerCase: string -> string)
    requires index < |items|
    ensures Matching(PreOrder(items[..index + 1]), query, toLowerCase)
      == Matching(PreOrder(items[..index]), query, toLowerCase)
         + (if Matches(items[index], query, toLowerCase) then [items[index]] else [])
         + Matching(PreOrder(items[index].children), query, toLowerCase)
  {
    var item := items[index];
    assert items[..index + 1] == items[..index] + [item];
    PreOrderAppend(items[..index], [item]);
    assert PreOrder([item]) == Visit(item) by {
      assert [item][1..] == [];
    }
    MatchingAppend(PreOrder(items[..index]), Visit(item), query, toLowerCase);
    MatchingAppend([item], PreOrder(item.children), query, toLowerCase);
  }

  method SearchNavigation(query: string, toLowerCase: string -> string) returns (results: seq<NavigationItem>)
    ensures results == Matching(PreOrder(MainNavigation), query, toLowerCase)
  {
    results := SearchInItems(MainNavigation, query, toLowerCase, []);
  }

  /** The tree in pre-order: home, the encyclopedia and its four pages, the wiki and its page. */
  lemma MainNavigationPreOrder()
    ensures PreOrder(MainNavigation) ==
      [HomeItem, EncyclopediaNavigation[0]] + EncyclopediaPages + [WikiNavigation[0]] + WikiPages
  {
    PreOrderAppend([HomeItem] + EncyclopediaNavigation, WikiNavigation);
    PreOrderAppend([HomeItem], EncyclopediaNavigation);
    assert PreOrder(EncyclopediaPages) == EncyclopediaPages;
    assert PreOrder(WikiPages) == WikiPages;
  }
}
