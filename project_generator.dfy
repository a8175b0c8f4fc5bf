/** The bookkeeping of generating a Flutter project: the package slug, the
    `pubspec.yaml` arguments with the image-dependency flag, the route table
    and import list of `main.dart`, and for each page the split of its
    widgets into positioned widgets, app bar and bottom navigation, the
    navigation routes and the index of the current page.  The generated
    files are a dictionary from path to rendered template, written in the
    order the generator writes them. */
module ProjectGen {
  import opened Wrappers
  import opened PyText
  import OrderedDict
  import opened ProjectModel
  import opened Converters
  import opened WidgetGen

  /** `x or default` for an optional string: `None` and `""` are false. */
  function OrText(x: Option<string>, default: string): string {
    if x.Some? && x.value != "" then x.value else default
  }

  /** `x or default` for an optional float: `None` and `0.0` are false. */
  function OrReal(x: Option<real>, default: real): real {
    if x.Some? && x.value != 0.0 then x.value else default
  }

  /** `name.title().replace(' ', '') + "Page"` */
  function PageClassName(name: string): string {
    ReplaceAll(Title(name), " ", "") + "Page"
  }

  /** `name.lower().replace(' ', '_') + "_page.dart"` */
  function PageFileName(name: string): string {
    Slug(name) + "_page.dart"
  }

  function ImportLine(page: Page): string {
    "import 'pages/" + PageFileName(page.name) + "';"
  }

  function Route(page: Page): string {
    "/" + page.name
  }

  // ---------------------------------------------------------------------
  // pubspec.yaml

  /** Some widget on some page is an image. */
  predicate AnyImage(pages: seq<Page>) {
    exists i, j :: 0 <= i < |pages| && 0 <= j < |pages[i].widgets| && pages[i].widgets[j].kind == "image"
  }

  /** The flag loop of `_update_pubspec`, with its two `break`s. */
  method DetectImages(pages: seq<Page>) returns (hasImages: bool)
    ensures hasImages <==> AnyImage(pages)
  {
    hasImages := false;
    var i := 0;
    while i < |pages|
      invariant 0 <= i <= |pages|
      invariant !hasImages ==> forall i', j :: 0 <= i' < i && 0 <= j < |pages[i'].widgets| ==> pages[i'].widgets[j].kind != "image"
      invariant hasImages ==> AnyImage(pages)
      decreases if hasImages then 0 else |pages| - i
    {
      var widgets := pages[i].widgets;
      var j := 0;
      while j < |widgets|
        invariant 0 <= j <= |widgets|
        invariant !hasImages ==> forall j' :: 0 <= j' < j ==> widgets[j'].kind != "image"
        invariant hasImages ==> AnyImage(pages)
        decreases if hasImages then 0 else |widgets| - j
      {
        if widgets[j].kind == "image" {
          hasImages := true;
          break;
        }
        j := j + 1;
      }
      if hasImages {
        break;
      }
      i := i + 1;
    }
  }

  function Pubspec(project: FlutterProject, hasImages: bool): Code {
    Template("pubspec.yaml.j2", map[
      "project_name" := Literal(Slug(project.name)),
      "description" := Literal(OrText(project.description, "A new Flutter project: " + project.name)),
      "version" := Literal(OrText(project.version, "1.0.0+1")),
      "has_images" := Flag(hasImages)])
  }

  // ---------------------------------------------------------------------
  // main.dart

  function InitialRoute(pages: seq<Page>): string {
    if |pages| > 0 then Route(pages[0]) else "/"
  }

  function Imports(pages: seq<Page>): seq<string> {
    seq(|pages|, i requires 0 <= i < |pages| => ImportLine(pages[i]))
  }

  function RouteEntries(pages: seq<Page>): seq<(string, string)> {
    seq(|pages|, i requires 0 <= i < |pages| => (Route(pages[i]), PageClassName(pages[i].name)))
  }

  /** The loop of `_generate_main_dart` filling `page_imports` and `routes`. */
  method CollectRoutes(pages: seq<Page>) returns (imports: seq<string>, routes: OrderedDict.Dict<string, string>)
    ensures imports == Imports(pages)
    ensures routes == OrderedDict.PutAll([], RouteEntries(pages))
  {
    imports := [];
    routes := [];
    var i := 0;
    while i < |pages|
      invariant 0 <= i <= |pages|
      invariant imports == Imports(pages[..i])
      invariant routes == OrderedDict.PutAll([], RouteEntries(pages[..i]))
    {
      var page := pages[i];
      assert RouteEntries(pages[..i + 1]) == RouteEntries(pages[..i]) + [(Route(page), PageClassName(page.name))];
      OrderedDict.PutAllSnoc([], RouteEntries(pages[..i]), (Route(page), PageClassName(page.name)));
      imports := imports + [ImportLine(page)];
      routes := OrderedDict.Put(routes, Route(page), PageClassName(page.name));
      i := i + 1;
    }
    assert pages[..i] == pages;
  }

  function MainDart(project: FlutterProject): Code {
    Template("main.dart.j2", map[
      "app_name" := Literal(project.name),
      "page_imports" := Texts(Imports(project.pages)),
      "initial_route" := Literal(InitialRoute(project.pages)),
      "routes" := Pairs(OrderedDict.PutAll([], RouteEntries(project.pages))),
      "theme_primary_color" := Literal(project.theme.primaryColor)])
  }

  // ---------------------------------------------------------------------
  // One page.

  /** The widgets that are positioned on the page, in order. */
  function Positioned(widgets: seq<FlutterWidget>): seq<FlutterWidget> {
    if widgets == [] then []
    else
      var rest := Positioned(widgets[..|widgets| - 1]);
      if Unwrapped(widgets[|widgets| - 1].kind) then rest else rest + [widgets[|widgets| - 1]]
  }

  /** The code of each positioned widget; the first failure is raised. */
  function PositionedCode(widgets: seq<FlutterWidget>, screenWidth: real, screenHeight: real): Result<seq<Code>> {
    if widgets == [] then Ok([])
    else
      var init :- PositionedCode(widgets[..|widgets| - 1], screenWidth, screenHeight);
      var w := widgets[|widgets| - 1];
      if Unwrapped(w.kind) then Ok(init)
      else
        var code :- WidgetCode(w, screenWidth, screenHeight);
        Ok(init + [code])
  }

  /** The last widget of a kind: each one met by the loop replaces the
      previous. */
  function LastOfKind(widgets: seq<FlutterWidget>, kind: string): Option<FlutterWidget> {
    if widgets == [] then None
    else if widgets[|widgets| - 1].kind == kind then Some(widgets[|widgets| - 1])
    else LastOfKind(widgets[..|widgets| - 1], kind)
  }

  /** The partition loop of `_generate_page`. */
  method Partition(widgets: seq<FlutterWidget>, screenWidth: real, screenHeight: real)
    returns (regular: Result<seq<Code>>, appbar: Option<FlutterWidget>, bottomnav: Option<FlutterWidget>)
    ensures regular == PositionedCode(widgets, screenWidth, screenHeight)
    ensures regular.Ok? ==> appbar == LastOfKind(widgets, "appbar") && bottomnav == LastOfKind(widgets, "bottomnavbar")
  {
    var codes: seq<Code> := [];
    appbar := None;
    bottomnav := None;
    var i := 0;
    while i < |widgets|
      invariant 0 <= i <= |widgets|
      invariant PositionedCode(widgets[..i], screenWidth, screenHeight) == Ok(codes)
      invariant appbar == LastOfKind(widgets[..i], "appbar")
      invariant bottomnav == LastOfKind(widgets[..i], "bottomnavbar")
    {
      var w := widgets[i];
      assert widgets[..i + 1][..i] == widgets[..i];
      if w.kind == "appbar" {
        appbar := Some(w);
      } else if w.kind == "bottomnavbar" {
        bottomnav := Some(w);
      } else {
        var code := WidgetCode(w, screenWidth, screenHeight);
        if code.Err? {
          PositionedCodeFailsWhole(widgets, i + 1, screenWidth, screenHeight);
          assert widgets[..|widgets|] == widgets;
          return Err(code.error), appbar, bottomnav;
        }
        codes := codes + [code.value];
      }
      i := i + 1;
    }
    assert widgets[..i] == widgets;
    regular := Ok(codes);
  }

  /** The index of the first occurrence of `x`. */
  function FirstIndex(s: seq<string>, x: string): (r: nat)
    requires x in s
    ensures r < |s| && s[r] == x
    ensures forall j :: 0 <= j < r ==> s[j] != x
  {
    if s[0] == x then 0 else 1 + FirstIndex(s[1..], x)
  }

  /** `current_nav_index`: where the page's own route first appears in the
      navigation routes, and 0 when there is no navigation or no match. */
  function NavIndex(hasNav: bool, routes: seq<string>, current: string): nat {
    if hasNav && routes != [] && current in routes then FirstIndex(routes, current) else 0
  }

  function NavRoutes(project: FlutterProject, hasNav: bool): seq<string> {
    if hasNav then seq(|project.pages|, i requires 0 <= i < |project.pages| => Route(project.pages[i])) else []
  }

  /** `generate_widget` of the optional app bar or navigation bar, on the
      default 390 x 844 screen. */
  function SlotCode(w: Option<FlutterWidget>): Result<Arg> {
    match w
    case None => Ok(Absent)
    case Some(x) =>
      var code :- WidgetCode(x, 390.0, 844.0);
      Ok(Nested(code))
  }

  /** `_generate_page`: the file name and the rendered page. */
  function PageFile(page: Page, project: FlutterProject): Result<(string, Code)> {
    var width := OrReal(page.screenWidth, 390.0);
    var height := OrReal(page.screenHeight, 844.0);
    var regular :- PositionedCode(page.widgets, width, height);
    var appbar := LastOfKind(page.widgets, "appbar");
    var bottomnav := LastOfKind(page.widgets, "bottomnavbar");
    var appbarCode :- SlotCode(appbar);
    var bottomnavCode :- SlotCode(bottomnav);
    var routes := NavRoutes(project, bottomnav.Some?);
    Ok((PageFileName(page.name), Template("page.dart.j2", map[
      "page_class_name" := Literal(PageClassName(page.name)),
      "page_title" := Literal(page.name),
      "background_color" := Literal(HexToDartColor(OrText(page.backgroundColor, "#FFFFFF"))),
      "widgets" := Entries(seq(|regular|, i requires 0 <= i < |regular| => map["code" := Nested(regular[i])])),
      "appbar" := appbarCode,
      "bottomnav" := bottomnavCode,
      "page_routes" := Texts(routes),
      "current_nav_index" := Number(NavIndex(bottomnav.Some?, routes, Route(page)) as real),
      "screen_width" := Number(width),
      "screen_height" := Number(height)])))
  }

  // ---------------------------------------------------------------------
  // The whole project.

  function PageFiles(pages: seq<Page>, project: FlutterProject): Result<seq<(string, Code)>> {
    if pages == [] then Ok([])
    else
      var init :- PageFiles(pages[..|pages| - 1], project);
      var file :- PageFile(pages[|pages| - 1], project);
      Ok(init + [("lib/pages/" + file.0, file.1)])
  }

  /** `generate_flutter_project` up to the archive: `main.dart`, one file per
      page (a later page with the same file name overwrites an earlier
      one), then `pubspec.yaml`. */
  function ProjectFiles(project: FlutterProject, hasImages: bool): Result<OrderedDict.Dict<string, Code>> {
    var pages :- PageFiles(project.pages, project);
    Ok(OrderedDict.PutAll(OrderedDict.PutAll([("lib/main.dart", MainDart(project))], pages),
                          [("pubspec.yaml", Pubspec(project, hasImages))]))
  }

  // ---------------------------------------------------------------------
  // Properties.

  /** The package slug keeps the length, has no space and no upper-case
      letter, and slugging twice changes nothing. */
  lemma SlugShape(name: string)
    ensures |Slug(name)| == |name|
    ensures ' ' !in Slug(name)
    ensures forall c :: c in Slug(name) ==> !IsUpperAscii(c)
    ensures Slug(Slug(name)) == Slug(name)
  {
    var s := Slug(name);
    forall i | 0 <= i < |s| ensures s[i] != ' ' && !IsUpperAscii(s[i]) {
    }
    assert Lower(s) == s;
  }

  /** Missing or empty descriptions and versions take their defaults. */
  lemma PubspecDefaults(project: FlutterProject, hasImages: bool)
    requires project.description.None? || project.description == Some("")
    requires project.version.None? || project.version == Some("")
    ensures Pubspec(project, hasImages).args["description"] == Literal("A new Flutter project: " + project.name)
    ensures Pubspec(project, hasImages).args["version"] == Literal("1.0.0+1")
    ensures Pubspec(project, hasImages).args["project_name"] == Literal(Slug(project.name))
  {
  }

  /** The initial route is the first page's route, which the route table
      leads to that page's class, or `/` without pages. */
  lemma InitialRouteIsFirstPage(pages: seq<Page>)
    ensures pages == [] ==> InitialRoute(pages) == "/"
    ensures pages != [] ==> (InitialRoute(pages) == "/" + pages[0].name
      && OrderedDict.Lookup(OrderedDict.PutAll([], RouteEntries(pages)), InitialRoute(pages)) == Some(PageClassName(pages[0].name)))
  {
    if pages != [] {
      RouteTable(pages);
    }
  }

  /** One import per page in page order; the route table has each route
      once, at the place of its first page, and maps it to that page's
      class. */
  lemma {:induction false} RouteTable(pages: seq<Page>)
    ensures |Imports(pages)| == |pages|
    ensures forall i :: 0 <= i < |pages| ==> Imports(pages)[i] == "import 'pages/" + Slug(pages[i].name) + "_page.dart';"
    ensures var routes := OrderedDict.PutAll([], RouteEntries(pages));
      && OrderedDict.Keys(routes) == OrderedDict.Fresh(OrderedDict.Keys(RouteEntries(pages)), [])
      && (forall i :: 0 <= i < |pages| ==>
            OrderedDict.Lookup(routes, Route(pages[i])) == Some(PageClassName(pages[i].name)))
  {
    var entries := RouteEntries(pages);
    OrderedDict.PutAllKeys([], entries);
    forall i | 0 <= i < |pages|
      ensures OrderedDict.Lookup(OrderedDict.PutAll([], entries), Route(pages[i])) == Some(PageClassName(pages[i].name))
    {
      OrderedDict.PutAllLookup([], entries, Route(pages[i]));
      LastRouteEntry(pages, i);
    }
  }

  /** Pages with the same route have the same class name, so the value a
      later page writes equals the one it replaces. */
  lemma {:induction false} LastRouteEntry(pages: seq<Page>, i: nat)
    requires i < |pages|
    ensures OrderedDict.LastValue(RouteEntries(pages), Route(pages[i])) == Some(PageClassName(pages[i].name))
  {
    var n := |pages|;
    var entries := RouteEntries(pages);
    assert entries[..n - 1] == RouteEntries(pages[..n - 1]);
    if entries[n - 1].0 != Route(pages[i]) {
      assert i < n - 1;
      LastRouteEntry(pages[..n - 1], i);
    } else {
      assert pages[n - 1].name == pages[i].name by {
        assert ("/" + pages[n - 1].name)[1..] == pages[n - 1].name;
        assert ("/" + pages[i].name)[1..] == pages[i].name;
      }
    }
  }

  lemma {:induction false} PositionedCodeFailsWhole(widgets: seq<FlutterWidget>, k: nat, screenWidth: real, screenHeight: real)
    requires k <= |widgets| && PositionedCode(widgets[..k], screenWidth, screenHeight).Err?
    ensures PositionedCode(widgets, screenWidth, screenHeight) == PositionedCode(widgets[..k], screenWidth, screenHeight)
    decreases |widgets| - k
  {
    if k < |widgets| {
      assert widgets[..k + 1][..k] == widgets[..k];
      PositionedCodeFailsWhole(widgets, k + 1, screenWidth, screenHeight);
    } else {
      assert widgets[..k] == widgets;
    }
  }

  /** Every widget other than an app bar or navigation bar gets exactly one
      code, in the original order. */
  lemma {:induction false} PositionedCodeIsPerWidget(widgets: seq<FlutterWidget>, screenWidth: real, screenHeight: real)
    requires PositionedCode(widgets, screenWidth, screenHeight).Ok?
    ensures var codes := PositionedCode(widgets, screenWidth, screenHeight).value;
      && |codes| == |Positioned(widgets)|
      && forall j :: 0 <= j < |codes| ==> WidgetCode(Positioned(widgets)[j], screenWidth, screenHeight) == Ok(codes[j])
  {
    if widgets != [] {
      PositionedCodeIsPerWidget(widgets[..|widgets| - 1], screenWidth, screenHeight);
    }
  }

  /** `Positioned` keeps exactly the widgets that are not app bars or
      navigation bars, in order. */
  lemma {:induction false} PositionedFilters(widgets: seq<FlutterWidget>)
    ensures forall w :: w in Positioned(widgets) <==> w in widgets && !Unwrapped(w.kind)
    ensures |Positioned(widgets)| <= |widgets|
  {
    if widgets != [] {
      PositionedFilters(widgets[..|widgets| - 1]);
      assert widgets == widgets[..|widgets| - 1] + [widgets[|widgets| - 1]];
    }
  }

  /** The slot widget is the last of its kind; none means there is none. */
  lemma {:induction false} LastOfKindIsLast(widgets: seq<FlutterWidget>, kind: string)
    ensures LastOfKind(widgets, kind).None? <==> forall j :: 0 <= j < |widgets| ==> widgets[j].kind != kind
    ensures LastOfKind(widgets, kind).Some? ==>
      exists i :: 0 <= i < |widgets| && widgets[i] == LastOfKind(widgets, kind).value && widgets[i].kind == kind
                  && forall j :: i < j < |widgets| ==> widgets[j].kind != kind
  {
    if widgets != [] {
      var n := |widgets|;
      LastOfKindIsLast(widgets[..n - 1], kind);
      assert forall j :: 0 <= j < n - 1 ==> widgets[..n - 1][j] == widgets[j];
    }
  }

  /** The navigation index: 0 without navigation or without a match,
      otherwise the first position of the page's route. */
  lemma NavIndexIsFirstMatch(hasNav: bool, routes: seq<string>, current: string)
    ensures !hasNav || current !in routes ==> NavIndex(hasNav, routes, current) == 0
    ensures hasNav && current in routes ==>
      var k := NavIndex(hasNav, routes, current);
      k < |routes| && routes[k] == current && forall j :: 0 <= j < k ==> routes[j] != current
  {
  }

  /** A page without a navigation bar gets no routes; with one, it gets the
      route of every page of the project in order, its own among them. */
  lemma NavRoutesOfPage(project: FlutterProject, page: Page, hasNav: bool)
    requires page in project.pages
    ensures !hasNav ==> NavRoutes(project, hasNav) == []
    ensures hasNav ==> (|NavRoutes(project, hasNav)| == |project.pages| && Route(page) in NavRoutes(project, hasNav))
    ensures hasNav ==> forall i :: 0 <= i < |project.pages| ==> NavRoutes(project, hasNav)[i] == Route(project.pages[i])
  {
    if hasNav {
      var i :| 0 <= i < |project.pages| && project.pages[i] == page;
      assert NavRoutes(project, hasNav)[i] == Route(page);
    }
  }

  /** The page defaults: a white background and a 390 x 844 screen when the
      page gives none, or an empty colour or a zero size, which `or` treats
      alike. */
  lemma PageDefaults(page: Page, project: FlutterProject)
    requires page.backgroundColor in {None, Some("")}
    requires page.screenWidth in {None, Some(0.0)} && page.screenHeight in {None, Some(0.0)}
    requires PageFile(page, project).Ok?
    ensures var (name, code) := PageFile(page, project).value;
      && name == Slug(page.name) + "_page.dart"
      && code.Template?
      && code.args["background_color"] == Literal("Color(0xFFFFFFFF)")
      && code.args["screen_width"] == Number(390.0)
      && code.args["screen_height"] == Number(844.0)
  {
    WhiteBackground();
  }

  lemma WhiteBackground()
    ensures HexToDartColor(OrText(None, "#FFFFFF")) == "Color(0xFFFFFFFF)"
  {
    assert "#FFFFFF"[1..] == "FFFFFF";
    assert Upper("FFFFFF") == "FFFFFF";
  }

  /** Every page of a project that renders has a file among the page files;
      a page that fails to render fails them all. */
  lemma {:induction false} EveryPageHasFile(pages: seq<Page>, project: FlutterProject, i: nat)
    requires i < |pages| && PageFiles(pages, project).Ok?
    ensures PageFile(pages[i], project).Ok?
    ensures OrderedDict.LastValue(PageFiles(pages, project).value, "lib/pages/" + PageFile(pages[i], project).value.0).Some?
  {
    var n := |pages|;
    var files := PageFiles(pages, project).value;
    var init := PageFiles(pages[..n - 1], project).value;
    var last := PageFile(pages[n - 1], project).value;
    assert files == init + [("lib/pages/" + last.0, last.1)];
    assert files[..|files| - 1] == init;
    if i < n - 1 {
      EveryPageHasFile(pages[..n - 1], project, i);
      assert pages[..n - 1][i] == pages[i];
    }
  }
}
