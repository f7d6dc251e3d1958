/** The widget catalogue and the layout validator over arbitrary JSON (packages/shared/src/workspace-layout.ts). */
module WorkspaceLayout {
  import opened JsonValues
  import opened Grids

  const WIDGETS: seq<string> := [
    "operations", "rooms", "metrics", "drr", "revenue", "activity", "arrivals", "departures", "inhouse",
    "unassigned", "availability", "tasks", "maintenance", "requests", "occupancy", "adr", "revpar", "pickup",
    "bookingPace", "earnedRevenue", "financialSummary", "housekeeping", "services"]

  const PRESETS: seq<string> := ["frontdesk", "reservations", "operations", "revenue", "management"]

  function TemplateWidgets(preset: string): seq<string> {
    match preset
    case "frontdesk" => ["arrivals", "departures", "inhouse", "rooms", "operations", "tasks"]
    case "reservations" => ["arrivals", "availability", "unassigned", "operations", "activity"]
    case "operations" =>
      ["housekeeping", "maintenance", "tasks", "requests", "services", "arrivals", "operations"]
    case "revenue" =>
      ["occupancy", "adr", "revpar", "earnedRevenue", "pickup", "bookingPace", "revenue", "availability", "activity"]
    case "management" =>
      ["occupancy", "adr", "revpar", "earnedRevenue", "financialSummary", "drr", "operations", "rooms", "pickup",
       "bookingPace", "activity"]
    case _ => []
  }

  // ----- Field checks ---------------------------------------------------------

  predicate IdChar(c: char) {
    'a' <= c <= 'z' || 'A' <= c <= 'Z' || '0' <= c <= '9' || c == '_' || c == '-'
  }

  predicate Identifier(v: Json) {
    v.Str? && 1 <= |v.s| <= 80 && forall i :: 0 <= i < |v.s| ==> IdChar(v.s[i])
  }

  predicate Blank(c: char) {
    '\t' <= c <= '\r' || c in " \U{00A0}\U{1680}\U{2028}\U{2029}\U{202F}\U{205F}\U{3000}\U{FEFF}"
    || '\U{2000}' <= c <= '\U{200A}'
  }

  predicate PageName(v: Json) {
    && v.Str? && |v.s| <= 80
    && (exists i :: 0 <= i < |v.s| && !Blank(v.s[i]))
    && forall i :: 0 <= i < |v.s| ==> v.s[i] != '<' && v.s[i] != '>' && v.s[i] >= ' '
  }

  predicate Hex(c: char) {
    '0' <= c <= '9' || 'a' <= c <= 'f' || 'A' <= c <= 'F'
  }

  predicate Uuid(v: Json) {
    && v.Str? && |v.s| == 36
    && forall i :: 0 <= i < 36 ==> if i in {8, 13, 18, 23} then v.s[i] == '-' else Hex(v.s[i])
  }

  predicate SettingsOk(s: Json) {
    && s.Obj? && s.fields.Keys <= {"propertyId", "period", "density"}
    && Among(Get(s, "period"), ["today", "next7", "next28", "past7", "past28"])
    && Among(Get(s, "density"), ["comfortable", "compact"])
    && (Get(s, "propertyId").Undefined? || Uuid(Get(s, "propertyId")))
  }

  function IntField(g: Json, key: string): int {
    if IsInt(Get(g, key)) then Get(g, key).n.Floor else 0
  }

  function GridOf(g: Json): Grid {
    Grid(IntField(g, "x"), IntField(g, "y"), IntField(g, "w"), IntField(g, "h"))
  }

  predicate GridOk(g: Json) {
    && g.Obj? && g.fields.Keys <= {"x", "y", "w", "h"}
    && IsInt(Get(g, "x")) && IsInt(Get(g, "y")) && IsInt(Get(g, "w")) && IsInt(Get(g, "h"))
    && ValidGrid(GridOf(g))
  }

  function GridJson(g: Grid): Json {
    Obj(map["x" := Num(g.x as real), "y" := Num(g.y as real), "w" := Num(g.w as real), "h" := Num(g.h as real)])
  }

  lemma GridRoundTrip(g: Grid)
    ensures GridOk(GridJson(g)) <==> ValidGrid(g)
    ensures GridOk(GridJson(g)) ==> GridOf(GridJson(g)) == g
  {
    var j := GridJson(g);
    assert Get(j, "x") == Num(g.x as real) && Get(j, "y") == Num(g.y as real);
    assert Get(j, "w") == Num(g.w as real) && Get(j, "h") == Num(g.h as real);
  }

  // ----- The validator --------------------------------------------------------

  predicate SmallSize(v: Json) {
    v in [Num(1.0), Num(2.0), Num(3.0)]
  }

  /** Everything the validator asks of one widget, apart from a version 3 grid. */
  predicate WidgetShape(w: Json, version: int) {
    && w.Obj?
    && w.fields.Keys <=
       (if version == 2 then {"id", "type", "width", "height", "settings"} else {"id", "type", "grid", "settings"})
    && Identifier(Get(w, "id")) && Among(Get(w, "type"), WIDGETS)
    && (version == 2 ==> SmallSize(Get(w, "width")) && SmallSize(Get(w, "height")))
    && SettingsOk(Get(w, "settings"))
  }

  ghost predicate DistinctField(ws: seq<Json>, key: string) {
    forall i, j :: 0 <= i < j < |ws| ==> Get(ws[i], key) != Get(ws[j], key)
  }

  predicate PageFields(p: Json) {
    && p.Obj? && p.fields.Keys <= {"id", "name", "preset", "widgets"}
    && Identifier(Get(p, "id")) && PageName(Get(p, "name")) && Among(Get(p, "preset"), PRESETS)
    && Get(p, "widgets").Arr? && |Get(p, "widgets").items| <= 24
  }

  ghost predicate WidgetsShape(ws: seq<Json>, version: int) {
    && (forall i :: 0 <= i < |ws| ==> WidgetShape(ws[i], version))
    && DistinctField(ws, "id") && DistinctField(ws, "type")
  }

  /** The grids are valid and share no cell. */
  ghost predicate CellsOk(ws: seq<Json>) {
    && (forall i :: 0 <= i < |ws| ==> GridOk(Get(ws[i], "grid")))
    && forall i, j :: 0 <= i < j < |ws| ==> !Overlap(GridOf(Get(ws[i], "grid")), GridOf(Get(ws[j], "grid")))
  }

  ghost predicate WidgetsOk(ws: seq<Json>, version: int) {
    WidgetsShape(ws, version) && (version == 3 ==> CellsOk(ws))
  }

  /** What the validator asks of one widget on its own. */
  predicate WidgetOk(w: Json, version: int) {
    WidgetShape(w, version) && (version == 3 ==> GridOk(Get(w, "grid")))
  }

  ghost predicate PageOk(p: Json, version: int) {
    PageFields(p) && WidgetsOk(Get(p, "widgets").items, version)
  }

  predicate LayoutFields(v: Json) {
    && v.Obj? && v.fields.Keys <= {"version", "startPageId", "pages"}
    && Get(v, "version") in [Num(2.0), Num(3.0)] && Identifier(Get(v, "startPageId"))
    && Get(v, "pages").Arr? && 1 <= |Get(v, "pages").items| <= 8
  }

  function Version(v: Json): int {
    if Get(v, "version") == Num(2.0) then 2 else 3
  }

  ghost predicate PagesOk(pages: seq<Json>, version: int) {
    (forall i :: 0 <= i < |pages| ==> PageOk(pages[i], version)) && DistinctField(pages, "id")
  }

  ghost predicate HasPage(pages: seq<Json>, id: Json) {
    exists i :: 0 <= i < |pages| && Get(pages[i], "id") == id
  }

  /** What the validator accepts: a complete version 2 or version 3 layout. */
  ghost predicate LayoutOk(v: Json) {
    && LayoutFields(v) && PagesOk(Get(v, "pages").items, Version(v))
    && HasPage(Get(v, "pages").items, Get(v, "startPageId"))
  }

  ghost function FieldValues(ws: seq<Json>, key: string): set<Json> {
    set i | 0 <= i < |ws| :: Get(ws[i], key)
  }

  /** Distinctness grows one element at a time, by a look-up in the set of values met so far. */
  lemma DistinctStep(ws: seq<Json>, n: nat, key: string)
    requires n < |ws|
    ensures FieldValues(ws[..n + 1], key) == FieldValues(ws[..n], key) + {Get(ws[n], key)}
    ensures DistinctField(ws[..n + 1], key) <==>
      DistinctField(ws[..n], key) && Get(ws[n], key) !in FieldValues(ws[..n], key)
  {
    var a, b := ws[..n], ws[..n + 1];
    assert b == a + [ws[n]];
    forall x ensures x in FieldValues(b, key) <==> x in FieldValues(a, key) + {Get(ws[n], key)} {
      if x in FieldValues(a, key) {
        var i :| 0 <= i < n && Get(a[i], key) == x;
        assert Get(b[i], key) == x;
      }
      if x == Get(ws[n], key) {
        assert Get(b[n], key) == x;
      }
    }
    if DistinctField(b, key) {
      assert forall i, j :: 0 <= i < j < n ==> Get(b[i], key) != Get(b[j], key);
      forall i | 0 <= i < n ensures Get(a[i], key) != Get(ws[n], key) {
        assert b[i] == a[i] && b[n] == ws[n];
      }
    }
    if DistinctField(a, key) && Get(ws[n], key) !in FieldValues(a, key) {
      forall i, j | 0 <= i < j < |b| ensures Get(b[i], key) != Get(b[j], key) {
        assert b[i] == a[i] && Get(a[i], key) in FieldValues(a, key);
      }
    }
  }

  lemma DistinctPrefix(ws: seq<Json>, n: nat, key: string)
    requires n <= |ws|
    ensures DistinctField(ws, key) ==> DistinctField(ws[..n], key)
  {}

  method IsWorkspaceLayout(v: Json) returns (ok: bool)
    ensures ok <==> LayoutOk(v)
  {
    hide PageOk, Identifier;
    if !LayoutFields(v) {
      return false;
    }
    var pages := Get(v, "pages").items;
    var ids: set<Json> := {};
    for n := 0 to |pages|
      invariant forall i :: 0 <= i < n ==> PageOk(pages[i], Version(v))
      invariant DistinctField(pages[..n], "id") && ids == FieldValues(pages[..n], "id")
    {
      DistinctStep(pages, n, "id");
      DistinctPrefix(pages, n + 1, "id");
      if Get(pages[n], "id") in ids {
        return false;
      }
      var pageOk := CheckPage(pages[n], Version(v));
      if !pageOk {
        return false;
      }
      ids := ids + {Get(pages[n], "id")};
    }
    assert pages[..|pages|] == pages;
    ok := Get(v, "startPageId") in ids;
  }

  /** The body of the validator's page loop. */
  method CheckPage(page: Json, version: int) returns (ok: bool)
    requires version == 2 || version == 3
    ensures ok <==> PageOk(page, version)
  {
    if !PageFields(page) {
      return false;
    }
    var ws := Get(page, "widgets").items;
    ok := CheckWidgets(ws, version);
    if ok && version == 3 && AnyOverlap(ws) {
      ok := false;
    }
  }

  /** The validator's loop over the widgets of one page. */
  method CheckWidgets(ws: seq<Json>, version: int) returns (ok: bool)
    ensures ok <==> AllWidgetsOk(ws, version) && DistinctField(ws, "id") && DistinctField(ws, "type")
  {
    var types: set<Json>, widgetIds: set<Json> := {}, {};
    for n := 0 to |ws|
      invariant AllWidgetsOk(ws[..n], version)
      invariant DistinctField(ws[..n], "id") && widgetIds == FieldValues(ws[..n], "id")
      invariant DistinctField(ws[..n], "type") && types == FieldValues(ws[..n], "type")
    {
      DistinctStep(ws, n, "id");
      DistinctStep(ws, n, "type");
      if !WidgetOk(ws[n], version) {
        return false;
      }
      if Get(ws[n], "id") in widgetIds || Get(ws[n], "type") in types {
        DistinctPrefix(ws, n + 1, "id");
        DistinctPrefix(ws, n + 1, "type");
        return false;
      }
      AllWidgetsStep(ws, n, version);
      widgetIds := widgetIds + {Get(ws[n], "id")};
      types := types + {Get(ws[n], "type")};
    }
    assert ws[..|ws|] == ws;
    ok := true;
  }

  ghost predicate AllWidgetsOk(ws: seq<Json>, version: int) {
    forall i :: 0 <= i < |ws| ==> WidgetOk(ws[i], version)
  }

  lemma AllWidgetsStep(ws: seq<Json>, n: nat, version: int)
    requires n < |ws| && AllWidgetsOk(ws[..n], version) && WidgetOk(ws[n], version)
    ensures AllWidgetsOk(ws[..n + 1], version)
  {
    var a, b := ws[..n], ws[..n + 1];
    forall i | 0 <= i < |b| ensures WidgetOk(b[i], version) {
      if i < n {
        assert b[i] == a[i];
      }
    }
  }

  predicate AnyOverlap(ws: seq<Json>) {
    exists i, j :: 0 <= i < j < |ws| && Overlap(GridOf(Get(ws[i], "grid")), GridOf(Get(ws[j], "grid")))
  }
}
