/** The version 2 to 3 conversion and the templates (packages/shared/src/workspace-layout.ts). */
module WorkspaceConversion {
  import opened Common
  import opened JsonValues
  import opened Grids
  import opened Packing
  import opened WorkspaceLayout

  type JsonCard = Card<Json, map<string, Json>>

  function KindOf(t: Json): string {
    if t.Str? then t.s else ""
  }

  function ToCard(fields: map<string, Json>, grid: Option<Grid>): JsonCard {
    Card(Get(Obj(fields), "id"), KindOf(Get(Obj(fields), "type")), grid, fields)
  }

  function FromCard(c: JsonCard): Json
    requires c.grid.Some?
  {
    Obj(c.rest["grid" := GridJson(c.grid.value)])
  }

  /** Packing widgets on the canonical canvas. */
  function PackedWidgets(cards: seq<JsonCard>): (ws: seq<Json>)
    ensures |ws| == |cards|
  {
    Unpacked(Pack(cards, 12, None))
  }

  function Unpacked(cards: seq<JsonCard>): (ws: seq<Json>)
    requires forall i :: 0 <= i < |cards| ==> cards[i].grid.Some?
    ensures |ws| == |cards|
  {
    seq(|cards|, i requires 0 <= i < |cards| => FromCard(cards[i]))
  }

  // ----- Row flow -------------------------------------------------------------

  /** `size ?? 1`. */
  function SizeOf(v: Json): int {
    if v.Num? then v.n.Floor else 1
  }

  function FlowSize(w: Json): (int, int) {
    (SizeOf(Get(w, "width")) * 4, Min(16, SizeOf(Get(w, "height")) * DefaultGrid(KindOf(Get(w, "type"))).h))
  }

  /** Cards laid left to right; a card that no longer fits starts a new row below the tallest card of its row. */
  function Flow(sizes: seq<(int, int)>, cursorX: int, cursorY: int, rowHeight: int): (gs: seq<Grid>)
    ensures |gs| == |sizes|
  {
    if sizes == [] then []
    else
      var (w, h) := sizes[0];
      var wraps := cursorX + w > 12;
      var y := if wraps then cursorY + rowHeight else cursorY;
      var x := if wraps then 0 else cursorX;
      var row := if wraps then 0 else rowHeight;
      [Grid(x, y, w, h)] + Flow(sizes[1..], x + w, y, Max(row, h))
  }

  ghost predicate FlowSizes(sizes: seq<(int, int)>) {
    forall i :: 0 <= i < |sizes| ==> 2 <= sizes[i].0 <= 12 && 3 <= sizes[i].1 <= 16
  }

  /** Right of the cursor in the cursor's row, or below that row. */
  ghost predicate Ahead(g: Grid, cx: int, cy: int, rh: int) {
    (g.y == cy && cx <= g.x) || cy + Max(rh, 3) <= g.y
  }

  ghost predicate Cursor(cx: int, cy: int, rh: int) {
    0 <= cx <= 12 && 0 <= cy && (cx == 0 || 3 <= rh) && 0 <= rh <= 16
  }

  /** Every flowed cell is valid and lies ahead of the cursor. */
  lemma {:induction false} FlowIsAhead(sizes: seq<(int, int)>, cx: int, cy: int, rh: int)
    requires FlowSizes(sizes) && Cursor(cx, cy, rh) && cy + 16 * |sizes| <= MAX_ROW
    ensures forall g <- Flow(sizes, cx, cy, rh) :: ValidGrid(g) && Ahead(g, cx, cy, rh)
  {
    if sizes != [] {
      var first := Flow(sizes, cx, cy, rh)[0];
      FlowIsAhead(sizes[1..], first.x + first.w, first.y, Max(if cx + first.w > 12 then 0 else rh, first.h));
    }
  }

  /** No two flowed cells overlap. */
  lemma {:induction false} FlowIsDisjoint(sizes: seq<(int, int)>, cx: int, cy: int, rh: int)
    requires FlowSizes(sizes) && Cursor(cx, cy, rh) && cy + 16 * |sizes| <= MAX_ROW
    ensures Disjoint(Flow(sizes, cx, cy, rh))
  {
    if sizes != [] {
      var gs := Flow(sizes, cx, cy, rh);
      var first := gs[0];
      var row := Max(if cx + first.w > 12 then 0 else rh, first.h);
      FlowIsDisjoint(sizes[1..], first.x + first.w, first.y, row);
      FlowIsAhead(sizes[1..], first.x + first.w, first.y, row);
      DisjointCons(first, Flow(sizes[1..], first.x + first.w, first.y, row));
    }
  }

  lemma DisjointCons(first: Grid, rest: seq<Grid>)
    requires Disjoint(rest) && forall g <- rest :: !Overlap(first, g)
    ensures Disjoint([first] + rest)
  {
    var gs := [first] + rest;
    forall i, j | 0 <= i < j < |gs| ensures !Overlap(gs[i], gs[j]) {
      assert gs[j] == rest[j - 1];
      assert i > 0 ==> gs[i] == rest[i - 1];
    }
  }

  /** The lowest bottom, not above base, of the cells that start in row y. */
  function RowBottom(gs: seq<Grid>, y: int, base: int): int {
    if gs == [] then base
    else RowBottom(gs[1..], y, if gs[0].y == y then Max(base, y + gs[0].h) else base)
  }

  /** Cells i and i + 1 are neighbours in a row, or cell i + 1 starts the next row right below the row of cell i. */
  ghost predicate TightAt(gs: seq<Grid>, i: nat, cy: int, rh: int)
    requires i + 1 < |gs|
  {
    var a, b := gs[i], gs[i + 1];
    if a.x + a.w + b.w <= 12 then b.x == a.x + a.w && b.y == a.y
    else b.x == 0 && b.y == RowBottom(gs[..i + 1], a.y, if a.y == cy then cy + rh else 0)
  }

  lemma FlowUnfolds(sizes: seq<(int, int)>, cx: int, cy: int, rh: int) returns (first: Grid, row: int)
    requires sizes != []
    ensures (first.w, first.h) == sizes[0]
    ensures if cx + first.w > 12 then first.x == 0 && first.y == cy + rh && row == Max(0, first.h)
            else first.x == cx && first.y == cy && row == Max(rh, first.h)
    ensures Flow(sizes, cx, cy, rh) == [first] + Flow(sizes[1..], first.x + first.w, first.y, row)
  {
    first := Flow(sizes, cx, cy, rh)[0];
    row := Max(if cx + first.w > 12 then 0 else rh, first.h);
  }

  /**
   * The flow is tight: a card that fits stands directly right of the one before it, and a card
   * that does not starts a new row at column 0 directly below the tallest card of the row before.
   */
  lemma {:induction false} FlowIsTight(sizes: seq<(int, int)>, cx: int, cy: int, rh: int, i: nat)
    requires FlowSizes(sizes) && Cursor(cx, cy, rh) && cy + 16 * |sizes| <= MAX_ROW && i + 1 < |sizes|
    ensures TightAt(Flow(sizes, cx, cy, rh), i, cy, rh)
  {
    hide Flow, TightAt;
    var first, row := FlowUnfolds(sizes, cx, cy, rh);
    var rest := Flow(sizes[1..], first.x + first.w, first.y, row);
    if i == 0 {
      var second, _ := FlowUnfolds(sizes[1..], first.x + first.w, first.y, row);
      assert rest[0] == second;
      TightFirst(first, rest, cy, rh, row);
    } else {
      FlowIsTight(sizes[1..], first.x + first.w, first.y, row, i - 1);
      FlowIsAhead(sizes[1..], first.x + first.w, first.y, row);
      assert rest[i - 1] in rest;
      TightLater(first, rest, i, cy, rh, row);
    }
  }

  lemma TightFirst(first: Grid, rest: seq<Grid>, cy: int, rh: int, row: int)
    requires rest != [] && rh >= 0 && first.h >= 3
    requires (first.y == cy && row == Max(rh, first.h)) || (first.y == cy + rh && rh >= 3 && cy >= 0 && row == first.h)
    requires if first.x + first.w + rest[0].w > 12 then rest[0].x == 0 && rest[0].y == first.y + row
             else rest[0].x == first.x + first.w && rest[0].y == first.y
    ensures TightAt([first] + rest, 0, cy, rh)
  {
    var gs := [first] + rest;
    assert gs[..1] == [first] + [];
    RowBottomCons(first, [], first.y, if first.y == cy then cy + rh else 0);
  }

  lemma TightLater(first: Grid, rest: seq<Grid>, i: nat, cy: int, rh: int, row: int)
    requires 1 <= i < |rest| && rh >= 0 && first.h >= 3 && cy >= 0
    requires (first.y == cy && row == Max(rh, first.h)) || (first.y == cy + rh && rh >= 3 && row == first.h)
    requires rest[i - 1].y >= first.y && TightAt(rest, i - 1, first.y, row)
    ensures TightAt([first] + rest, i, cy, rh)
  {
    var gs := [first] + rest;
    assert gs[i] == rest[i - 1] && gs[i + 1] == rest[i] && gs[..i + 1] == [first] + rest[..i];
    RowBottomCons(first, rest[..i], gs[i].y, if gs[i].y == cy then cy + rh else 0);
  }

  lemma RowBottomCons(first: Grid, rest: seq<Grid>, y: int, base: int)
    ensures RowBottom([first] + rest, y, base)
      == RowBottom(rest, y, if first.y == y then Max(base, y + first.h) else base)
  {
    assert ([first] + rest)[1..] == rest;
  }

  // ----- normalizeWorkspace ---------------------------------------------------

  function Sizes(ws: seq<Json>): (s: seq<(int, int)>)
    ensures |s| == |ws|
  {
    seq(|ws|, i requires 0 <= i < |ws| => FlowSize(ws[i]))
  }

  /** `({ width, height, ...widget }) => ({ ...widget, grid })` */
  function Regridded(w: Json, g: Grid): JsonCard {
    ToCard(Spread(w) - {"width", "height"}, Some(g))
  }

  function FlowCards(ws: seq<Json>): (cards: seq<JsonCard>)
    ensures |cards| == |ws|
  {
    var gs := Flow(Sizes(ws), 0, 0, 0);
    seq(|ws|, i requires 0 <= i < |ws| => Regridded(ws[i], gs[i]))
  }

  predicate HasWidgets(p: Json) {
    p.Obj? && Get(p, "widgets").Arr?
  }

  function WidgetsOf(p: Json): seq<Json> {
    if Get(p, "widgets").Arr? then Get(p, "widgets").items else []
  }

  function NormalizePage(p: Json): Json {
    WithWidgets(p, PackedWidgets(FlowCards(WidgetsOf(p))))
  }

  /** `{ ...page, widgets }` */
  function WithWidgets(p: Json, ws: seq<Json>): Json {
    Obj(Spread(p)["widgets" := Arr(ws)])
  }

  lemma WithWidgetsFields(p: Json, ws: seq<Json>)
    requires p.Obj? && Get(p, "widgets").Arr? && |ws| == |Get(p, "widgets").items|
    ensures var r := WithWidgets(p, ws);
      && (PageFields(r) <==> PageFields(p)) && Get(r, "widgets") == Arr(ws)
      && Get(r, "id") == Get(p, "id") && Get(r, "name") == Get(p, "name") && Get(r, "preset") == Get(p, "preset")
  {
    var r := WithWidgets(p, ws);
    assert r.fields.Keys == p.fields.Keys;
  }

  function Normalize(v: Json): Json
    requires LayoutFields(v)
  {
    if Version(v) == 3 then v
    else
      WithPages(v, NormalizedPages(Get(v, "pages").items))
  }

  function NormalizedPages(pages: seq<Json>): (r: seq<Json>)
    ensures |r| == |pages|
  {
    seq(|pages|, i requires 0 <= i < |pages| => NormalizePage(pages[i]))
  }

  /** `{ ...layout, version: 3, pages }` */
  function WithPages(v: Json, pages: seq<Json>): Json
    requires v.Obj?
  {
    Obj(v.fields["version" := Num(3.0)]["pages" := Arr(pages)])
  }

  lemma WithPagesFields(v: Json, pages: seq<Json>)
    requires LayoutFields(v) && |pages| == |Get(v, "pages").items|
    ensures var r := WithPages(v, pages);
      && LayoutFields(r) && Version(r) == 3
      && Get(r, "pages") == Arr(pages) && Get(r, "startPageId") == Get(v, "startPageId")
  {
    var r := WithPages(v, pages);
    assert r.fields.Keys == v.fields.Keys;
  }

  /** The cursor loop over the widgets of one page. */
  method FlowLoop(sizes: seq<(int, int)>) returns (grids: seq<Grid>)
    ensures grids == Flow(sizes, 0, 0, 0)
  {
    var cursorX, cursorY, rowHeight := 0, 0, 0;
    grids := [];
    for i := 0 to |sizes|
      invariant grids + Flow(sizes[i..], cursorX, cursorY, rowHeight) == Flow(sizes, 0, 0, 0)
    {
      var (w, h) := sizes[i];
      assert sizes[i..][1..] == sizes[i + 1..];
      ghost var rest := Flow(sizes[i..], cursorX, cursorY, rowHeight);
      if cursorX + w > 12 {
        cursorY := cursorY + rowHeight;
        cursorX := 0;
        rowHeight := 0;
      }
      var grid := Grid(cursorX, cursorY, w, h);
      cursorX := cursorX + w;
      rowHeight := Max(rowHeight, h);
      assert rest == [grid] + Flow(sizes[i + 1..], cursorX, cursorY, rowHeight);
      grids := grids + [grid];
    }
  }

  method NormalizeWidgets(ws: seq<Json>) returns (r: seq<Json>)
    ensures r == PackedWidgets(FlowCards(ws))
  {
    var grids := FlowLoop(Sizes(ws));
    var cards := seq(|ws|, i requires 0 <= i < |ws| => Regridded(ws[i], grids[i]));
    var packed := PackWorkspace(cards, 12, None);
    r := Unpacked(packed);
  }

  method ConvertPage(p: Json) returns (r: Json)
    ensures r == NormalizePage(p)
  {
    var ws := NormalizeWidgets(WidgetsOf(p));
    r := WithWidgets(p, ws);
  }

  method NormalizeWorkspace(layout: Json) returns (r: Json)
    requires LayoutOk(layout)
    ensures r == Normalize(layout)
  {
    if Version(layout) == 3 {
      return layout;
    }
    var converted := NormalizePages(Get(layout, "pages").items);
    r := WithPages(layout, converted);
  }

  method NormalizePages(pages: seq<Json>) returns (converted: seq<Json>)
    ensures converted == NormalizedPages(pages)
  {
    hide NormalizePage;
    converted := [];
    for n := 0 to |pages|
      invariant |converted| == n && converted <= NormalizedPages(pages)
    {
      var page := ConvertPage(pages[n]);
      converted := converted + [page];
    }
  }

  lemma FlowSizesOk(ws: seq<Json>)
    requires WidgetsShape(ws, 2)
    ensures FlowSizes(Sizes(ws))
  {
    forall i | 0 <= i < |ws| ensures 2 <= Sizes(ws)[i].0 <= 12 && 3 <= Sizes(ws)[i].1 <= 16 {
      assert SmallSize(Get(ws[i], "width")) && SmallSize(Get(ws[i], "height"));
    }
  }

  /** The converted widget passes the version 3 checks and keeps identifier, type and settings. */
  lemma RegriddedWidgetOk(w: Json, g: Grid)
    requires WidgetShape(w, 2) && ValidGrid(g)
    ensures var r := FromCard(Regridded(w, g));
      && WidgetShape(r, 3) && GridOk(Get(r, "grid")) && GridOf(Get(r, "grid")) == g
      && SameWidget(r, w) && Regridded(w, g).id == Get(w, "id")
  {
    GridRoundTrip(g);
  }

  lemma FlowCardsDistinct(ws: seq<Json>)
    requires DistinctField(ws, "id")
    ensures DistinctIds(FlowCards(ws))
  {
    var cards := FlowCards(ws);
    forall i, j | 0 <= i < j < |cards| ensures cards[i].id != cards[j].id {
      assert cards[i].id == Get(ws[i], "id") && cards[j].id == Get(ws[j], "id");
    }
  }

  lemma FlowCardsSettled(ws: seq<Json>)
    requires FlowSizes(Sizes(ws)) && |ws| <= 24
    ensures Settled(FlowCards(ws)) && forall c <- FlowCards(ws) :: ValidGrid(c.grid.value)
  {
    var gs := Flow(Sizes(ws), 0, 0, 0);
    FlowIsAhead(Sizes(ws), 0, 0, 0);
    FlowIsDisjoint(Sizes(ws), 0, 0, 0);
    assert forall i :: 0 <= i < |ws| ==> FlowCards(ws)[i].grid == Some(gs[i]);
  }

  /** The flowed cards are settled, so packing them changes nothing. */
  lemma FlowCardsArePacked(ws: seq<Json>)
    requires FlowSizes(Sizes(ws)) && |ws| <= 24 && DistinctField(ws, "id")
    ensures Pack(FlowCards(ws), 12, None) == FlowCards(ws)
  {
    FlowCardsDistinct(ws);
    FlowCardsSettled(ws);
    PackFixesSettledPage(FlowCards(ws), 12, None);
  }

  /** The same identifiers, types and settings, in the same order. */
  ghost predicate SameWidgets(a: seq<Json>, b: seq<Json>) {
    |a| == |b| && forall i :: 0 <= i < |a| ==> SameWidget(a[i], b[i])
  }

  ghost predicate SameWidget(a: Json, b: Json) {
    Get(a, "id") == Get(b, "id") && Get(a, "type") == Get(b, "type") && Get(a, "settings") == Get(b, "settings")
  }

  lemma SameWidgetsDistinct(a: seq<Json>, b: seq<Json>)
    requires SameWidgets(a, b) && DistinctField(b, "id") && DistinctField(b, "type")
    ensures DistinctField(a, "id") && DistinctField(a, "type")
  {}

  /** A converted page is exactly the row flow of its widgets, and passes the version 3 checks. */
  lemma NormalizedWidgetsOk(ws: seq<Json>)
    requires WidgetsShape(ws, 2) && |ws| <= 24
    ensures var r := PackedWidgets(FlowCards(ws));
      && WidgetsOk(r, 3) && SameWidgets(r, ws)
      && forall i :: 0 <= i < |r| ==> GridOf(Get(r[i], "grid")) == Flow(Sizes(ws), 0, 0, 0)[i]
  {
    hide WidgetShape, GridOk, GridOf, SameWidget, Pack, Flow, Regridded;
    var gs, cards, r := Flow(Sizes(ws), 0, 0, 0), FlowCards(ws), PackedWidgets(FlowCards(ws));
    FlowSizesOk(ws);
    FlowCardsArePacked(ws);
    FlowIsAhead(Sizes(ws), 0, 0, 0);
    forall i | 0 <= i < |ws|
      ensures WidgetShape(r[i], 3) && GridOk(Get(r[i], "grid")) && GridOf(Get(r[i], "grid")) == gs[i]
      ensures SameWidget(r[i], ws[i])
    {
      assert r[i] == FromCard(cards[i]) && cards[i] == Regridded(ws[i], gs[i]) && gs[i] in gs;
      RegriddedWidgetOk(ws[i], gs[i]);
    }
    SameWidgetsDistinct(r, ws);
    assert Disjoint(gs) by { FlowIsDisjoint(Sizes(ws), 0, 0, 0); }
    assert CellsOk(r);
  }

  /** The converted page keeps its identifier, name, preset and widgets. */
  ghost predicate SamePage(a: Json, b: Json) {
    && Get(a, "id") == Get(b, "id") && Get(a, "name") == Get(b, "name") && Get(a, "preset") == Get(b, "preset")
    && Get(a, "widgets").Arr? && Get(b, "widgets").Arr? && SameWidgets(Get(a, "widgets").items, Get(b, "widgets").items)
  }

  lemma NormalizedPageOk(p: Json)
    requires PageOk(p, 2)
    ensures PageOk(NormalizePage(p), 3) && SamePage(NormalizePage(p), p)
  {
    var ws := Get(p, "widgets").items;
    WithWidgetsFields(p, PackedWidgets(FlowCards(ws)));
    NormalizedWidgetsOk(ws);
  }

  /** The same start page and the same pages in the same order. */
  ghost predicate SameLayout(a: Json, b: Json) {
    && Get(a, "startPageId") == Get(b, "startPageId") && Get(a, "pages").Arr? && Get(b, "pages").Arr?
    && |Get(a, "pages").items| == |Get(b, "pages").items|
    && forall i :: 0 <= i < |Get(a, "pages").items| ==> SamePage(Get(a, "pages").items[i], Get(b, "pages").items[i])
  }

  /**
   * Every accepted layout converts to an accepted version 3 layout with the same start page,
   * pages, widgets and settings; converting again changes nothing.
   */
  lemma NormalizeIsSound(v: Json)
    requires LayoutOk(v)
    ensures LayoutOk(Normalize(v)) && Version(Normalize(v)) == 3 && SameLayout(Normalize(v), v)
    ensures Normalize(Normalize(v)) == Normalize(v)
  {
    if Version(v) == 2 {
      WithPagesFields(v, NormalizedPages(Get(v, "pages").items));
      NormalizedPagesOk(Get(v, "pages").items);
    }
  }

  lemma NormalizedPagesOk(pages: seq<Json>)
    requires PagesOk(pages, 2)
    ensures var r := NormalizedPages(pages);
      && PagesOk(r, 3) && (forall i :: 0 <= i < |r| ==> SamePage(r[i], pages[i]))
      && forall id :: HasPage(pages, id) ==> HasPage(r, id)
  {
    var r := NormalizedPages(pages);
    forall i | 0 <= i < |pages| ensures PageOk(r[i], 3) && SamePage(r[i], pages[i]) {
      assert PageOk(pages[i], 2);
      NormalizedPageOk(pages[i]);
    }
    forall id | HasPage(pages, id) ensures HasPage(r, id) {
      var i :| 0 <= i < |pages| && Get(pages[i], "id") == id;
      assert Get(r[i], "id") == id;
    }
  }

  // ----- The cells of a converted page ----------------------------------------

  /** The grids of a page's widgets. */
  function WidgetGrids(ws: seq<Json>): (gs: seq<Grid>)
    ensures |gs| == |ws|
  {
    seq(|ws|, i requires 0 <= i < |ws| => GridOf(Get(ws[i], "grid")))
  }

  /** A version 2 size on the canvas: a width unit is four columns, a height unit the widget's default height. */
  ghost predicate SizedFrom(g: Grid, w: Json) {
    && Get(w, "width").Num? && Get(w, "height").Num? && Get(w, "type").Str?
    && g.w as real == 4.0 * Get(w, "width").n
    && var height := Get(w, "height").n * DefaultGrid(Get(w, "type").s).h as real;
       g.h as real == if height <= 16.0 then height else 16.0
  }

  /**
   * The cells of a converted page: the first widget in the corner, every next one directly right of it or
   * below its row, each four columns a width unit and its default height a height unit, 16 rows at most.
   */
  lemma ConvertedCells(p: Json, i: nat)
    requires PageOk(p, 2) && i < |Get(p, "widgets").items|
    ensures
      var ws, r := Get(p, "widgets").items, Get(NormalizePage(p), "widgets");
      && r.Arr? && |r.items| == |ws|
      && var gs := WidgetGrids(r.items);
         && SizedFrom(gs[i], ws[i]) && gs[0].x == 0 && gs[0].y == 0
         && (i + 1 < |gs| ==> TightAt(gs, i, 0, 0))
  {
    hide TightAt, Flow, WidgetShape, GridOf, SizedFrom, FlowSize;
    var ws, r := Get(p, "widgets").items, PackedWidgets(FlowCards(Get(p, "widgets").items));
    var gs := Flow(Sizes(ws), 0, 0, 0);
    NormalizedWidgetsOk(ws);
    FlowSizesOk(ws);
    assert Get(NormalizePage(p), "widgets") == Arr(r);
    assert WidgetGrids(r) == gs;
    FlowKeepsSizes(Sizes(ws), 0, 0, 0, i);
    FlowSizeExactly(ws[i], gs[i]);
    var first, _ := FlowUnfolds(Sizes(ws), 0, 0, 0);
    assert FlowSizes(Sizes(ws)) && 2 <= Sizes(ws)[0].0 <= 12;
    if i + 1 < |gs| {
      FlowIsTight(Sizes(ws), 0, 0, 0, i);
    }
  }

  lemma {:induction false} FlowKeepsSizes(sizes: seq<(int, int)>, cx: int, cy: int, rh: int, i: nat)
    requires i < |sizes|
    ensures (Flow(sizes, cx, cy, rh)[i].w, Flow(sizes, cx, cy, rh)[i].h) == sizes[i]
  {
    hide Flow;
    var first, row := FlowUnfolds(sizes, cx, cy, rh);
    if i > 0 {
      FlowKeepsSizes(sizes[1..], first.x + first.w, first.y, row, i - 1);
    }
  }

  lemma FlowSizeExactly(w: Json, g: Grid)
    requires WidgetShape(w, 2) && (g.w, g.h) == FlowSize(w)
    ensures SizedFrom(g, w)
  {
    assert SmallSize(Get(w, "width")) && SmallSize(Get(w, "height"));
  }

  // ----- Templates ------------------------------------------------------------

  const DEFAULT_NAME := "Рабочий стол"

  function TypeFields(t: string): map<string, Json> {
    map["id" := Str(t), "type" := Str(t),
        "settings" := Obj(map["period" := Str("today"), "density" := Str("comfortable")])]
  }

  /** One card per widget type; templates leave the grid open, an upgraded version 1 layout asks for the default one. */
  function TypeCards(types: seq<string>, gridded: bool): (cards: seq<JsonCard>)
    ensures |cards| == |types|
  {
    seq(|types|, i requires 0 <= i < |types| =>
      ToCard(TypeFields(types[i]), if gridded then Some(DefaultGrid(types[i])) else None))
  }

  /** A one-page layout of the given widgets. */
  function SinglePage(preset: Json, id: string, name: string, ws: seq<Json>): Json {
    Obj(map["version" := Num(3.0), "startPageId" := Str(id), "pages" := Arr([
      Obj(map["id" := Str(id), "name" := Str(name), "preset" := preset, "widgets" := Arr(ws)])])])
  }

  function WorkspaceTemplate(preset: string, id: string, name: string): Json {
    SinglePage(Str(preset), id, name, PackedWidgets(TypeCards(TemplateWidgets(preset), false)))
  }

  lemma TypeWidgetOk(t: string, g: Grid)
    requires t in WIDGETS && ValidGrid(g)
    ensures var r := FromCard(ToCard(TypeFields(t), Some(g)));
      WidgetShape(r, 3) && GridOk(Get(r, "grid")) && GridOf(Get(r, "grid")) == g
      && Get(r, "id") == Str(t) && Get(r, "type") == Str(t)
  {
    WidgetNamesAreIdentifiers(t);
    GridRoundTrip(g);
    var r := FromCard(ToCard(TypeFields(t), Some(g)));
    assert Get(r, "id") == Str(t) && Get(r, "type") == Str(t) && Get(r, "grid") == GridJson(g);
    assert SettingsOk(Get(r, "settings"));
  }

  lemma WidgetNamesAreIdentifiers(t: string)
    requires t in WIDGETS
    ensures Identifier(Str(t))
  {
    hide Identifier;
    if t in ["operations", "rooms", "metrics", "drr", "revenue", "activity", "arrivals", "departures"] {
      FirstNames(t);
    } else if t in ["inhouse", "unassigned", "availability", "tasks", "maintenance", "requests", "occupancy", "adr"] {
      MiddleNames(t);
    } else {
      LastNames(t);
    }
  }

  lemma FirstNames(t: string)
    requires t in ["operations", "rooms", "metrics", "drr", "revenue", "activity", "arrivals", "departures"]
    ensures Identifier(Str(t))
  {}

  lemma MiddleNames(t: string)
    requires t in ["inhouse", "unassigned", "availability", "tasks", "maintenance", "requests", "occupancy", "adr"]
    ensures Identifier(Str(t))
  {}

  lemma LastNames(t: string)
    requires t in
      ["revpar", "pickup", "bookingPace", "earnedRevenue", "financialSummary", "housekeeping", "services"]
    ensures Identifier(Str(t))
  {}

  lemma TypeCardsDistinct(types: seq<string>, gridded: bool)
    requires Distinct(types)
    ensures DistinctIds(TypeCards(types, gridded))
  {
    var cards := TypeCards(types, gridded);
    forall i, j | 0 <= i < j < |cards| ensures cards[i].id != cards[j].id {
      assert cards[i].id == Str(types[i]) && cards[j].id == Str(types[j]);
    }
  }

  /** Packing any list of distinct known widget types gives an acceptable page. */
  lemma PackedTypesOk(types: seq<string>, gridded: bool)
    requires |types| <= 24 && Distinct(types) && forall t <- types :: t in WIDGETS
    ensures WidgetsOk(PackedWidgets(TypeCards(types, gridded)), 3)
  {
    hide WidgetShape, GridOk, GridOf, TypeFields, Pack, DefaultGrid;
    var cards, r := TypeCards(types, gridded), PackedWidgets(TypeCards(types, gridded));
    TypeCardsDistinct(types, gridded);
    PackIsSafe(cards, 12, None);
    var packed := Pack(cards, 12, None);
    forall i | 0 <= i < |r|
      ensures WidgetShape(r[i], 3) && GridOk(Get(r[i], "grid")) && GridOf(Get(r[i], "grid")) == packed[i].grid.value
      ensures Get(r[i], "id") == Str(types[i]) && Get(r[i], "type") == Str(types[i])
    {
      assert packed[i] == ToCard(TypeFields(types[i]), packed[i].grid);
      TypeWidgetOk(types[i], packed[i].grid.value);
    }
  }

  lemma SinglePageOk(preset: Json, id: string, name: string, ws: seq<Json>)
    requires Identifier(Str(id)) && PageName(Str(name)) && |ws| <= 24 && WidgetsOk(ws, 3)
    ensures LayoutOk(SinglePage(preset, id, name, ws)) <==> Among(preset, PRESETS)
    ensures Version(SinglePage(preset, id, name, ws)) == 3
  {
    hide WidgetsOk;
    var v := SinglePage(preset, id, name, ws);
    var p := Get(v, "pages").items[0];
    assert Get(p, "id") == Str(id) && Get(p, "name") == Str(name)
      && Get(p, "preset") == preset && Get(p, "widgets") == Arr(ws);
    assert PageFields(p) <==> Among(preset, PRESETS);
    assert PageOk(p, 3) <==> Among(preset, PRESETS);
    assert LayoutFields(v);
  }

  lemma TemplateTypesOk(preset: string)
    requires preset in PRESETS
    ensures var types := TemplateWidgets(preset);
      |types| <= 24 && Distinct(types) && forall t <- types :: t in WIDGETS
  {}

  /** Every template is an accepted version 3 layout. */
  lemma TemplateIsAccepted(preset: string, id: string, name: string)
    requires preset in PRESETS && Identifier(Str(id)) && PageName(Str(name))
    ensures LayoutOk(WorkspaceTemplate(preset, id, name)) && Version(WorkspaceTemplate(preset, id, name)) == 3
  {
    TemplateTypesOk(preset);
    var types := TemplateWidgets(preset);
    PackedTypesOk(types, false);
    SinglePageOk(Str(preset), id, name, PackedWidgets(TypeCards(types, false)));
  }

  /** A fresh widget of this type: named after it, with the default settings and a valid grid. */
  ghost predicate Fresh(w: Json, t: string) {
    && w.Obj? && w.fields.Keys == {"id", "type", "settings", "grid"}
    && Get(w, "id") == Str(t) && Get(w, "type") == Str(t)
    && Get(w, "settings") == Obj(map["period" := Str("today"), "density" := Str("comfortable")])
    && GridOk(Get(w, "grid"))
  }

  lemma FreshWidget(t: string, g: Grid)
    requires ValidGrid(g)
    ensures Fresh(FromCard(ToCard(TypeFields(t), Some(g))), t)
    ensures GridOf(Get(FromCard(ToCard(TypeFields(t), Some(g))), "grid")) == g
  {
    GridRoundTrip(g);
    var r := FromCard(ToCard(TypeFields(t), Some(g)));
    assert Get(r, "grid") == GridJson(g);
  }

  /** Packing fresh widgets keeps them all in order, each in turn in the cell it asks for or pushed from it. */
  lemma PackedTypesShow(types: seq<string>, gridded: bool, i: nat)
    requires |types| <= 24 && Distinct(types) && i < |types|
    ensures
      var r := PackedWidgets(TypeCards(types, gridded));
      && Fresh(r[i], types[i])
      && if gridded then PushedInTurn(WidgetGrids(r), i, Clamped(DefaultGrid(types[i]), 12), 12)
         else FirstInTurn(WidgetGrids(r), i, Clamped(DefaultGrid(types[i]), 12), 12)
  {
    hide Pack, TypeFields, DefaultGrid, Fresh, PushedInTurn, FirstInTurn, GridOf, Clamped;
    var cards, r := TypeCards(types, gridded), PackedWidgets(TypeCards(types, gridded));
    TypeCardsDistinct(types, gridded);
    PackIsSafe(cards, 12, None);
    var packed := Pack(cards, 12, None);
    forall k | 0 <= k < |r| ensures Fresh(r[k], types[k]) && GridOf(Get(r[k], "grid")) == packed[k].grid.value {
      assert packed[k] == ToCard(TypeFields(types[k]), packed[k].grid);
      FreshWidget(types[k], packed[k].grid.value);
    }
    assert WidgetGrids(r) == GridsOf(packed);
    EveryCellInTurn(cards, 12, i);
    KindOfType(types[i]);
  }

  lemma KindOfType(t: string)
    ensures ToCard(TypeFields(t), None).kind == t
  {}

  /** The one page of a layout. */
  ghost predicate OnePage(v: Json, preset: Json, id: string, name: string, ws: seq<Json>) {
    && Get(v, "version") == Num(3.0) && Get(v, "startPageId") == Str(id)
    && Get(v, "pages").Arr? && |Get(v, "pages").items| == 1
    && var p := Get(v, "pages").items[0];
       && Get(p, "id") == Str(id) && Get(p, "name") == Str(name) && Get(p, "preset") == preset
       && Get(p, "widgets") == Arr(ws)
  }

  lemma SinglePageIsOnePage(preset: Json, id: string, name: string, ws: seq<Json>)
    ensures OnePage(SinglePage(preset, id, name, ws), preset, id, name, ws)
  {
    var p := Get(SinglePage(preset, id, name, ws), "pages").items[0];
    assert Get(p, "id") == Str(id) && Get(p, "name") == Str(name);
  }

  /** A template is one page with the preset's widgets in order, each in the first free cell of its default size. */
  lemma TemplateShowsItsWidgets(preset: string, id: string, name: string)
    requires preset in PRESETS
    ensures exists ws ::
      && OnePage(WorkspaceTemplate(preset, id, name), Str(preset), id, name, ws)
      && |ws| == |TemplateWidgets(preset)|
      && forall i :: 0 <= i < |ws| ==>
           && Fresh(ws[i], TemplateWidgets(preset)[i])
           && FirstInTurn(WidgetGrids(ws), i, Clamped(DefaultGrid(TemplateWidgets(preset)[i]), 12), 12)
  {
    TemplateTypesOk(preset);
    var types := TemplateWidgets(preset);
    hide OnePage, SinglePage, Fresh, FirstInTurn, PackedWidgets, TypeCards, TemplateWidgets, Clamped, DefaultGrid,
      WidgetGrids;
    var ws := PackedWidgets(TypeCards(types, false));
    SinglePageIsOnePage(Str(preset), id, name, ws);
    forall i | 0 <= i < |ws|
      ensures Fresh(ws[i], types[i]) && FirstInTurn(WidgetGrids(ws), i, Clamped(DefaultGrid(types[i]), 12), 12)
    {
      PackedTypesShow(types, false, i);
    }
  }
}
