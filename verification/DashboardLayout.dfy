/** Reading a cached dashboard layout, whatever it contains (apps/dashboard/src/lib/dashboard-layout.ts). */
module DashboardLayout {
  import opened Common
  import opened JsonValues
  import opened Grids
  import opened Packing
  import opened WorkspaceLayout
  import opened WorkspaceConversion

  // ----- Repairing version 3 coordinates --------------------------------------

  /** `{...w, grid: validWorkspaceGrid(w.grid) ? w.grid : widgetDefaultGrid(w.type)}` */
  function RepairCard(w: Json): JsonCard {
    var stored := Get(w, "grid");
    ToCard(Spread(w), Some(if GridOk(stored) then GridOf(stored) else DefaultGrid(KindOf(Get(w, "type")))))
  }

  function RepairCards(ws: seq<Json>): (cards: seq<JsonCard>)
    ensures |cards| == |ws|
  {
    seq(|ws|, i requires 0 <= i < |ws| => RepairCard(ws[i]))
  }

  function RepairPage(p: Json): Json {
    WithWidgets(p, PackedWidgets(RepairCards(WidgetsOf(p))))
  }

  predicate RepairablePage(p: Json) {
    HasWidgets(p) && |Get(p, "widgets").items| <= 24 && forall w <- Get(p, "widgets").items :: !w.Null?
  }

  /** The guard of the repair; a null widget makes the source throw, which ends in the fallback as well. */
  predicate Repairable(v: Json) {
    && Get(v, "version") == Num(3.0) && Get(v, "pages").Arr? && |Get(v, "pages").items| <= 8
    && forall i :: 0 <= i < |Get(v, "pages").items| ==> RepairablePage(Get(v, "pages").items[i])
  }

  function RepairPages(pages: seq<Json>): (r: seq<Json>)
    ensures |r| == |pages|
  {
    seq(|pages|, i requires 0 <= i < |pages| => RepairPage(pages[i]))
  }

  function Repair(v: Json): Json
    requires Repairable(v)
  {
    WithPages(v, RepairPages(Get(v, "pages").items))
  }

  // ----- Upgrading version 1 --------------------------------------------------

  /** The known widget types among the values, each once, in order of first appearance. */
  function KnownTypes(ws: seq<Json>): (types: seq<string>)
    ensures Distinct(types) && forall t :: t in types <==> t in WIDGETS && Str(t) in ws
  {
    if ws == [] then []
    else
      var n := |ws| - 1;
      var types := KnownTypes(ws[..n]);
      assert ws == ws[..n] + [ws[n]];
      if Among(ws[n], WIDGETS) && ws[n].s !in types then types + [ws[n].s] else types
  }

  predicate Upgradable(v: Json) {
    && Get(v, "version") == Num(1.0) && Get(v, "widgets").Arr?
    && Spelling(Get(v, "preset")).Some? && Spelling(Get(v, "preset")).value in PRESETS
  }

  function Upgrade(v: Json): Json
    requires Upgradable(v)
  {
    SinglePage(Get(v, "preset"), "home", DEFAULT_NAME,
               PackedWidgets(TypeCards(KnownTypes(Get(v, "widgets").items), true)))
  }

  // ----- parseLayout ----------------------------------------------------------

  function Fallback(): Json {
    WorkspaceTemplate("management", "home", DEFAULT_NAME)
  }

  /** `None` is a cache that is not JSON at all. */
  ghost function Parsed(raw: Option<Json>): Json {
    match raw
    case None => Fallback()
    case Some(v) =>
      if LayoutOk(v) then Normalize(v)
      else if Repairable(v) && LayoutOk(Repair(v)) then Repair(v)
      else if Upgradable(v) then Upgrade(v)
      else Fallback()
  }

  method ParseLayout(raw: Option<Json>) returns (r: Json)
    ensures r == Parsed(raw)
  {
    if raw.None? {
      return Fallback();
    }
    hide LayoutOk, Normalize, Repair, Upgrade, SinglePage, WorkspaceTemplate;
    var v := raw.value;
    var accepted := IsWorkspaceLayout(v);
    if accepted {
      r := NormalizeWorkspace(v);
      return;
    }
    if Repairable(v) {
      var repaired := Repair(v);
      accepted := IsWorkspaceLayout(repaired);
      if accepted {
        return repaired;
      }
    }
    if Upgradable(v) {
      return Upgrade(v);
    }
    r := Fallback();
  }

  // ----- Every result is acceptable -------------------------------------------

  /** A version 1 layout whose preset is spelled by an array rather than a string. */
  predicate ArrayPreset(v: Json) {
    Upgradable(v) && !Get(v, "preset").Str?
  }

  lemma {:induction false} DistinctIsBounded(s: seq<string>, universe: set<string>)
    requires Distinct(s) && forall t <- s :: t in universe
    ensures |s| <= |universe|
  {
    if s != [] {
      var n := |s| - 1;
      DistinctIsBounded(s[..n], universe - {s[n]});
    }
  }

  lemma KnownTypesBounded(ws: seq<Json>)
    ensures |KnownTypes(ws)| <= 24
  {
    var universe := set t | t in WIDGETS;
    DistinctIsBounded(KnownTypes(ws), universe);
    SetOfSeq(WIDGETS);
  }

  lemma {:induction false} SetOfSeq(s: seq<string>)
    ensures |set t | t in s| <= |s|
  {
    if s != [] {
      var n := |s| - 1;
      SetOfSeq(s[..n]);
      assert (set t | t in s) == (set t | t in s[..n]) + {s[n]};
    }
  }

  lemma DefaultNameOk()
    ensures PageName(Str(DEFAULT_NAME)) && Identifier(Str("home"))
  {
    assert !Blank(DEFAULT_NAME[0]);
  }

  lemma UpgradeAccepted(v: Json)
    requires Upgradable(v)
    ensures LayoutOk(Upgrade(v)) <==> Get(v, "preset").Str?
    ensures Version(Upgrade(v)) == 3
  {
    hide WidgetsOk, PackedWidgets, LayoutOk, Version;
    var types := KnownTypes(Get(v, "widgets").items);
    KnownTypesBounded(Get(v, "widgets").items);
    DefaultNameOk();
    PackedTypesOk(types, true);
    SinglePageOk(Get(v, "preset"), "home", DEFAULT_NAME, PackedWidgets(TypeCards(types, true)));
  }

  lemma FallbackAccepted()
    ensures LayoutOk(Fallback()) && Version(Fallback()) == 3
  {
    DefaultNameOk();
    TemplateIsAccepted("management", "home", DEFAULT_NAME);
  }

  /**
   * Whatever the cache holds, the result is an accepted version 3 layout, with exactly one
   * exception: a version 1 layout whose preset is an array that spells a preset name.
   */
  lemma ParseIsSafe(raw: Option<Json>)
    ensures LayoutOk(Parsed(raw)) <==> !(raw.Some? && ArrayPreset(raw.value))
    ensures Version(Parsed(raw)) == 3
  {
    hide LayoutOk, Normalize, Repair, Upgrade, Fallback, Version;
    FallbackAccepted();
    if raw.Some? {
      var v := raw.value;
      if LayoutOk(v) {
        NormalizeIsSound(v);
        AcceptedIsNotV1(v);
      } else if Repairable(v) && LayoutOk(Repair(v)) {
        RepairedVersion(v);
      } else if Upgradable(v) {
        UpgradeAccepted(v);
      }
    }
  }

  lemma AcceptedIsNotV1(v: Json)
    requires LayoutOk(v)
    ensures !Upgradable(v)
  {}

  lemma RepairedVersion(v: Json)
    requires Repairable(v)
    ensures Version(Repair(v)) == 3
  {}

  /** The exception is real: this cached value is turned into a layout the validator refuses. */
  lemma ArrayPresetIsRefused()
    ensures var v := Obj(map["version" := Num(1.0), "preset" := Arr([Str("revenue")]), "widgets" := Arr([])]);
      ArrayPreset(v) && !LayoutOk(Parsed(Some(v)))
  {
    hide LayoutOk, Parsed;
    var v := Obj(map["version" := Num(1.0), "preset" := Arr([Str("revenue")]), "widgets" := Arr([])]);
    assert Get(v, "preset") == Arr([Str("revenue")]) && Spelling(Str("revenue")) == Some("revenue");
    ParseIsSafe(Some(v));
  }

  // ----- The repair touches coordinates only ----------------------------------

  /** Everything the validator asks of a version 3 layout except valid, disjoint grids. */
  ghost predicate SoundButForCells(v: Json) {
    && LayoutFields(v) && Version(v) == 3
    && (forall p <- Get(v, "pages").items :: PageFields(p) && WidgetsShape(Get(p, "widgets").items, 3))
    && DistinctField(Get(v, "pages").items, "id") && HasPage(Get(v, "pages").items, Get(v, "startPageId"))
  }

  /** The repaired widget differs from the stored one in its grid alone. */
  lemma RepairedWidgetShape(w: Json, g: Grid)
    requires ValidGrid(g)
    ensures var r := FromCard(RepairCard(w).(grid := Some(g)));
      && (WidgetShape(r, 3) <==> WidgetShape(w, 3)) && GridOk(Get(r, "grid")) && GridOf(Get(r, "grid")) == g
      && SameWidget(r, w) && RepairCard(w).id == Get(w, "id")
  {
    GridRoundTrip(g);
    var r := FromCard(RepairCard(w).(grid := Some(g)));
    assert Get(r, "grid") == GridJson(g) && r.fields.Keys == Spread(w).Keys + {"grid"};
  }

  /** Even when identifiers repeat, every repaired widget carries the identifier of its position. */
  lemma RepairedIds(ws: seq<Json>, i: nat)
    requires i < |ws|
    ensures Get(PackedWidgets(RepairCards(ws))[i], "id") == Get(ws[i], "id")
  {
    hide Pack, GridOk, GridOf, DefaultGrid, GridJson;
    var cards := RepairCards(ws);
    var k := PackedIsSomeCard(cards, 12, None, i);
    assert cards[k] == RepairCard(ws[k]) && cards[i] == RepairCard(ws[i]);
    RepairedId(ws[k], Pack(cards, 12, None)[i].grid.value);
    RepairedId(ws[i], Pack(cards, 12, None)[i].grid.value);
  }

  lemma RepairedId(w: Json, g: Grid)
    ensures RepairCard(w).id == Get(w, "id") && Get(FromCard(RepairCard(w).(grid := Some(g))), "id") == Get(w, "id")
  {
    hide GridOk, GridOf, DefaultGrid, GridJson;
  }

  lemma RepairedWidgets(ws: seq<Json>)
    requires |ws| <= 24 && DistinctField(ws, "id")
    ensures var r := PackedWidgets(RepairCards(ws));
      && CellsOk(r) && SameWidgets(r, ws)
      && forall i :: 0 <= i < |r| ==> (WidgetShape(r[i], 3) <==> WidgetShape(ws[i], 3))
  {
    hide WidgetShape, GridOk, GridOf, Pack, DefaultGrid, SameWidget;
    var cards, r := RepairCards(ws), PackedWidgets(RepairCards(ws));
    RepairCardsDistinct(ws);
    PackIsSafe(cards, 12, None);
    var packed := Pack(cards, 12, None);
    forall i | 0 <= i < |r|
      ensures WidgetShape(r[i], 3) <==> WidgetShape(ws[i], 3)
      ensures SameWidget(r[i], ws[i]) && GridOk(Get(r[i], "grid")) && GridOf(Get(r[i], "grid")) == packed[i].grid.value
    {
      assert packed[i] == RepairCard(ws[i]).(grid := packed[i].grid);
      RepairedWidgetShape(ws[i], packed[i].grid.value);
    }
  }

  lemma RepairCardsDistinct(ws: seq<Json>)
    requires DistinctField(ws, "id")
    ensures DistinctIds(RepairCards(ws))
  {
    var cards := RepairCards(ws);
    forall i, j | 0 <= i < j < |cards| ensures cards[i].id != cards[j].id {
      assert cards[i].id == Get(ws[i], "id") && cards[j].id == Get(ws[j], "id");
    }
  }

  /** Repairing a page makes it acceptable exactly when only its coordinates were wrong. */
  lemma RepairedWidgetsOk(ws: seq<Json>)
    requires |ws| <= 24
    ensures WidgetsOk(PackedWidgets(RepairCards(ws)), 3) <==> WidgetsShape(ws, 3)
    ensures WidgetsShape(ws, 3) ==> SameWidgets(PackedWidgets(RepairCards(ws)), ws)
  {
    hide WidgetShape, PackedWidgets, RepairCards, CellsOk;
    var r := PackedWidgets(RepairCards(ws));
    if DistinctField(ws, "id") {
      RepairedWidgets(ws);
    } else {
      var i, j :| 0 <= i < j < |ws| && Get(ws[i], "id") == Get(ws[j], "id");
      RepairedIds(ws, i);
      RepairedIds(ws, j);
      assert !DistinctField(r, "id");
    }
  }

  lemma RepairedPageOk(p: Json)
    requires RepairablePage(p)
    ensures PageOk(RepairPage(p), 3) <==> PageFields(p) && WidgetsShape(Get(p, "widgets").items, 3)
    ensures PageOk(RepairPage(p), 3) ==> SamePage(RepairPage(p), p)
    ensures Get(RepairPage(p), "id") == Get(p, "id")
  {
    hide WidgetsOk, WidgetsShape, PageFields, SameWidgets, PackedWidgets, RepairCards;
    var ws := Get(p, "widgets").items;
    WithWidgetsFields(p, PackedWidgets(RepairCards(ws)));
    RepairedWidgetsOk(ws);
  }

  lemma RepairedPagesOk(pages: seq<Json>)
    requires forall i :: 0 <= i < |pages| ==> RepairablePage(pages[i])
    ensures var r := RepairPages(pages);
      && (PagesOk(r, 3) <==>
          (DistinctField(pages, "id")
           && forall i :: 0 <= i < |pages| ==> PageFields(pages[i]) && WidgetsShape(Get(pages[i], "widgets").items, 3)))
      && (PagesOk(r, 3) ==> forall i :: 0 <= i < |r| ==> SamePage(r[i], pages[i]))
      && forall id :: HasPage(r, id) <==> HasPage(pages, id)
  {
    hide PageFields, WidgetsShape, PageOk, RepairPage, SamePage;
    var r := RepairPages(pages);
    forall i | 0 <= i < |pages|
      ensures PageOk(r[i], 3) <==> PageFields(pages[i]) && WidgetsShape(Get(pages[i], "widgets").items, 3)
      ensures PageOk(r[i], 3) ==> SamePage(r[i], pages[i])
      ensures Get(r[i], "id") == Get(pages[i], "id")
    {
      RepairedPageOk(pages[i]);
    }
  }

  lemma SoundIsRepairable(v: Json)
    requires SoundButForCells(v)
    ensures Repairable(v)
  {
    var pages := Get(v, "pages").items;
    forall i | 0 <= i < |pages| ensures RepairablePage(pages[i]) {
      var ws := Get(pages[i], "widgets").items;
      assert PageFields(pages[i]) && WidgetsShape(ws, 3);
      assert forall k :: 0 <= k < |ws| ==> WidgetShape(ws[k], 3);
    }
  }

  /** A repaired layout is accepted exactly when everything but its coordinates was in order. */
  lemma RepairAcceptedExactly(v: Json)
    requires Repairable(v)
    ensures LayoutOk(Repair(v)) <==> SoundButForCells(v)
    ensures LayoutOk(Repair(v)) ==> SameLayout(Repair(v), v)
  {
    hide PagesOk, PageFields, WidgetsShape, RepairPages, SamePage, HasPage;
    var pages := Get(v, "pages").items;
    RepairedPagesOk(pages);
    var r := Repair(v);
    assert r.fields.Keys == v.fields.Keys;
    assert Get(r, "pages") == Arr(RepairPages(pages)) && Get(r, "startPageId") == Get(v, "startPageId");
  }

  /**
   * A version 3 cache with wrong coordinates and nothing else wrong is kept, in order and with
   * its settings; a version 3 cache with anything else wrong is replaced by the default layout.
   */
  lemma RepairTouchesCellsOnly(v: Json)
    requires Get(v, "version") == Num(3.0)
    ensures SoundButForCells(v) ==> LayoutOk(Parsed(Some(v))) && SameLayout(Parsed(Some(v)), v)
    ensures !SoundButForCells(v) ==> Parsed(Some(v)) == Fallback()
    ensures LayoutOk(v) ==> Parsed(Some(v)) == v
  {
    hide LayoutOk, Repair, SameLayout, SoundButForCells, Fallback, Repairable;
    if LayoutOk(v) {
      AcceptedIsSound(v);
      NormalizeIsSound(v);
      AcceptedV3IsKept(v);
    } else {
      if Repairable(v) {
        RepairAcceptedExactly(v);
      } else if SoundButForCells(v) {
        SoundIsRepairable(v);
      }
      assert !Upgradable(v);
    }
  }

  lemma AcceptedV3IsKept(v: Json)
    requires LayoutOk(v) && Get(v, "version") == Num(3.0)
    ensures Normalize(v) == v
  {}

  lemma AcceptedIsSound(v: Json)
    requires LayoutOk(v) && Get(v, "version") == Num(3.0)
    ensures SoundButForCells(v)
  {
    hide WidgetsShape;
    forall p | p in Get(v, "pages").items ensures PageFields(p) && WidgetsShape(Get(p, "widgets").items, 3) {
      assert PageOk(p, 3);
    }
  }

  // ----- What the upgrade and the repair keep ---------------------------------

  /** Where a value first appears. */
  ghost predicate FirstAt(ws: seq<Json>, v: Json, k: nat) {
    k < |ws| && ws[k] == v && v !in ws[..k]
  }

  ghost predicate AppearsBefore(ws: seq<Json>, v: Json, w: Json) {
    exists a: nat, b: nat :: a < b && FirstAt(ws, v, a) && FirstAt(ws, w, b)
  }

  /** The known types appear in the order of their first appearance. */
  lemma {:induction false} KnownTypesInOrder(ws: seq<Json>, i: nat, j: nat)
    requires i < j < |KnownTypes(ws)|
    ensures AppearsBefore(ws, Str(KnownTypes(ws)[i]), Str(KnownTypes(ws)[j]))
  {
    var n := |ws| - 1;
    var before := KnownTypes(ws[..n]);
    var types := KnownTypes(ws);
    if j < |before| {
      KnownTypesInOrder(ws[..n], i, j);
      var a: nat, b: nat :| a < b && FirstAt(ws[..n], Str(types[i]), a) && FirstAt(ws[..n], Str(types[j]), b);
      FirstStays(ws, Str(types[i]), a);
      FirstStays(ws, Str(types[j]), b);
    } else {
      assert types[j] == ws[n].s && types[i] == before[i] && types[i] in before;
      var a := FirstAppearance(ws[..n], Str(types[i]));
      FirstStays(ws, Str(types[i]), a);
      assert FirstAt(ws, Str(types[j]), n);
    }
  }

  lemma {:induction false} FirstAppearance(ws: seq<Json>, v: Json) returns (k: nat)
    requires v in ws
    ensures FirstAt(ws, v, k)
  {
    var n := |ws| - 1;
    assert ws == ws[..n] + [ws[n]];
    if v in ws[..n] {
      k := FirstAppearance(ws[..n], v);
      FirstStays(ws, v, k);
    } else {
      k := n;
    }
  }

  lemma FirstStays(ws: seq<Json>, v: Json, k: nat)
    requires ws != [] && FirstAt(ws[..|ws| - 1], v, k)
    ensures FirstAt(ws, v, k)
  {
    assert ws[..|ws| - 1][..k] == ws[..k];
  }

  /** The widgets of an upgraded page: fresh ones for exactly the known names stored, in order of appearance. */
  ghost predicate UpgradedWidgets(ws: seq<Json>, stored: seq<Json>) {
    && (forall i :: 0 <= i < |ws| ==> UpgradedWidget(ws, i, stored))
    && (forall t <- WIDGETS :: Str(t) in stored ==> exists i :: 0 <= i < |ws| && Get(ws[i], "id") == Str(t))
    && forall i, j :: 0 <= i < j < |ws| ==> AppearsBefore(stored, Get(ws[i], "id"), Get(ws[j], "id"))
  }

  /** A fresh widget for a known name that is stored, pushed down from its default cell. */
  ghost predicate UpgradedWidget(ws: seq<Json>, i: nat, stored: seq<Json>)
    requires i < |ws|
  {
    var id := Get(ws[i], "id");
    && id in stored && id.Str? && id.s in WIDGETS && Fresh(ws[i], id.s)
    && PushedInTurn(WidgetGrids(ws), i, Clamped(DefaultGrid(id.s), 12), 12)
  }

  /**
   * A version 1 cache becomes one page, the start page, with the stored preset: a fresh widget for every
   * known name it lists, once, in order, each pushed down from its default cell as little as needed.
   */
  lemma UpgradeKeepsWidgets(v: Json)
    requires Upgradable(v)
    ensures exists ws ::
      OnePage(Parsed(Some(v)), Get(v, "preset"), "home", DEFAULT_NAME, ws)
      && UpgradedWidgets(ws, Get(v, "widgets").items)
  {
    hide LayoutOk, Repairable, OnePage, SinglePage, PackedWidgets, UpgradedWidgets;
    if LayoutOk(v) {
      AcceptedIsNotV1(v);
    }
    NotRepairable(v);
    var stored := Get(v, "widgets").items;
    var ws := PackedWidgets(TypeCards(KnownTypes(stored), true));
    SinglePageIsOnePage(Get(v, "preset"), "home", DEFAULT_NAME, ws);
    assert Parsed(Some(v)) == Upgrade(v);
    KnownTypesShow(stored);
  }

  /** An accepted version 2 cache is converted; what is neither accepted, repairable nor upgradable is replaced. */
  lemma ParsedOtherwise(v: Json)
    ensures Parsed(None) == WorkspaceTemplate("management", "home", DEFAULT_NAME)
    ensures LayoutOk(v) && Get(v, "version") == Num(2.0) ==> Parsed(Some(v)) == Normalize(v)
    ensures !LayoutOk(v) && !Upgradable(v) && Get(v, "version") != Num(3.0) ==>
      Parsed(Some(v)) == WorkspaceTemplate("management", "home", DEFAULT_NAME)
  {
    hide LayoutOk, Normalize, Repair, Upgrade, WorkspaceTemplate;
  }

  lemma NotRepairable(v: Json)
    requires Upgradable(v)
    ensures !Repairable(v)
  {}

  lemma KnownTypesShow(stored: seq<Json>)
    ensures UpgradedWidgets(PackedWidgets(TypeCards(KnownTypes(stored), true)), stored)
  {
    hide PackedWidgets, Fresh, PushedInTurn, WidgetGrids, Clamped, DefaultGrid, KnownTypes, AppearsBefore;
    var types := KnownTypes(stored);
    var ws := PackedWidgets(TypeCards(types, true));
    KnownTypesBounded(stored);
    forall i | 0 <= i < |ws| ensures Get(ws[i], "id") == Str(types[i]) && UpgradedWidget(ws, i, stored) {
      PackedTypesShow(types, true, i);
      FreshIsNamed(ws[i], types[i]);
      assert types[i] in types;
    }
    hide UpgradedWidget, Get;
    forall i, j | 0 <= i < j < |ws| ensures AppearsBefore(stored, Get(ws[i], "id"), Get(ws[j], "id")) {
      KnownTypesInOrder(stored, i, j);
    }
    forall t | t in WIDGETS && Str(t) in stored ensures exists i :: 0 <= i < |ws| && Get(ws[i], "id") == Str(t) {
      assert t in types;
      var i :| 0 <= i < |types| && types[i] == t;
      assert Get(ws[i], "id") == Str(t);
    }
  }

  lemma FreshIsNamed(w: Json, t: string)
    requires Fresh(w, t)
    ensures Get(w, "id") == Str(t)
  {}

  /** The cell a stored widget asks for: its own when that is valid, the default of its type otherwise. */
  ghost predicate AskedCell(w: Json, g: Grid) {
    if GridOk(Get(w, "grid")) then g == GridOf(Get(w, "grid"))
    else g == DefaultGrid(if Get(w, "type").Str? then Get(w, "type").s else "")
  }

  /** In a repaired page every widget stands where it asks to, or pushed down past the widgets before it. */
  lemma RepairedCell(ws: seq<Json>, i: nat, asked: Grid)
    requires |ws| <= 24 && DistinctField(ws, "id") && i < |ws| && AskedCell(ws[i], asked)
    ensures
      var gs := WidgetGrids(PackedWidgets(RepairCards(ws)));
      && PushedInTurn(gs, i, Clamped(asked, 12), 12)
      && (ValidGrid(asked) && !Blocked(asked, gs[..i]) ==> gs[i] == asked)
  {
    hide GridOk, GridOf, Pack, DefaultGrid, SameWidget, WidgetShape, PushedInTurn, Clamped, Blocked;
    var cards, r := RepairCards(ws), PackedWidgets(RepairCards(ws));
    RepairCardsDistinct(ws);
    PackIsSafe(cards, 12, None);
    var packed := Pack(cards, 12, None);
    forall k | 0 <= k < |r| ensures GridOf(Get(r[k], "grid")) == packed[k].grid.value {
      assert packed[k] == RepairCard(ws[k]).(grid := packed[k].grid);
      RepairedWidgetShape(ws[k], packed[k].grid.value);
    }
    assert WidgetGrids(r) == GridsOf(packed);
    assert cards[i].grid == Some(asked);
    EveryCellInTurn(cards, 12, i);
    if ValidGrid(asked) && !Blocked(asked, GridsOf(packed)[..i]) {
      FreeCellIsKept(GridsOf(packed), i, asked, 12);
    }
  }

  /**
   * A version 3 cache in which only coordinates are wrong: every widget of the result stands in its stored
   * cell when that is valid and free, and otherwise as little below the cell it asks for as the widgets
   * before it allow.
   */
  lemma RepairKeepsFreeCells(v: Json, n: nat, i: nat, asked: Grid)
    requires SoundButForCells(v) && !LayoutOk(v) && n < |Get(v, "pages").items|
    requires i < |Get(Get(v, "pages").items[n], "widgets").items|
    requires AskedCell(Get(Get(v, "pages").items[n], "widgets").items[i], asked)
    ensures
      var pages := Get(Parsed(Some(v)), "pages");
      && pages.Arr? && n < |pages.items| && Get(pages.items[n], "widgets").Arr?
      && i < |Get(pages.items[n], "widgets").items|
      && var gs := WidgetGrids(Get(pages.items[n], "widgets").items);
         && PushedInTurn(gs, i, Clamped(asked, 12), 12)
         && (ValidGrid(asked) && !Blocked(asked, gs[..i]) ==> gs[i] == asked)
  {
    RepairedPageAt(v, n);
    hide LayoutOk, SoundButForCells, PackedWidgets, RepairCards, PushedInTurn, Clamped, Blocked, AskedCell, WidgetGrids,
      Parsed;
    RepairedCell(Get(Get(v, "pages").items[n], "widgets").items, i, asked);
  }

  lemma RepairedPageAt(v: Json, n: nat)
    requires SoundButForCells(v) && !LayoutOk(v) && n < |Get(v, "pages").items|
    ensures
      var pages, ws := Get(Parsed(Some(v)), "pages"), Get(Get(v, "pages").items[n], "widgets").items;
      && pages.Arr? && n < |pages.items| && |ws| <= 24 && DistinctField(ws, "id")
      && Get(pages.items[n], "widgets") == Arr(PackedWidgets(RepairCards(ws)))
  {
    SoundPageAt(v, n);
    SoundIsRepairable(v);
    SoundIsRepaired(v);
    hide LayoutOk, SoundButForCells, PackedWidgets, RepairCards, Repairable, Parsed, DistinctField;
    var p := Get(v, "pages").items[n];
    assert Get(Repair(v), "pages") == Arr(RepairPages(Get(v, "pages").items));
    assert Get(RepairPage(p), "widgets") == Arr(PackedWidgets(RepairCards(Get(p, "widgets").items)));
  }

  lemma SoundPageAt(v: Json, n: nat)
    requires SoundButForCells(v) && n < |Get(v, "pages").items|
    ensures
      var ws := Get(Get(v, "pages").items[n], "widgets");
      ws.Arr? && |ws.items| <= 24 && DistinctField(ws.items, "id")
  {
    var p := Get(v, "pages").items[n];
    assert PageFields(p) && WidgetsShape(Get(p, "widgets").items, 3);
  }

  lemma SoundIsRepaired(v: Json)
    requires SoundButForCells(v) && !LayoutOk(v)
    ensures Repairable(v) && Parsed(Some(v)) == Repair(v)
  {
    hide LayoutOk, SoundButForCells, Repair, Repairable;
    SoundIsRepairable(v);
    RepairAcceptedExactly(v);
  }
}
