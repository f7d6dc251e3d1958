/**
 * The workspace packer (packages/shared/src/workspace-layout.ts, packWorkspace).
 *
 * A card is packed by identifier; everything that is neither its identifier, its
 * widget type nor its grid travels along unchanged in `rest`.
 */
module Packing {
  import opened Common
  import opened Grids

  datatype Card<+K, +P> = Card(id: K, kind: string, grid: Option<Grid>, rest: P)

  predicate Blocked(g: Grid, placed: seq<Grid>) {
    exists i :: 0 <= i < |placed| && Overlap(g, placed[i])
  }

  // ----- Row-major search -----------------------------------------------------

  /** One row below the lowest occupied cell (0 on an empty canvas). */
  ghost function Bottom(placed: seq<Grid>): (b: nat)
    ensures forall i :: 0 <= i < |placed| ==> placed[i].y + placed[i].h <= b
  {
    if placed == [] then 0
    else
      var last := placed[|placed| - 1];
      Max(Bottom(placed[..|placed| - 1]), last.y + last.h)
  }

  predicate Searchable(g: Grid, columns: int) {
    0 < g.w && 0 <= g.x && g.x + g.w <= columns && 0 <= g.y
  }

  /** The next cell to try, left to right and then down. */
  function Advance(g: Grid, columns: int): Grid {
    if g.x + 1 + g.w > columns then g.(x := 0, y := g.y + 1) else g.(x := g.x + 1)
  }

  /** First free cell at or after g, left to right and then down. */
  function Scan(placed: seq<Grid>, columns: int, g: Grid): (r: Grid)
    requires Searchable(g, columns)
    ensures Searchable(r, columns) && r.w == g.w && r.h == g.h && !Blocked(r, placed)
    decreases Bottom(placed) - g.y, columns - g.x
  {
    if Blocked(g, placed) then Scan(placed, columns, Advance(g, columns)) else g
  }

  ghost predicate Before(x: int, y: int, g: Grid) {
    y < g.y || (y == g.y && x < g.x)
  }

  /** Scan skips no free cell: every cell between the start and the result is blocked. */
  lemma {:induction false} ScanIsFirstFree(placed: seq<Grid>, columns: int, g: Grid, x: int, y: int)
    requires Searchable(g, columns)
    requires 0 <= x <= columns - g.w && !Before(x, y, g)
    requires Before(x, y, Scan(placed, columns, g))
    ensures Blocked(g.(x := x, y := y), placed)
    decreases Bottom(placed) - g.y, columns - g.x
  {
    if (x, y) != (g.x, g.y) {
      ScanIsFirstFree(placed, columns, Advance(g, columns), x, y);
    }
  }

  // ----- The pigeonhole bound -------------------------------------------------

  ghost predicate Sized(g: Grid) {
    1 <= g.w && 3 <= g.h <= 16
  }

  ghost function Rows(lo: int, hi: int): (s: set<int>)
    requires lo <= hi
    ensures |s| == hi - lo && forall y :: y in s <==> lo <= y < hi
    decreases hi - lo
  {
    if lo == hi then {} else Rows(lo, hi - 1) + {hi - 1}
  }

  /** One placed card can only block the rows of an interval of length at most 31. */
  lemma BlockedRowsOfOne(g: Grid, b: Grid, s: set<int>) returns (t: set<int>)
    requires 3 <= g.h <= 16 && 3 <= b.h <= 16
    ensures t <= s && |t| >= |s| - 31
    ensures forall y :: y in t ==> !Overlap(g.(y := y), b)
  {
    var window := Rows(b.y - g.h + 1, b.y + b.h);
    t := s - window;
    assert |t| + |s * window| == |s| by {
      assert t + s * window == s && t !! (s * window);
    }
    assert |s * window| <= |window| by {
      assert (s * window) + (window - s) == window && (s * window) !! (window - s);
    }
  }

  lemma {:induction false} SomeRow(s: set<int>, hi: nat) returns (y: int)
    requires s != {} && s <= Rows(0, hi)
    ensures y in s
  {
    if hi - 1 in s {
      y := hi - 1;
    } else {
      assert hi > 0;
      y := SomeRow(s, hi - 1);
    }
  }

  /** Among more than 31 rows per placed card, some row is free. */
  lemma {:induction false} SomeRowIsFree(g: Grid, placed: seq<Grid>, s: set<int>, hi: nat) returns (y: int)
    requires 3 <= g.h <= 16 && forall i :: 0 <= i < |placed| ==> Sized(placed[i])
    requires |s| > 31 * |placed| && s <= Rows(0, hi)
    ensures y in s && !Blocked(g.(y := y), placed)
  {
    if placed == [] {
      y := SomeRow(s, hi);
    } else {
      hide Blocked, Overlap;
      var n := |placed| - 1;
      var t := BlockedRowsOfOne(g, placed[n], s);
      y := SomeRowIsFree(g, placed[..n], t, hi);
      BlockedSnoc(g.(y := y), placed);
    }
  }

  lemma BlockedSnoc(g: Grid, placed: seq<Grid>)
    requires placed != [] && !Blocked(g, placed[..|placed| - 1]) && !Overlap(g, placed[|placed| - 1])
    ensures !Blocked(g, placed)
  {
    var n := |placed| - 1;
    assert forall i :: 0 <= i < n ==> placed[..n][i] == placed[i];
  }

  lemma {:induction false} ScanStopsByFreeRow(placed: seq<Grid>, columns: int, g: Grid, y: int)
    requires Searchable(g, columns)
    requires g.y < y || (g.y == y && g.x == 0)
    requires !Blocked(g.(x := 0, y := y), placed)
    ensures Scan(placed, columns, g).y <= y
    decreases Bottom(placed) - g.y, columns - g.x
  {
    if Blocked(g, placed) {
      assert g != g.(x := 0, y := y);
      ScanStopsByFreeRow(placed, columns, Advance(g, columns), y);
    }
  }

  /** A search from the top of a canvas with n cards ends within the first 31 n + 1 rows. */
  lemma ScanRowBound(placed: seq<Grid>, columns: int, g: Grid)
    requires Searchable(g, columns) && g.x == 0 && g.y == 0 && Sized(g)
    requires forall i :: 0 <= i < |placed| ==> Sized(placed[i])
    ensures Scan(placed, columns, g).y <= 31 * |placed|
  {
    var hi := 31 * |placed| + 1;
    var y := SomeRowIsFree(g, placed, Rows(0, hi), hi);
    ScanStopsByFreeRow(placed, columns, g, y);
  }

  // ----- Placing one card -----------------------------------------------------

  /** First free row at or below g in its own column; past the last row, the search restarts at the top. */
  function Drop(placed: seq<Grid>, columns: int, g: Grid): (r: Grid)
    requires Searchable(g, columns) && g.y <= MAX_ROW
    ensures Searchable(r, columns) && r.w == g.w && r.h == g.h && !Blocked(r, placed)
    decreases MAX_ROW - g.y
  {
    if !Blocked(g, placed) then g
    else if g.y + 1 > MAX_ROW then Scan(placed, columns, g.(x := 0, y := 0))
    else Drop(placed, columns, g.(y := g.y + 1))
  }

  /**
   * The card keeps its column and moves down as little as possible; only when every
   * row down to the last one is taken does it go to the first free cell from the top.
   */
  lemma {:induction false} DropIsLeastPush(placed: seq<Grid>, columns: int, g: Grid)
    requires Searchable(g, columns) && g.y <= MAX_ROW
    ensures
      var r := Drop(placed, columns, g);
      if exists y :: g.y <= y <= MAX_ROW && !Blocked(g.(y := y), placed)
      then r.x == g.x && g.y <= r.y <= MAX_ROW
           && forall y :: g.y <= y < r.y ==> Blocked(g.(y := y), placed)
      else r == Scan(placed, columns, g.(x := 0, y := 0))
    decreases MAX_ROW - g.y
  {
    hide Blocked, Scan;
    if Blocked(g, placed) && g.y < MAX_ROW {
      var h := g.(y := g.y + 1);
      DropIsLeastPush(placed, columns, h);
      assert forall y :: h.(y := y) == g.(y := y);
      assert g.(y := g.y) == g;
      if y :| g.y <= y <= MAX_ROW && !Blocked(g.(y := y), placed) {
        assert y != g.y;
        assert !Blocked(h.(y := y), placed);
      }
    } else if !Blocked(g, placed) {
      assert g.(y := g.y) == g;
    } else {
      assert g.(y := g.y) == g;
    }
  }

  /** Size and position brought into the canvas. */
  function Clamped(original: Grid, columns: int): (g: Grid)
    requires columns >= 1
    ensures Searchable(g, columns) && g.y <= MAX_ROW && Sized(g) && Min(2, columns) <= g.w
  {
    var w := Max(Min(2, columns), Min(columns, original.w));
    Grid(Max(0, Min(columns - w, original.x)), Max(0, Min(MAX_ROW, original.y)), w, Max(3, Min(16, original.h)))
  }

  function Requested<K, P>(card: Card<K, P>, columns: int): (g: Grid)
    requires columns >= 1
    ensures Searchable(g, columns) && g.y <= MAX_ROW && Sized(g) && Min(2, columns) <= g.w
  {
    match card.grid
    case Some(g) => Clamped(g, columns)
    case None => Clamped(DefaultGrid(card.kind), columns).(x := 0, y := 0)
  }

  function Place<K, P>(placed: seq<Grid>, columns: int, card: Card<K, P>): (r: Grid)
    requires columns >= 1
    ensures Searchable(r, columns) && Sized(r) && Min(2, columns) <= r.w && !Blocked(r, placed)
  {
    var g := Requested(card, columns);
    if card.grid.None? then Scan(placed, columns, g) else Drop(placed, columns, g)
  }

  function PlaceAll<K, P>(ordered: seq<Card<K, P>>, columns: int): (gs: seq<Grid>)
    requires columns >= 1
    ensures |gs| == |ordered|
  {
    if ordered == [] then []
    else
      var n := |ordered| - 1;
      var gs := PlaceAll(ordered[..n], columns);
      gs + [Place(gs, columns, ordered[n])]
  }

  // ----- Whole pages ----------------------------------------------------------

  function WithId<K(==), P>(cards: seq<Card<K, P>>, id: K): seq<Card<K, P>> {
    if cards == [] then []
    else
      var n := |cards| - 1;
      WithId(cards[..n], id) + if cards[n].id == id then [cards[n]] else []
  }

  function WithoutId<K(==), P>(cards: seq<Card<K, P>>, id: K): seq<Card<K, P>> {
    if cards == [] then []
    else
      var n := |cards| - 1;
      WithoutId(cards[..n], id) + if cards[n].id != id then [cards[n]] else []
  }

  /** The moved card is placed first. */
  function Ordered<K(==), P>(cards: seq<Card<K, P>>, priority: Option<K>): seq<Card<K, P>> {
    match priority
    case None => cards
    case Some(id) => WithId(cards, id) + WithoutId(cards, id)
  }

  /** Index of the first card with this identifier, |cards| when there is none. */
  function IndexOf<K(==), P>(cards: seq<Card<K, P>>, id: K): (k: nat)
    ensures k <= |cards| && (k < |cards| ==> cards[k].id == id)
    ensures forall i :: 0 <= i < k ==> cards[i].id != id
  {
    if cards == [] then 0
    else if cards[0].id == id then 0
    else 1 + IndexOf(cards[1..], id)
  }

  lemma {:induction false} OrderedMembers<K, P>(cards: seq<Card<K, P>>, priority: Option<K>, c: Card<K, P>)
    ensures c in Ordered(cards, priority) <==> c in cards
  {
    if priority.Some? && cards != [] {
      var n := |cards| - 1;
      OrderedMembers(cards[..n], priority, c);
      assert cards == cards[..n] + [cards[n]];
    }
  }

  lemma FoundInOrdered<K, P>(cards: seq<Card<K, P>>, priority: Option<K>, c: Card<K, P>)
    requires c in cards
    ensures IndexOf(Ordered(cards, priority), c.id) < |Ordered(cards, priority)|
  {
    OrderedMembers(cards, priority, c);
  }

  /** The packed page, in the order of the page. */
  function Pack<K(==), P>(cards: seq<Card<K, P>>, columns: int, priority: Option<K>): (r: seq<Card<K, P>>)
    requires columns >= 1
    ensures |r| == |cards| && forall i :: 0 <= i < |r| ==> r[i].grid.Some?
  {
    var ordered := Ordered(cards, priority);
    var gs := PlaceAll(ordered, columns);
    seq(|cards|, i requires 0 <= i < |cards| =>
      FoundInOrdered(cards, priority, cards[i]);
      var k := IndexOf(ordered, cards[i].id);
      ordered[k].(grid := Some(gs[k])))
  }

  // ----- The packer -----------------------------------------------------------

  /** An absent or falsy priority identifier is None. */
  method PackWorkspace<K(==), P>(widgets: seq<Card<K, P>>, columns: int, priorityId: Option<K>)
    returns (r: seq<Card<K, P>>)
    requires columns >= 1
    ensures r == Pack(widgets, columns, priorityId)
  {
    hide PlaceAll, Ordered;
    var ordered := Ordered(widgets, priorityId);
    var placed := PlaceAllLoop(ordered, columns);
    ghost var packed := Pack(widgets, columns, priorityId);
    r := [];
    for i := 0 to |widgets|
      invariant |r| == i && r <= packed
    {
      FoundInOrdered(widgets, priorityId, widgets[i]);
      var k := IndexOf(ordered, widgets[i].id);
      r := r + [ordered[k].(grid := Some(placed[k]))];
    }
  }

  /** The packer's loop over the cards. */
  method PlaceAllLoop<K, P>(ordered: seq<Card<K, P>>, columns: int) returns (placed: seq<Grid>)
    requires columns >= 1
    ensures placed == PlaceAll(ordered, columns)
  {
    placed := [];
    for n := 0 to |ordered|
      invariant placed == PlaceAll(ordered[..n], columns)
    {
      var g := PlaceLoop(placed, columns, ordered[n]);
      assert ordered[..n + 1][..n] == ordered[..n];
      placed := placed + [g];
    }
    assert ordered[..|ordered|] == ordered;
  }

  /** The body of that loop. */
  method PlaceLoop<K, P>(placed: seq<Grid>, columns: int, widget: Card<K, P>) returns (g: Grid)
    requires columns >= 1
    ensures g == Place(placed, columns, widget)
  {
    var original := if widget.grid.Some? then widget.grid.value else DefaultGrid(widget.kind);
    g := original.(w := Max(Min(2, columns), Min(columns, original.w)), h := Max(3, Min(16, original.h)));
    g := g.(x := Max(0, Min(columns - g.w, g.x)));
    g := g.(y := Max(0, Min(MAX_ROW, g.y)));
    if widget.grid.None? {
      g := g.(y := 0);
      g := g.(x := 0);
      g := ScanLoop(placed, columns, g);
    }
    while Blocked(g, placed)
      invariant Searchable(g, columns)
      invariant if Blocked(g, placed)
                then g.y <= MAX_ROW && Place(placed, columns, widget) == Drop(placed, columns, g)
                else Place(placed, columns, widget) == g
      decreases Blocked(g, placed), MAX_ROW - g.y
    {
      g := g.(y := g.y + 1);
      if g.y > MAX_ROW {
        g := g.(y := 0);
        g := g.(x := 0);
        g := ScanLoop(placed, columns, g);
      }
    }
  }

  /** The inner search loop, written out twice in the source. */
  method ScanLoop(placed: seq<Grid>, columns: int, start: Grid) returns (g: Grid)
    requires Searchable(start, columns)
    ensures g == Scan(placed, columns, start)
  {
    g := start;
    while Blocked(g, placed)
      invariant Searchable(g, columns)
      invariant Scan(placed, columns, g) == Scan(placed, columns, start)
      decreases Bottom(placed) - g.y, columns - g.x
    {
      g := g.(x := g.x + 1);
      if g.x + g.w > columns {
        g := g.(x := 0, y := g.y + 1);
      }
    }
  }

  // ----- What packing guarantees ----------------------------------------------

  ghost predicate DistinctIds<K, P>(cards: seq<Card<K, P>>) {
    forall i, j :: 0 <= i < j < |cards| ==> cards[i].id != cards[j].id
  }

  /** Every card has a grid and no two grids share a cell. */
  ghost predicate Settled<K, P>(cards: seq<Card<K, P>>) {
    && (forall i :: 0 <= i < |cards| ==> cards[i].grid.Some?)
    && forall i, j :: 0 <= i < j < |cards| ==> !Overlap(cards[i].grid.value, cards[j].grid.value)
  }

  /** The grid lies inside a canvas of this many columns and within the saved row range. */
  ghost predicate Fits(g: Grid, columns: int) {
    Searchable(g, columns) && Sized(g) && Min(2, columns) <= g.w && g.y <= MAX_ROW
  }

  lemma {:induction false} PlaceAllSafe<K, P>(ordered: seq<Card<K, P>>, columns: int)
    requires columns >= 1
    ensures Disjoint(PlaceAll(ordered, columns))
    ensures forall g <- PlaceAll(ordered, columns) ::
      Searchable(g, columns) && Sized(g) && Min(2, columns) <= g.w && g.y <= Max(MAX_ROW, 31 * (|ordered| - 1))
  {
    if ordered != [] {
      var n := |ordered| - 1;
      PlaceAllSafe(ordered[..n], columns);
      PlaceRowBound(PlaceAll(ordered[..n], columns), columns, ordered[n]);
    }
  }

  lemma PlaceRowBound<K, P>(placed: seq<Grid>, columns: int, card: Card<K, P>)
    requires columns >= 1 && forall i :: 0 <= i < |placed| ==> Sized(placed[i])
    ensures Place(placed, columns, card).y <= Max(MAX_ROW, 31 * |placed|)
  {
    var g := Requested(card, columns);
    ScanRowBound(placed, columns, g.(x := 0, y := 0));
    if card.grid.Some? {
      DropIsLeastPush(placed, columns, g);
    }
  }

  lemma {:induction false} SplitMembers<K, P>(cards: seq<Card<K, P>>, id: K)
    ensures |WithId(cards, id)| + |WithoutId(cards, id)| == |cards|
    ensures forall c <- WithId(cards, id) :: c.id == id && c in cards
    ensures forall c <- WithoutId(cards, id) :: c.id != id && c in cards
  {
    if cards != [] {
      SplitMembers(cards[..|cards| - 1], id);
    }
  }

  lemma {:induction false} WithIdDistinct<K, P>(cards: seq<Card<K, P>>, id: K)
    requires DistinctIds(cards)
    ensures DistinctIds(WithId(cards, id))
  {
    if cards != [] {
      WithIdDistinct(cards[..|cards| - 1], id);
      SplitMembers(cards[..|cards| - 1], id);
    }
  }

  lemma {:induction false} WithoutIdDistinct<K, P>(cards: seq<Card<K, P>>, id: K)
    requires DistinctIds(cards)
    ensures DistinctIds(WithoutId(cards, id))
  {
    if cards != [] {
      WithoutIdDistinct(cards[..|cards| - 1], id);
      SplitMembers(cards[..|cards| - 1], id);
    }
  }

  lemma OrderedDistinct<K, P>(cards: seq<Card<K, P>>, priority: Option<K>)
    requires DistinctIds(cards)
    ensures DistinctIds(Ordered(cards, priority)) && |Ordered(cards, priority)| == |cards|
  {
    if priority.Some? {
      SplitMembers(cards, priority.value);
      WithIdDistinct(cards, priority.value);
      WithoutIdDistinct(cards, priority.value);
    }
  }

  /** The position at which the card of page position i was placed. */
  ghost function Slot<K, P>(cards: seq<Card<K, P>>, priority: Option<K>, i: nat): nat
    requires i < |cards|
  {
    IndexOf(Ordered(cards, priority), cards[i].id)
  }

  /** Even when identifiers repeat, every position keeps its identifier and gets a grid inside the canvas. */
  lemma PackKeepsIds<K, P>(cards: seq<Card<K, P>>, columns: int, priority: Option<K>, i: nat)
    requires columns >= 1 && i < |cards|
    ensures var c := Pack(cards, columns, priority)[i];
      c.id == cards[i].id && Searchable(c.grid.value, columns) && Sized(c.grid.value)
  {
    FoundInOrdered(cards, priority, cards[i]);
    PlaceAllSafe(Ordered(cards, priority), columns);
  }

  /** Every position gets back some card with its identifier, changed in its grid alone. */
  lemma PackedIsSomeCard<K, P>(cards: seq<Card<K, P>>, columns: int, priority: Option<K>, i: nat) returns (k: nat)
    requires columns >= 1 && i < |cards|
    ensures k < |cards| && cards[k].id == cards[i].id
    ensures Pack(cards, columns, priority)[i] == cards[k].(grid := Pack(cards, columns, priority)[i].grid)
  {
    var ordered := Ordered(cards, priority);
    FoundInOrdered(cards, priority, cards[i]);
    var c := ordered[IndexOf(ordered, cards[i].id)];
    OrderedMembers(cards, priority, c);
    k :| 0 <= k < |cards| && cards[k] == c;
  }

  /** With distinct identifiers, a page position gets back its own card, with the grid of its own slot. */
  lemma PackAt<K, P>(cards: seq<Card<K, P>>, columns: int, priority: Option<K>, i: nat)
    requires columns >= 1 && DistinctIds(cards) && i < |cards|
    ensures Slot(cards, priority, i) < |Ordered(cards, priority)|
    ensures Ordered(cards, priority)[Slot(cards, priority, i)] == cards[i]
    ensures Pack(cards, columns, priority)[i]
      == cards[i].(grid := Some(PlaceAll(Ordered(cards, priority), columns)[Slot(cards, priority, i)]))
  {
    FoundInOrdered(cards, priority, cards[i]);
    OrderedMembers(cards, priority, Ordered(cards, priority)[Slot(cards, priority, i)]);
  }

  lemma SlotsDiffer<K, P>(cards: seq<Card<K, P>>, priority: Option<K>, i: nat, j: nat)
    requires DistinctIds(cards) && i < j < |cards|
    ensures Slot(cards, priority, i) != Slot(cards, priority, j)
  {
    FoundInOrdered(cards, priority, cards[i]);
    assert cards[i].id != cards[j].id;
  }

  lemma PackSettles<K, P>(cards: seq<Card<K, P>>, columns: int, priority: Option<K>)
    requires columns >= 1 && DistinctIds(cards)
    ensures Settled(Pack(cards, columns, priority))
  {
    var r := Pack(cards, columns, priority);
    var gs := PlaceAll(Ordered(cards, priority), columns);
    assert Disjoint(gs) by { PlaceAllSafe(Ordered(cards, priority), columns); }
    forall i | 0 <= i < |r|
      ensures Slot(cards, priority, i) < |gs| && r[i].grid == Some(gs[Slot(cards, priority, i)])
    {
      PackAt(cards, columns, priority, i);
    }
    forall i, j | 0 <= i < j < |r| ensures !Overlap(r[i].grid.value, r[j].grid.value) {
      SlotsDiffer(cards, priority, i, j);
    }
  }

  /**
   * Packing any page with distinct identifiers, on any number of columns, changes nothing
   * but the grids, and the grids fit the canvas without sharing a cell. Up to 34 cards,
   * hence on every page the validator admits, the rows stay within the saved range.
   */
  lemma PackIsSafe<K, P>(cards: seq<Card<K, P>>, columns: int, priority: Option<K>)
    requires columns >= 1 && DistinctIds(cards)
    ensures var r := Pack(cards, columns, priority);
      && Settled(r)
      && (forall i :: 0 <= i < |cards| ==> r[i] == cards[i].(grid := r[i].grid))
      && (forall i :: 0 <= i < |r| ==> Searchable(r[i].grid.value, columns) && Sized(r[i].grid.value)
                                       && r[i].grid.value.y <= Max(MAX_ROW, 31 * (|cards| - 1)))
      && (|cards| <= 34 ==> forall i :: 0 <= i < |r| ==> Fits(r[i].grid.value, columns))
  {
    var r := Pack(cards, columns, priority);
    PackSettles(cards, columns, priority);
    OrderedDistinct(cards, priority);
    PlaceAllSafe(Ordered(cards, priority), columns);
    forall i | 0 <= i < |r|
      ensures r[i] == cards[i].(grid := r[i].grid)
      ensures Searchable(r[i].grid.value, columns) && Sized(r[i].grid.value) && Min(2, columns) <= r[i].grid.value.w
      ensures r[i].grid.value.y <= Max(MAX_ROW, 31 * (|cards| - 1))
    {
      PackAt(cards, columns, priority, i);
    }
  }

  lemma OrderedSettled<K, P>(cards: seq<Card<K, P>>, priority: Option<K>)
    requires DistinctIds(cards) && Settled(cards)
    ensures Settled(Ordered(cards, priority))
  {
    var ordered := Ordered(cards, priority);
    OrderedDistinct(cards, priority);
    forall i | 0 <= i < |ordered| ensures ordered[i] in cards {
      OrderedMembers(cards, priority, ordered[i]);
    }
    forall i, j | 0 <= i < j < |ordered| ensures !Overlap(ordered[i].grid.value, ordered[j].grid.value) {
      var a :| 0 <= a < |cards| && cards[a] == ordered[i];
      var b :| 0 <= b < |cards| && cards[b] == ordered[j];
      assert a != b;
    }
  }

  lemma {:induction false} PlaceAllFixes<K, P>(ordered: seq<Card<K, P>>, columns: int)
    requires columns >= 1 && Settled(ordered)
    requires forall c <- ordered :: Fits(c.grid.value, columns)
    ensures forall i :: 0 <= i < |ordered| ==> PlaceAll(ordered, columns)[i] == ordered[i].grid.value
  {
    if ordered != [] {
      PlaceAllFixes(ordered[..|ordered| - 1], columns);
    }
  }

  /** A page whose cards already fit without overlap is left exactly as it is, whichever card has priority. */
  lemma PackFixesSettledPage<K, P>(cards: seq<Card<K, P>>, columns: int, priority: Option<K>)
    requires columns >= 1 && DistinctIds(cards) && Settled(cards)
    requires forall c <- cards :: Fits(c.grid.value, columns)
    ensures Pack(cards, columns, priority) == cards
  {
    var ordered := Ordered(cards, priority);
    OrderedSettled(cards, priority);
    forall c | c in ordered ensures Fits(c.grid.value, columns) {
      OrderedMembers(cards, priority, c);
    }
    PlaceAllFixes(ordered, columns);
    forall i | 0 <= i < |cards| ensures Pack(cards, columns, priority)[i] == cards[i] {
      PackAt(cards, columns, priority, i);
    }
  }

  lemma PackIsIdempotent<K, P>(cards: seq<Card<K, P>>, columns: int, first: Option<K>, second: Option<K>)
    requires columns >= 1 && DistinctIds(cards) && |cards| <= 34
    ensures Pack(Pack(cards, columns, first), columns, second) == Pack(cards, columns, first)
  {
    PackIsSafe(cards, columns, first);
    PackFixesSettledPage(Pack(cards, columns, first), columns, second);
  }

  lemma {:induction false} PlaceAllFirst<K, P>(ordered: seq<Card<K, P>>, columns: int)
    requires columns >= 1 && ordered != []
    ensures PlaceAll(ordered, columns)[0] == Requested(ordered[0], columns)
  {
    if |ordered| > 1 {
      PlaceAllFirst(ordered[..|ordered| - 1], columns);
    }
  }

  lemma MovedCardIsFirst<K, P>(cards: seq<Card<K, P>>, i: nat)
    requires DistinctIds(cards) && i < |cards|
    ensures Slot(cards, Some(cards[i].id), i) == 0
  {
    var id := cards[i].id;
    SplitMembers(cards, id);
    OrderedMembers(cards, Some(id), cards[i]);
    assert cards[i] !in WithoutId(cards, id);
    assert Ordered(cards, Some(id))[0] == WithId(cards, id)[0];
  }

  /** Clamping moves each coordinate no further than any other fitting grid would. */
  lemma ClampedIsNearest(original: Grid, columns: int, other: Grid)
    requires columns >= 1 && Fits(other, columns)
    ensures var g := Clamped(original, columns);
      && Distance(g.w, original.w) <= Distance(other.w, original.w)
      && Distance(g.h, original.h) <= Distance(other.h, original.h)
      && Distance(g.y, original.y) <= Distance(other.y, original.y)
      && (other.w == g.w ==> Distance(g.x, original.x) <= Distance(other.x, original.x))
  {}

  function Distance(a: int, b: int): int {
    if a <= b then b - a else a - b
  }

  lemma FittingRequestIsKept<K, P>(card: Card<K, P>, columns: int)
    requires columns >= 1 && card.grid.Some? && Fits(card.grid.value, columns)
    ensures Requested(card, columns) == card.grid.value
  {}

  /** The moved card lands where it was asked to go, clamped into the canvas: a fitting cell is kept exactly. */
  lemma MovedCardKeepsItsCell<K, P>(cards: seq<Card<K, P>>, columns: int, i: nat)
    requires columns >= 1 && DistinctIds(cards) && i < |cards|
    ensures Pack(cards, columns, Some(cards[i].id))[i] == cards[i].(grid := Some(Requested(cards[i], columns)))
    ensures cards[i].grid.Some? && Fits(cards[i].grid.value, columns)
      ==> Pack(cards, columns, Some(cards[i].id))[i] == cards[i]
  {
    PackAt(cards, columns, Some(cards[i].id), i);
    MovedCardIsFirst(cards, i);
    PlaceAllFirst(Ordered(cards, Some(cards[i].id)), columns);
    if cards[i].grid.Some? && Fits(cards[i].grid.value, columns) {
      FittingRequestIsKept(cards[i], columns);
    }
  }

  // ----- Where every card ends up ---------------------------------------------

  /** Card j of the page is placed before card i: the priority card first, the others in page order. */
  ghost predicate Precedes<K, P>(cards: seq<Card<K, P>>, priority: Option<K>, j: nat, i: nat)
    requires i < |cards| && j < |cards|
  {
    j != i && (priority == Some(cards[j].id) || (priority != Some(cards[i].id) && j < i))
  }

  ghost predicate Gridded<K, P>(packed: seq<Card<K, P>>) {
    forall i :: 0 <= i < |packed| ==> packed[i].grid.Some?
  }

  /** A card placed before card i occupies a part of g. */
  ghost predicate Taken<K, P>(packed: seq<Card<K, P>>, priority: Option<K>, i: nat, g: Grid)
    requires Gridded(packed) && i < |packed|
  {
    exists j: nat :: j < |packed| && Precedes(packed, priority, j, i) && Overlap(g, packed[j].grid.value)
  }

  /** Card i stands in the first cell from the top, left to right and then down, that is not taken. */
  ghost predicate FirstFree<K, P>(packed: seq<Card<K, P>>, priority: Option<K>, i: nat, asked: Grid, columns: int)
    requires Gridded(packed) && i < |packed|
  {
    var g := packed[i].grid.value;
    && g.w == asked.w && g.h == asked.h && Searchable(g, columns) && !Taken(packed, priority, i, g)
    && forall x, y :: 0 <= x <= columns - g.w && 0 <= y && Before(x, y, g) ==>
         Taken(packed, priority, i, g.(x := x, y := y))
  }

  /**
   * Card i stands in the column asked for, in the least row at or below the one asked for that is not
   * taken; only when every such row down to the last one is taken, in the first free cell from the top.
   */
  ghost predicate PushedLeast<K, P>(packed: seq<Card<K, P>>, priority: Option<K>, i: nat, asked: Grid, columns: int)
    requires Gridded(packed) && i < |packed|
  {
    var g := packed[i].grid.value;
    if exists y :: asked.y <= y <= MAX_ROW && !Taken(packed, priority, i, asked.(y := y))
    then
      && g == asked.(y := g.y) && asked.y <= g.y <= MAX_ROW && !Taken(packed, priority, i, g)
      && forall y :: asked.y <= y < g.y ==> Taken(packed, priority, i, asked.(y := y))
    else FirstFree(packed, priority, i, asked, columns)
  }

  /** What packing gives card i, in terms of the packed page alone. */
  ghost predicate CellOk<K, P>(card: Card<K, P>, packed: seq<Card<K, P>>, priority: Option<K>, i: nat, columns: int)
    requires Gridded(packed) && i < |packed| && columns >= 1
  {
    match card.grid
    case Some(g) => PushedLeast(packed, priority, i, Clamped(g, columns), columns)
    case None => FirstFree(packed, priority, i, Clamped(DefaultGrid(card.kind), columns), columns)
  }

  lemma IndexInDistinct<K, P>(cards: seq<Card<K, P>>, k: nat)
    requires DistinctIds(cards) && k < |cards|
    ensures IndexOf(cards, cards[k].id) == k
  {}

  lemma {:induction false} IndexOfConcat<K, P>(a: seq<Card<K, P>>, b: seq<Card<K, P>>, id: K)
    ensures IndexOf(a + b, id) == if IndexOf(a, id) < |a| then IndexOf(a, id) else |a| + IndexOf(b, id)
  {
    if a == [] {
      assert a + b == b;
    } else {
      assert (a + b)[1..] == a[1..] + b;
      IndexOfConcat(a[1..], b, id);
    }
  }

  /** Cards without the priority identifier keep their order. */
  lemma {:induction false} WithoutIdOrder<K, P>(cards: seq<Card<K, P>>, id: K, j: nat, i: nat)
    requires DistinctIds(cards) && j < i < |cards| && cards[j].id != id && cards[i].id != id
    ensures IndexOf(WithoutId(cards, id), cards[j].id) < IndexOf(WithoutId(cards, id), cards[i].id)
  {
    var n := |cards| - 1;
    var rest, last := WithoutId(cards[..n], id), if cards[n].id != id then [cards[n]] else [];
    assert WithoutId(cards, id) == rest + last;
    WithoutIdFinds(cards[..n], id, j);
    hide IndexOf, WithoutId;
    IndexOfConcat(rest, last, cards[j].id);
    IndexOfConcat(rest, last, cards[i].id);
    if i < n {
      WithoutIdOrder(cards[..n], id, j, i);
      WithoutIdFinds(cards[..n], id, i);
    } else {
      LastIsNew(cards, id);
    }
  }

  lemma LastIsNew<K, P>(cards: seq<Card<K, P>>, id: K)
    requires DistinctIds(cards) && cards != []
    ensures var n := |cards| - 1; IndexOf(WithoutId(cards[..n], id), cards[n].id) == |WithoutId(cards[..n], id)|
  {
    var n := |cards| - 1;
    SplitMembers(cards[..n], id);
    hide WithoutId, IndexOf;
    var rest := WithoutId(cards[..n], id);
    forall c | c in rest ensures c.id != cards[n].id {
      assert c in cards[..n];
    }
  }

  lemma {:induction false} WithoutIdFinds<K, P>(cards: seq<Card<K, P>>, id: K, j: nat)
    requires j < |cards| && cards[j].id != id
    ensures IndexOf(WithoutId(cards, id), cards[j].id) < |WithoutId(cards, id)|
  {
    OrderedMembers(cards, Some(id), cards[j]);
    SplitMembers(cards, id);
    assert cards[j] in WithoutId(cards, id);
  }

  /** The order in which cards are placed. */
  lemma SlotOrder<K, P>(cards: seq<Card<K, P>>, priority: Option<K>, j: nat, i: nat)
    requires DistinctIds(cards) && i < |cards| && j < |cards| && i != j
    ensures Slot(cards, priority, j) < Slot(cards, priority, i) <==> Precedes(cards, priority, j, i)
  {
    match priority
    case None =>
      IndexInDistinct(cards, i);
      IndexInDistinct(cards, j);
    case Some(id) =>
      if cards[i].id == id {
        MovedCardIsFirst(cards, i);
      } else if cards[j].id == id {
        MovedCardIsFirst(cards, j);
        SlotsDiffer(cards, priority, if i < j then i else j, if i < j then j else i);
      } else {
        OthersKeepOrder(cards, id, if i < j then i else j, if i < j then j else i);
      }
  }

  lemma OthersKeepOrder<K, P>(cards: seq<Card<K, P>>, id: K, j: nat, i: nat)
    requires DistinctIds(cards) && j < i < |cards| && cards[j].id != id && cards[i].id != id
    ensures Slot(cards, Some(id), j) < Slot(cards, Some(id), i)
  {
    WithoutIdOrder(cards, id, j, i);
    SplitMembers(cards, id);
    hide IndexOf, WithId, WithoutId;
    IndexOfConcat(WithId(cards, id), WithoutId(cards, id), cards[i].id);
    IndexOfConcat(WithId(cards, id), WithoutId(cards, id), cards[j].id);
  }

  lemma {:induction false} PlaceAllAt<K, P>(ordered: seq<Card<K, P>>, columns: int, k: nat)
    requires columns >= 1 && k < |ordered|
    ensures var gs := PlaceAll(ordered, columns); gs[k] == Place(gs[..k], columns, ordered[k])
  {
    var n := |ordered| - 1;
    var gs := PlaceAll(ordered, columns);
    assert gs[..n] == PlaceAll(ordered[..n], columns);
    if k < n {
      PlaceAllAt(ordered[..n], columns, k);
      assert gs[..n][..k] == gs[..k];
    }
  }

  /** Being blocked by the grids placed so far is being taken on the packed page. */
  lemma BlockedIsTaken<K, P>(cards: seq<Card<K, P>>, columns: int, priority: Option<K>, i: nat, g: Grid)
    requires columns >= 1 && DistinctIds(cards) && i < |cards|
    ensures Slot(cards, priority, i) < |Ordered(cards, priority)|
    ensures
      var gs := PlaceAll(Ordered(cards, priority), columns);
      Blocked(g, gs[..Slot(cards, priority, i)]) <==> Taken(Pack(cards, columns, priority), priority, i, g)
  {
    hide Pack, PlaceAll, Overlap, Slot, Ordered;
    var ordered, packed := Ordered(cards, priority), Pack(cards, columns, priority);
    var gs, k := PlaceAll(ordered, columns), Slot(cards, priority, i);
    PackAt(cards, columns, priority, i);
    forall j: nat | j < |cards|
      ensures packed[j].id == cards[j].id && Slot(cards, priority, j) < |gs|
      ensures packed[j].grid == Some(gs[Slot(cards, priority, j)])
    {
      PackAt(cards, columns, priority, j);
    }
    if Blocked(g, gs[..k]) {
      var n: nat :| n < k && Overlap(g, gs[n]);
      var j := SlotFilled(cards, priority, n);
      SlotOrder(cards, priority, j, i);
      assert Precedes(packed, priority, j, i) && packed[j].grid.value == gs[n];
    }
    if Taken(packed, priority, i, g) {
      var j: nat :| j < |packed| && Precedes(packed, priority, j, i) && Overlap(g, packed[j].grid.value);
      SlotOrder(cards, priority, j, i);
      assert gs[..k][Slot(cards, priority, j)] == packed[j].grid.value;
    }
  }

  /** Every place in the order is that of some card of the page. */
  lemma SlotFilled<K, P>(cards: seq<Card<K, P>>, priority: Option<K>, n: nat) returns (j: nat)
    requires DistinctIds(cards) && n < |Ordered(cards, priority)|
    ensures j < |cards| && Slot(cards, priority, j) == n
  {
    var c := Ordered(cards, priority)[n];
    OrderedMembers(cards, priority, c);
    OrderedDistinct(cards, priority);
    j :| 0 <= j < |cards| && cards[j] == c;
    IndexInDistinct(Ordered(cards, priority), n);
  }

  /**
   * Every card of a packed page: one with a grid stands in its column, pushed down as little as the
   * cards placed before it allow; one without stands in the first free cell.
   */
  lemma EveryCellIsOk<K, P>(cards: seq<Card<K, P>>, columns: int, priority: Option<K>, i: nat)
    requires columns >= 1 && DistinctIds(cards) && i < |cards|
    ensures CellOk(cards[i], Pack(cards, columns, priority), priority, i, columns)
  {
    hide Pack, PlaceAll, Blocked, Taken, Slot, Ordered, Clamped, Drop, Scan, Overlap;
    var packed := Pack(cards, columns, priority);
    var gs, k := PlaceAll(Ordered(cards, priority), columns), Slot(cards, priority, i);
    PackAt(cards, columns, priority, i);
    PlaceAllAt(Ordered(cards, priority), columns, k);
    var placed, asked := gs[..k], Requested(cards[i], columns);
    forall g ensures Blocked(g, placed) <==> Taken(packed, priority, i, g) {
      BlockedIsTaken(cards, columns, priority, i, g);
    }
    if cards[i].grid.Some? {
      DroppedIsPushed(packed, priority, i, placed, asked, columns);
    } else {
      assert asked == asked.(x := 0, y := 0);
      ScannedIsFirst(packed, priority, i, placed, asked, columns);
    }
  }

  lemma ScannedIsFirst<K, P>(packed: seq<Card<K, P>>, priority: Option<K>, i: nat, placed: seq<Grid>,
                             asked: Grid, columns: int)
    requires Gridded(packed) && i < |packed| && Searchable(asked, columns)
    requires forall g :: Blocked(g, placed) <==> Taken(packed, priority, i, g)
    requires packed[i].grid.value == Scan(placed, columns, asked.(x := 0, y := 0))
    ensures FirstFree(packed, priority, i, asked, columns)
  {
    hide Scan, Blocked, Taken, Before, Searchable;
    FirstCell(placed, columns, asked);
  }

  lemma DroppedIsPushed<K, P>(packed: seq<Card<K, P>>, priority: Option<K>, i: nat, placed: seq<Grid>,
                              asked: Grid, columns: int)
    requires Gridded(packed) && i < |packed| && Searchable(asked, columns) && asked.y <= MAX_ROW
    requires forall g :: Blocked(g, placed) <==> Taken(packed, priority, i, g)
    requires packed[i].grid.value == Drop(placed, columns, asked)
    ensures PushedLeast(packed, priority, i, asked, columns)
  {
    hide Scan, Drop, Blocked, Taken, Searchable, FirstFree;
    DropIsLeastPush(placed, columns, asked);
    if exists y :: asked.y <= y <= MAX_ROW && !Blocked(asked.(y := y), placed) {
      var g := packed[i].grid.value;
      assert g == asked.(y := g.y);
    } else {
      ScannedIsFirst(packed, priority, i, placed, asked, columns);
    }
  }

  /** A search from the top ends in the first cell that is not blocked. */
  lemma FirstCell(placed: seq<Grid>, columns: int, g: Grid)
    requires Searchable(g, columns)
    ensures var r := Scan(placed, columns, g.(x := 0, y := 0));
      forall x, y :: 0 <= x <= columns - r.w && 0 <= y && Before(x, y, r) ==> Blocked(r.(x := x, y := y), placed)
  {
    hide Blocked, Scan;
    var top := g.(x := 0, y := 0);
    var r := Scan(placed, columns, top);
    forall x, y | 0 <= x <= columns - r.w && 0 <= y && Before(x, y, r) ensures Blocked(r.(x := x, y := y), placed) {
      ScanIsFirstFree(placed, columns, top, x, y);
      assert top.(x := x, y := y) == r.(x := x, y := y);
    }
  }

  // ----- Pages without a priority card ----------------------------------------

  function GridsOf<K, P>(packed: seq<Card<K, P>>): (gs: seq<Grid>)
    requires Gridded(packed)
    ensures |gs| == |packed| && forall i :: 0 <= i < |gs| ==> gs[i] == packed[i].grid.value
  {
    seq(|packed|, i requires 0 <= i < |packed| => packed[i].grid.value)
  }

  /** Grid i is pushed down its column past the grids before it as little as possible. */
  ghost predicate PushedInTurn(gs: seq<Grid>, i: nat, asked: Grid, columns: int)
    requires i < |gs|
  {
    var before, g := gs[..i], gs[i];
    if exists y :: asked.y <= y <= MAX_ROW && !Blocked(asked.(y := y), before)
    then
      && g == asked.(y := g.y) && asked.y <= g.y <= MAX_ROW && !Blocked(g, before)
      && forall y :: asked.y <= y < g.y ==> Blocked(asked.(y := y), before)
    else FirstInTurn(gs, i, asked, columns)
  }

  /** Grid i is the first free cell of its size, given the grids before it. */
  ghost predicate FirstInTurn(gs: seq<Grid>, i: nat, asked: Grid, columns: int)
    requires i < |gs|
  {
    var before, g := gs[..i], gs[i];
    && g.w == asked.w && g.h == asked.h && Searchable(g, columns) && !Blocked(g, before)
    && forall x, y :: 0 <= x <= columns - g.w && 0 <= y && Before(x, y, g) ==> Blocked(g.(x := x, y := y), before)
  }

  /** Without a priority card the cards settle in page order. */
  lemma EveryCellInTurn<K, P>(cards: seq<Card<K, P>>, columns: int, i: nat)
    requires columns >= 1 && DistinctIds(cards) && i < |cards|
    ensures
      var gs := GridsOf(Pack(cards, columns, None));
      match cards[i].grid
      case Some(g) => PushedInTurn(gs, i, Clamped(g, columns), columns)
      case None => FirstInTurn(gs, i, Clamped(DefaultGrid(cards[i].kind), columns), columns)
  {
    hide Pack, Clamped, Overlap, Searchable;
    var packed := Pack(cards, columns, None);
    var gs := GridsOf(packed);
    EveryCellIsOk(cards, columns, None, i);
    forall g ensures Taken(packed, None, i, g) <==> Blocked(g, gs[..i]) {
      TakenInTurn(packed, i, g);
    }
    hide Taken, Blocked;
  }

  lemma TakenInTurn<K, P>(packed: seq<Card<K, P>>, i: nat, g: Grid)
    requires Gridded(packed) && i < |packed|
    ensures Taken(packed, None, i, g) <==> Blocked(g, GridsOf(packed)[..i])
  {
    hide Overlap;
    var gs := GridsOf(packed)[..i];
    if Taken(packed, None, i, g) {
      var j: nat :| j < |packed| && Precedes(packed, None, j, i) && Overlap(g, packed[j].grid.value);
      assert gs[j] == packed[j].grid.value;
    }
    if Blocked(g, gs) {
      var j: nat :| j < |gs| && Overlap(g, gs[j]);
      assert Precedes(packed, None, j, i);
    }
  }

  /** A fitting grid that none before it overlaps is kept. */
  lemma FreeCellIsKept(gs: seq<Grid>, i: nat, asked: Grid, columns: int)
    requires columns >= 1 && i < |gs| && PushedInTurn(gs, i, Clamped(asked, columns), columns)
    requires Fits(asked, columns) && !Blocked(asked, gs[..i])
    ensures gs[i] == asked
  {
    hide Blocked;
    assert Clamped(asked, columns) == asked;
    assert asked.(y := asked.y) == asked;
  }
}
