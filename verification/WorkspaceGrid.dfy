/** Showing a page on a narrower canvas and committing a move made there (apps/dashboard/src/lib/workspace-grid.ts). */
module WorkspaceGrid {
  import opened Common
  import opened Grids
  import opened Packing

  /** Math.round(a / b): nearest integer, halves upwards. */
  function RoundDiv(a: int, b: int): int
    requires b > 0
  {
    (2 * a + b) / (2 * b)
  }

  function Scaled(g: Grid, columns: int): Grid {
    g.(x := g.x * columns / 12, w := Max(2, RoundDiv(g.w * columns, 12)))
  }

  function ProjectCard<P>(c: Card<string, P>, columns: int): Card<string, P> {
    var g := if c.grid.Some? then c.grid.value else DefaultGrid(c.kind);
    c.(grid := Some(Scaled(g, columns)))
  }

  function ProjectWorkspace<P>(widgets: seq<Card<string, P>>, columns: int): seq<Card<string, P>>
    requires columns >= 1
  {
    Pack(seq(|widgets|, i requires 0 <= i < |widgets| => ProjectCard(widgets[i], columns)), columns, None)
  }

  /** The requested cell in canonical (12-column) units. */
  function Canonical(g: Grid, columns: int): Grid
    requires columns >= 1
  {
    var w := Max(2, Min(12, RoundDiv(g.w * 12, columns)));
    g.(w := w, x := Max(0, Min(12 - w, RoundDiv(g.x * 12, columns))))
  }

  function Replaced<P>(widgets: seq<Card<string, P>>, id: string, g: Grid): (r: seq<Card<string, P>>)
    ensures |r| == |widgets|
  {
    seq(|widgets|, i requires 0 <= i < |widgets| =>
      if widgets[i].id == id then widgets[i].(grid := Some(g)) else widgets[i])
  }

  /** An empty identifier is falsy in the source and gives no card priority. */
  function CommitGridChange<P>(widgets: seq<Card<string, P>>, id: string, grid: Grid, columns: int)
    : seq<Card<string, P>>
    requires columns >= 1
  {
    Pack(Replaced(widgets, id, Canonical(grid, columns)), 12, if id == "" then None else Some(id))
  }

  /** A page the validator accepts: distinct identifiers, valid disjoint grids, at most 24 cards. */
  ghost predicate SavablePage<P>(widgets: seq<Card<string, P>>) {
    DistinctIds(widgets) && Settled(widgets) && |widgets| <= 24 && forall c <- widgets :: ValidGrid(c.grid.value)
  }

  /** On any canvas the projection of a page fits without overlap and keeps every card. */
  lemma ProjectionFits<P>(widgets: seq<Card<string, P>>, columns: int)
    requires columns >= 1 && DistinctIds(widgets) && |widgets| <= 24
    ensures var r := ProjectWorkspace(widgets, columns);
      && |r| == |widgets| && Settled(r)
      && forall i :: 0 <= i < |r| ==> r[i] == widgets[i].(grid := r[i].grid) && Fits(r[i].grid.value, columns)
  {
    PackIsSafe(seq(|widgets|, i requires 0 <= i < |widgets| => ProjectCard(widgets[i], columns)), columns, None);
  }

  /** On the canonical canvas the projection is the identity on savable pages. */
  lemma ProjectionAtTwelveIsIdentity<P>(widgets: seq<Card<string, P>>)
    requires SavablePage(widgets)
    ensures ProjectWorkspace(widgets, 12) == widgets
  {
    var s := seq(|widgets|, i requires 0 <= i < |widgets| => ProjectCard(widgets[i], 12));
    assert s == widgets;
    PackFixesSettledPage(widgets, 12, None);
  }

  /** Whatever cell is committed, from whatever canvas, the page stays savable and keeps its cards in order. */
  lemma CommitStaysSavable<P>(widgets: seq<Card<string, P>>, id: string, grid: Grid, columns: int)
    requires columns >= 1 && DistinctIds(widgets) && |widgets| <= 24
    ensures var r := CommitGridChange(widgets, id, grid, columns);
      SavablePage(r) && |r| == |widgets| && forall i :: 0 <= i < |r| ==> r[i] == widgets[i].(grid := r[i].grid)
  {
    hide Canonical, Pack;
    var cards := Replaced(widgets, id, Canonical(grid, columns));
    PackIsSafe(cards, 12, if id == "" then None else Some(id));
  }

  lemma CanonicalAtTwelve(g: Grid)
    requires ValidGrid(g)
    ensures Canonical(g, 12) == g && Clamped(g, 12) == g
  {}

  /** The moved card gets the committed cell in canonical units, brought into the canvas. */
  lemma CommitMovesTheCard<P>(widgets: seq<Card<string, P>>, i: nat, grid: Grid, columns: int)
    requires columns >= 1 && DistinctIds(widgets) && i < |widgets| && widgets[i].id != ""
    ensures CommitGridChange(widgets, widgets[i].id, grid, columns)[i].grid
      == Some(Clamped(Canonical(grid, columns), 12))
    ensures columns == 12 && ValidGrid(grid) ==>
      CommitGridChange(widgets, widgets[i].id, grid, columns)[i].grid == Some(grid)
  {
    if columns == 12 && ValidGrid(grid) {
      CanonicalAtTwelve(grid);
    }
    MovedCardKeepsItsCell(Replaced(widgets, widgets[i].id, Canonical(grid, columns)), 12, i);
  }

  /** Committing a card's own cell changes nothing. */
  lemma CommitOwnCellIsIdentity<P>(widgets: seq<Card<string, P>>, i: nat)
    requires SavablePage(widgets) && i < |widgets|
    ensures CommitGridChange(widgets, widgets[i].id, widgets[i].grid.value, 12) == widgets
  {
    CanonicalAtTwelve(widgets[i].grid.value);
    assert Replaced(widgets, widgets[i].id, Canonical(widgets[i].grid.value, 12)) == widgets;
    PackFixesSettledPage(widgets, 12, if widgets[i].id == "" then None else Some(widgets[i].id));
  }

  // ----- How far scaling moves a card -----------------------------------------

  /** The column is scaled and rounded down, the width rounded to the nearest, halves upwards, but to 2 at least. */
  lemma ScaledIsNear(g: Grid, columns: int)
    requires columns >= 1
    ensures
      var s := Scaled(g, columns);
      && s.y == g.y && s.h == g.h && s.w >= 2
      && 12 * s.x <= g.x * columns < 12 * (s.x + 1)
      && (s.w > 2 ==> 12 * (2 * s.w - 1) <= 2 * (g.w * columns)) && 2 * (g.w * columns) < 12 * (2 * s.w + 1)
  {
    NearestQuotient(g.w * columns, 12);
  }

  lemma NearestQuotient(a: int, b: int)
    requires b > 0
    ensures var r := RoundDiv(a, b); b * (2 * r - 1) <= 2 * a < b * (2 * r + 1)
  {
    var n, d := 2 * a + b, 2 * b;
    assert d * (n / d) <= n < d * (n / d) + d;
    assert b * (2 * RoundDiv(a, b)) == d * (n / d);
  }

  /** Back in canonical units, column and width are the nearest, as far as 2 to 12 columns allow. */
  lemma CanonicalIsNear(g: Grid, columns: int)
    requires columns >= 1
    ensures
      var c := Canonical(g, columns);
      && c.y == g.y && c.h == g.h && 2 <= c.w <= 12 && 0 <= c.x <= 12 - c.w
      && (c.w > 2 ==> columns * (2 * c.w - 1) <= 24 * g.w) && (c.w < 12 ==> 24 * g.w < columns * (2 * c.w + 1))
      && (c.x > 0 ==> columns * (2 * c.x - 1) <= 24 * g.x)
      && (c.x < 12 - c.w ==> 24 * g.x < columns * (2 * c.x + 1))
  {
    NearestQuotient(g.w * 12, columns);
    NearestQuotient(g.x * 12, columns);
    NearestClamped(g.w * 12, columns, 2, 12);
    NearestClamped(g.x * 12, columns, 0, 12 - Canonical(g, columns).w);
  }

  lemma NearestClamped(a: int, b: int, low: int, high: int)
    requires b > 0 && low <= high
    ensures
      var r := Max(low, Min(high, RoundDiv(a, b)));
      && low <= r <= high
      && (r > low ==> b * (2 * r - 1) <= 2 * a) && (r < high ==> 2 * a < b * (2 * r + 1))
  {
    NearestQuotient(a, b);
    var q := RoundDiv(a, b);
    var r := Max(low, Min(high, q));
    if r < q {
      assert b * (2 * q - 1) == b * (2 * r - 1) + b * (2 * (q - r));
      assert b * (2 * (q - r)) >= 0;
    }
    if q < r {
      assert b * (2 * r + 1) == b * (2 * q + 1) + b * (2 * (r - q));
      assert b * (2 * (r - q)) >= 0;
    }
  }

  /** On any canvas every card asks for its scaled cell, and is pushed down past the cards before it. */
  lemma ProjectionPushesDown<P>(widgets: seq<Card<string, P>>, columns: int, i: nat)
    requires columns >= 1 && DistinctIds(widgets) && i < |widgets|
    ensures
      var g := if widgets[i].grid.Some? then widgets[i].grid.value else DefaultGrid(widgets[i].kind);
      PushedInTurn(GridsOf(ProjectWorkspace(widgets, columns)), i, Clamped(Scaled(g, columns), columns), columns)
  {
    hide Scaled, PushedInTurn, Pack;
    EveryCellInTurn(seq(|widgets|, k requires 0 <= k < |widgets| => ProjectCard(widgets[k], columns)), columns, i);
  }

  /** After a commit the moved card stands first; every other card asks for its own cell. */
  lemma CommitPushesDown<P>(widgets: seq<Card<string, P>>, id: string, grid: Grid, columns: int, i: nat)
    requires columns >= 1 && DistinctIds(widgets) && i < |widgets|
    ensures
      var card := if widgets[i].id == id then widgets[i].(grid := Some(Canonical(grid, columns))) else widgets[i];
      CellOk(card, CommitGridChange(widgets, id, grid, columns), if id == "" then None else Some(id), i, 12)
  {
    hide Canonical, CellOk, Pack;
    EveryCellIsOk(Replaced(widgets, id, Canonical(grid, columns)), 12, if id == "" then None else Some(id), i);
  }
}
