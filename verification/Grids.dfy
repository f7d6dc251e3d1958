/** Rectangles on the dashboard canvas (packages/shared/src/workspace-layout.ts). */
module Grids {
  datatype Grid = Grid(x: int, y: int, w: int, h: int)

  /** The last row a saved card may start in. */
  const MAX_ROW := 1024

  /** The cell ranges a saved (version 3) card may occupy. */
  predicate ValidGrid(g: Grid) {
    0 <= g.x && 0 <= g.y <= MAX_ROW && 2 <= g.w <= 12 && g.x + g.w <= 12 && 3 <= g.h <= 16
  }

  predicate Overlap(a: Grid, b: Grid) {
    a.x < b.x + b.w && b.x < a.x + a.w && a.y < b.y + b.h && b.y < a.y + a.h
  }

  function DefaultGrid(kind: string): Grid {
    if kind in ["occupancy", "adr", "revpar", "pickup", "earnedRevenue"] then Grid(0, 0, 3, 3)
    else if kind in ["metrics", "operations", "drr", "financialSummary"] then Grid(0, 0, 12, 6)
    else Grid(0, 0, 6, 6)
  }

  /** The unit cell (cx, cy) belongs to the card's rectangle. */
  ghost predicate Covers(g: Grid, cx: int, cy: int) {
    g.x <= cx < g.x + g.w && g.y <= cy < g.y + g.h
  }

  /** The four-way comparison means exactly that the two cards share a unit cell. */
  lemma OverlapIsSharedCell(a: Grid, b: Grid)
    requires a.w > 0 && a.h > 0 && b.w > 0 && b.h > 0
    ensures Overlap(a, b) <==> exists cx, cy :: Covers(a, cx, cy) && Covers(b, cx, cy)
  {
    if Overlap(a, b) {
      var cx := if a.x < b.x then b.x else a.x;
      var cy := if a.y < b.y then b.y else a.y;
      assert Covers(a, cx, cy) && Covers(b, cx, cy);
    }
  }

  ghost predicate Disjoint(gs: seq<Grid>) {
    forall i, j :: 0 <= i < j < |gs| ==> !Overlap(gs[i], gs[j])
  }
}
