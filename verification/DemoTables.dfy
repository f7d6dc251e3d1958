/**
 * The demonstration tables of the management report (apps/dashboard/src/lib/management-demo.ts),
 * amounts in millions scaled to units.
 */
module DemoTables {
  import opened Common
  import opened ManagementReport

  function Millions(n: int): int {
    n * 1000000
  }

  function Entry(id: string, group: string, millions: int, shares: seq<int>, season: Season, factor: real): Line {
    Line(id, group, Millions(millions), shares, season, Some(factor))
  }

  const REVENUE_GROUPS: seq<string> := ["accommodation", "fnb", "other"]
  const EXPENSE_GROUPS: seq<string> := ["direct", "selling", "administrative", "finance"]

  const ACCOMMODATION: seq<Line> := [
    Entry("rooms", "accommodation", 305, [55, 35, 10], Leisure, 0.98),
    Entry("packages", "accommodation", 25, [62, 25, 13], Leisure, 1.03)]

  const FNB: seq<Line> := [
    Entry("restaurant", "fnb", 85, [55, 35, 10], Leisure, 1.04),
    Entry("banquets", "fnb", 50, [50, 45, 5], Banquet, 1.08),
    Entry("bar", "fnb", 22, [55, 40, 5], Leisure, 0.99),
    Entry("room_service", "fnb", 12, [55, 40, 5], Steady, 1.01),
    Entry("minibar", "fnb", 6, [55, 35, 10], Steady, 0.96),
    Entry("hookah", "fnb", 5, [60, 35, 5], Leisure, 0.94)]

  const OTHER: seq<Line> := [
    Entry("spa", "other", 28, [70, 20, 10], Leisure, 1.06),
    Entry("bath", "other", 20, [70, 10, 20], Leisure, 1.02),
    Entry("equipment", "other", 12, [60, 10, 30], Leisure, 0.96),
    Entry("transfer", "other", 9, [50, 40, 10], Steady, 1.01),
    Entry("activities", "other", 10, [60, 10, 30], Leisure, 1.04),
    Entry("parking", "other", 5, [40, 55, 5], City, 0.98),
    Entry("laundry", "other", 6, [60, 35, 5], Steady, 0.97)]

  const DIRECT: seq<Line> := [
    Entry("ops_payroll", "direct", 126, [55, 35, 10], Steady, 1.02),
    Entry("food_cost", "direct", 61, [55, 36, 9], Leisure, 1.06),
    Entry("utilities", "direct", 34, [53, 39, 8], Steady, 1.08),
    Entry("housekeeping", "direct", 17, [56, 35, 9], Leisure, 0.98),
    Entry("maintenance", "direct", 21, [57, 34, 9], Steady, 1.03),
    Entry("depreciation", "direct", 14, [55, 37, 8], Steady, 1.0),
    Entry("amenities", "direct", 9, [58, 32, 10], Leisure, 1.01)]

  const OVERHEAD: seq<Line> := [
    Entry("ota", "selling", 29, [55, 37, 8], Leisure, 1.04),
    Entry("marketing", "selling", 20, [50, 40, 10], Steady, 0.95),
    Entry("loyalty", "selling", 6, [60, 32, 8], Leisure, 1.08),
    Entry("admin_payroll", "administrative", 34, [49, 43, 8], Steady, 1.01),
    Entry("it_security", "administrative", 22, [47, 45, 8], Steady, 1.02),
    Entry("rent_insurance", "administrative", 17, [44, 48, 8], Steady, 1.03),
    Entry("interest", "finance", 10, [55, 38, 7], Steady, 1.01)]

  const REVENUE := ACCOMMODATION + FNB + OTHER
  const EXPENSE := DIRECT + OVERHEAD

  predicate Sound(lines: seq<Line>, groups: seq<string>) {
    forall i :: 0 <= i < |lines| ==> LineOk(lines[i]) && lines[i].group in groups
  }

  lemma RevenueIsSound()
    ensures Sound(REVENUE, REVENUE_GROUPS)
  {
    assert Sound(ACCOMMODATION, REVENUE_GROUPS);
    assert Sound(FNB, REVENUE_GROUPS);
    assert Sound(OTHER, REVENUE_GROUPS);
  }

  lemma ExpenseIsSound()
    ensures Sound(EXPENSE, EXPENSE_GROUPS)
  {
    assert Sound(DIRECT, EXPENSE_GROUPS);
    assert Sound(OVERHEAD, EXPENSE_GROUPS);
  }

  /** Both tables meet the conditions under which the report's totals add up. */
  lemma TablesArePartitioned()
    ensures LinesOk(REVENUE) && Partitioned(REVENUE, REVENUE_GROUPS)
    ensures LinesOk(EXPENSE) && Partitioned(EXPENSE, EXPENSE_GROUPS)
  {
    hide LineOk;
    RevenueIsSound();
    ExpenseIsSound();
  }
}
