/**
 * Per-night dynamic pricing (apps/dashboard/src/lib/dynamic-pricing.ts), over exact reals.
 * A calendar date is its day number.
 */
module DynamicPricing {
  import opened Common

  datatype Category = Standard | Deluxe | Suite

  datatype OccupancyTiers = OccupancyTiers(
    lowBelow: real, neutralThrough: real, highThrough: real,
    lowAdjustment: real, neutralAdjustment: real, highAdjustment: real, peakAdjustment: real)

  datatype PaceTiers = PaceTiers(tier1Above: real, tier1Adjustment: real, tier2Above: real, tier2Adjustment: real)

  datatype LeadTiers = LeadTiers(nearThroughDays: int, nearAdjustment: real, midThroughDays: int, midAdjustment: real)

  datatype Decay = Decay(enabled: bool, amount: real, fromHour: int)

  datatype Settings = Settings(
    baseRate: real, floorPrice: real, roundingStep: real, multipliers: map<Category, real>,
    occupancy: OccupancyTiers, pace: PaceTiers, leadTime: LeadTiers, decay: Decay)

  datatype Night = Night(date: int, occupancyPercent: real, bookings: real, event: real)

  datatype Clock = Clock(today: int, hour: int)

  /** The widest discount the adjustments may compose. */
  const MAX_DISCOUNT := -0.8

  // ----- Rounding -------------------------------------------------------------

  function MaxR(a: real, b: real): real {
    if a >= b then a else b
  }

  function AbsR(a: real): real {
    if a < 0.0 then -a else a
  }

  function SafeStep(step: real): (s: real)
    ensures s > 0.0
  {
    if step > 0.0 then step else 1.0
  }

  function Nearest(value: real, step: real): real
    requires step > 0.0
  {
    Times(Round(value / step), step)
  }

  function StepAbove(value: real, step: real): real
    requires step > 0.0
  {
    Times(Ceil(value / step), step)
  }

  function RoundToStep(value: real, step: real, floor: Option<real>): real {
    var rounded := Nearest(value, SafeStep(step));
    if floor.Some? && rounded < floor.value then StepAbove(floor.value, SafeStep(step)) else rounded
  }

  function Times(k: int, step: real): real {
    k as real * step
  }

  ghost predicate MultipleOf(x: real, step: real) {
    exists k: int :: x == Times(k, step)
  }

  lemma NearestIsClose(value: real, step: real)
    requires step > 0.0
    ensures value - step / 2.0 < Nearest(value, step) && Nearest(value, step) <= value + step / 2.0
    ensures MultipleOf(Nearest(value, step), step)
  {
    hide Prod;
    QuotientTimes(value, step);
    var q := value / step;
    WithinSteps(q, Round(q) as real, step, 0.5, 0.5);
    TimesIsProd(Round(q), step);
    HalfStep(step);
  }

  lemma StepAboveIsClose(value: real, step: real)
    requires step > 0.0
    ensures value <= StepAbove(value, step) && StepAbove(value, step) < value + step
    ensures MultipleOf(StepAbove(value, step), step)
  {
    hide Prod;
    QuotientTimes(value, step);
    var q := value / step;
    WithinSteps(q, Ceil(q) as real, step, 0.0, 1.0);
    TimesIsProd(Ceil(q), step);
    HalfStep(step);
  }

  /** A bound on the number of steps is a bound on the distance. */
  lemma WithinSteps(q: real, r: real, step: real, below: real, above: real)
    requires step > 0.0
    ensures q - below < r ==> Prod(q, step) - Prod(below, step) < Prod(r, step)
    ensures q - below <= r ==> Prod(q, step) - Prod(below, step) <= Prod(r, step)
    ensures r < q + above ==> Prod(r, step) < Prod(q, step) + Prod(above, step)
    ensures r <= q + above ==> Prod(r, step) <= Prod(q, step) + Prod(above, step)
  {
    var low, high := r - q + below, q + above - r;
    assert low * step == r * step - q * step + below * step;
    assert high * step == q * step + above * step - r * step;
    assert (low > 0.0 ==> low * step > 0.0) && (low >= 0.0 ==> low * step >= 0.0);
    assert (high > 0.0 ==> high * step > 0.0) && (high >= 0.0 ==> high * step >= 0.0);
  }

  lemma TimesIsProd(k: int, step: real)
    ensures Times(k, step) == Prod(k as real, step)
  {}

  lemma HalfStep(step: real)
    ensures Prod(0.5, step) == step / 2.0 && Prod(1.0, step) == step && Prod(0.0, step) == 0.0
  {}

  /** Commercial rounding gives a multiple of the step, never under the floor, less than one step away. */
  lemma RoundToStepIsSafe(value: real, step: real, floor: real)
    requires step > 0.0 && floor <= value
    ensures var r := RoundToStep(value, step, Some(floor));
      MultipleOf(r, step) && floor <= r && AbsR(r - value) < step
  {
    NearestIsClose(value, step);
    StepAboveIsClose(floor, step);
  }

  /** StepAbove is the least multiple of the step at or above its argument. */
  lemma StepAboveIsLeast(value: real, step: real, k: int)
    requires step > 0.0 && value <= Times(k, step)
    ensures StepAbove(value, step) <= Times(k, step)
  {
    var q := value / step;
    assert q * step == value;
    ScaleOrder(q, k as real, step);
    assert Ceil(q) <= k;
    ScaleOrder(Ceil(q) as real, k as real, step);
  }

  lemma NearestIsMonotone(a: real, b: real, step: real)
    requires step > 0.0 && a <= b
    ensures Nearest(a, step) <= Nearest(b, step)
  {
    var p, q := a / step, b / step;
    assert p * step == a && q * step == b;
    ScaleOrder(p, q, step);
    assert Round(p) <= Round(q);
    ScaleOrder(Round(p) as real, Round(q) as real, step);
  }

  lemma RoundToStepIsMonotone(a: real, b: real, step: real, floor: real)
    requires a <= b
    ensures RoundToStep(a, step, Some(floor)) <= RoundToStep(b, step, Some(floor))
  {
    var s := SafeStep(step);
    NearestIsMonotone(a, b, s);
    if Nearest(a, s) < floor <= Nearest(b, s) {
      StepAboveIsLeast(floor, s, Round(b / s));
    }
  }

  // ----- Adjustment tiers -----------------------------------------------------

  function OccupancyAdjustment(occupancy: real, tiers: OccupancyTiers): real {
    if occupancy < tiers.lowBelow then tiers.lowAdjustment
    else if occupancy <= tiers.neutralThrough then tiers.neutralAdjustment
    else if occupancy <= tiers.highThrough then tiers.highAdjustment
    else tiers.peakAdjustment
  }

  function PaceAdjustment(bookings: real, pace: PaceTiers): real {
    if bookings > pace.tier2Above then pace.tier2Adjustment
    else if bookings > pace.tier1Above then pace.tier1Adjustment
    else 0.0
  }

  function LeadAdjustment(days: int, lead: LeadTiers): real {
    if days < 0 then 0.0
    else if days <= lead.nearThroughDays then lead.nearAdjustment
    else if days <= lead.midThroughDays then lead.midAdjustment
    else 0.0
  }

  // ----- One night ------------------------------------------------------------

  datatype Adjustments = Adjustments(event: real, occupancy: real, pace: real, leadTime: real)

  function RawAdjustments(night: Night, s: Settings, clock: Clock): Adjustments {
    Adjustments(night.event, OccupancyAdjustment(night.occupancyPercent, s.occupancy),
                PaceAdjustment(night.bookings, s.pace), LeadAdjustment(night.date - clock.today, s.leadTime))
  }

  function Total(a: Adjustments): real {
    a.event + a.occupancy + a.pace + a.leadTime
  }

  function Scaled(a: Adjustments, k: real): Adjustments {
    Adjustments(a.event * k, a.occupancy * k, a.pace * k, a.leadTime * k)
  }

  /** Below -80% the adjustments are scaled down together. */
  function Applied(raw: Adjustments): Adjustments {
    if Total(raw) < MAX_DISCOUNT then Scaled(raw, MAX_DISCOUNT / Total(raw)) else raw
  }

  function Multiplier(s: Settings, category: Category): real {
    if category in s.multipliers then s.multipliers[category] else 1.0
  }

  function IntradayApplies(night: Night, s: Settings, clock: Clock): bool {
    && s.decay.enabled && s.decay.amount > 0.0
    && night.date - clock.today == 0 && night.date == clock.today && clock.hour >= s.decay.fromHour
  }

  /** Price before floor and rounding, as a multiple of the base rate. */
  function Coefficient(night: Night, category: Category, s: Settings, clock: Clock): real {
    Prod(Prod(Multiplier(s, category), 1.0 + MaxR(MAX_DISCOUNT, Total(RawAdjustments(night, s, clock)))),
         if IntradayApplies(night, s, clock) then 1.0 - s.decay.amount else 1.0)
  }

  function RawPrice(night: Night, category: Category, s: Settings, clock: Clock): real {
    Prod(s.baseRate, Coefficient(night, category, s, clock))
  }

  /** Floor, then commercial rounding. */
  function Charged(raw: real, s: Settings): real {
    RoundToStep(MaxR(s.floorPrice, raw), s.roundingStep, Some(s.floorPrice))
  }

  function FinalPrice(night: Night, category: Category, s: Settings, clock: Clock): real {
    Charged(RawPrice(night, category, s, clock), s)
  }

  datatype Kind =
    Base | CategoryLine | Event | Occupancy | Pace | LeadTime | Clamp | Intraday | Floor | Rounding | TotalLine

  datatype Line = Line(kind: Kind, amount: real)

  datatype NightPrice = NightPrice(
    date: int, leadTimeDays: int, occupancyPercent: real, category: Category, adjustments: Adjustments,
    adjustmentTotal: real, rawPrice: real, intradayApplied: bool, floorApplied: bool, roundingDelta: real,
    finalPrice: real, lines: seq<Line>)

  function SumLines(lines: seq<Line>): real {
    if lines == [] then 0.0 else SumLines(lines[..|lines| - 1]) + lines[|lines| - 1].amount
  }

  /** What the breakdown shows under one heading. */
  function AmountOf(lines: seq<Line>, kind: Kind): real {
    if lines == [] then 0.0
    else
      var last := lines[|lines| - 1];
      AmountOf(lines[..|lines| - 1], kind) + if last.kind == kind then last.amount else 0.0
  }

  lemma SumsOfSnoc(lines: seq<Line>, line: Line)
    ensures SumLines(lines + [line]) == SumLines(lines) + line.amount
    ensures forall k :: AmountOf(lines + [line], k) == AmountOf(lines, k) + if k == line.kind then line.amount else 0.0
  {
    assert (lines + [line])[..|lines|] == lines;
  }

  ghost function Headings(lines: seq<Line>): set<Kind> {
    set i | 0 <= i < |lines| :: lines[i].kind
  }

  /** The place of a heading in the breakdown. */
  function Rank(kind: Kind): nat {
    match kind
    case Base => 0
    case CategoryLine => 1
    case Event => 2
    case Occupancy => 3
    case Pace => 4
    case LeadTime => 5
    case Clamp => 6
    case Intraday => 7
    case Floor => 8
    case Rounding => 9
    case TotalLine => 10
  }

  /** Every heading at most once, in the order of the breakdown. */
  ghost predicate InOrder(lines: seq<Line>) {
    forall i, j :: 0 <= i < j < |lines| ==> Rank(lines[i].kind) < Rank(lines[j].kind)
  }

  /** Appends a line only when its condition holds; skipping a zero amount keeps every sum. */
  method Push(lines: seq<Line>, when: bool, kind: Kind, amount: real) returns (r: seq<Line>)
    requires !when ==> amount == 0.0
    requires InOrder(lines) && forall k <- Headings(lines) :: Rank(k) < Rank(kind)
    ensures InOrder(r) && Headings(r) == Headings(lines) + if when then {kind} else {}
    ensures SumLines(r) == SumLines(lines) + amount
    ensures forall k :: AmountOf(r, k) == AmountOf(lines, k) + if k == kind then amount else 0.0
  {
    r := lines;
    if when {
      SumsOfSnoc(lines, Line(kind, amount));
      HeadingsOfSnoc(lines, Line(kind, amount));
      r := r + [Line(kind, amount)];
    }
  }

  lemma HeadingsOfSnoc(lines: seq<Line>, line: Line)
    requires InOrder(lines) && forall k <- Headings(lines) :: Rank(k) < Rank(line.kind)
    ensures InOrder(lines + [line]) && Headings(lines + [line]) == Headings(lines) + {line.kind}
  {
    var after := lines + [line];
    assert after[|lines|] == line;
    forall i | 0 <= i < |lines| ensures after[i] == lines[i] && lines[i].kind in Headings(lines) {}
  }

  /** The headings that are shown: the base price and every step that has an effect. */
  ghost predicate Shown(kind: Kind, t: Steps, a: Adjustments, clamped: bool, intraday: bool) {
    match kind
    case Base => true
    case CategoryLine => t.category != 0.0
    case Event => a.event != 0.0
    case Occupancy => a.occupancy != 0.0
    case Pace => a.pace != 0.0
    case LeadTime => a.leadTime != 0.0
    case Clamp => clamped
    case Intraday => intraday
    case Floor => t.floor > 0.0
    case Rounding => t.rounding != 0.0
    case TotalLine => false
  }

  /** Scaling by the clamp makes the applied contributions add up to the applied total. */
  lemma AppliedTotal(raw: Adjustments)
    ensures Total(Applied(raw)) == MaxR(MAX_DISCOUNT, Total(raw))
  {
    if Total(raw) < MAX_DISCOUNT {
      var k := MAX_DISCOUNT / Total(raw);
      calc {
        Total(Scaled(raw, k));
        (raw.event + raw.occupancy + raw.pace + raw.leadTime) * k;
        Total(raw) * k;
        MAX_DISCOUNT;
      }
    }
  }

  /** The contribution of every pricing step, in the order of the breakdown. */
  datatype Steps = Steps(
    base: real, category: real, event: real, occupancy: real, pace: real, leadTime: real,
    intraday: real, floor: real, rounding: real)

  function AmountIn(t: Steps, k: Kind): real {
    match k
    case Base => t.base
    case CategoryLine => t.category
    case Event => t.event
    case Occupancy => t.occupancy
    case Pace => t.pace
    case LeadTime => t.leadTime
    case Intraday => t.intraday
    case Floor => t.floor
    case Rounding => t.rounding
    case _ => 0.0
  }

  function SumSteps(t: Steps): real {
    t.base + t.category + t.event + t.occupancy + t.pace + t.leadTime + t.intraday + t.floor + t.rounding
  }

  /** Price after category and adjustments, before the same-day decay. */
  function Calculated(night: Night, category: Category, s: Settings, clock: Clock): real {
    Prod(Prod(s.baseRate, Multiplier(s, category)),
         1.0 + MaxR(MAX_DISCOUNT, Total(RawAdjustments(night, s, clock))))
  }

  function Waterfall(night: Night, category: Category, s: Settings, clock: Clock): Steps {
    var base := Prod(s.baseRate, Multiplier(s, category));
    var a := Applied(RawAdjustments(night, s, clock));
    var raw := RawPrice(night, category, s, clock);
    var floored := MaxR(s.floorPrice, raw);
    Steps(s.baseRate, base - s.baseRate,
          Prod(base, a.event), Prod(base, a.occupancy), Prod(base, a.pace), Prod(base, a.leadTime),
          raw - Calculated(night, category, s, clock), floored - raw, Charged(raw, s) - floored)
  }

  /** The steps add up to the final price, also when the clamp rescales the contributions. */
  lemma WaterfallReconciles(night: Night, category: Category, s: Settings, clock: Clock)
    ensures SumSteps(Waterfall(night, category, s, clock)) == FinalPrice(night, category, s, clock)
  {
    hide RawPrice, Charged, Multiplier, RawAdjustments, Total, Applied;
    var raw := RawAdjustments(night, s, clock);
    AppliedTotal(raw);
    ContributionsAddUp(s.baseRate * Multiplier(s, category), Applied(raw));
  }

  /** Without the same-day decay the intraday step is zero, without the floor the floor step is. */
  lemma DecayedIsRawPrice(night: Night, category: Category, s: Settings, clock: Clock)
    ensures RawPrice(night, category, s, clock) == Prod(
      Calculated(night, category, s, clock), if IntradayApplies(night, s, clock) then 1.0 - s.decay.amount else 1.0)
  {
    hide Total, RawAdjustments, Multiplier, MaxR;
    DecayedIsLinear(s.baseRate, Multiplier(s, category), MaxR(MAX_DISCOUNT, Total(RawAdjustments(night, s, clock))),
                    if IntradayApplies(night, s, clock) then 1.0 - s.decay.amount else 1.0);
  }

  /** The breakdown lines before the total, pushed one by one; a step without effect is not shown. */
  method ItemisedLines(t: Steps, a: Adjustments, clamped: bool, intraday: bool) returns (lines: seq<Line>)
    requires (a.event == 0.0 ==> t.event == 0.0) && (a.occupancy == 0.0 ==> t.occupancy == 0.0)
    requires (a.pace == 0.0 ==> t.pace == 0.0) && (a.leadTime == 0.0 ==> t.leadTime == 0.0)
    requires (!intraday ==> t.intraday == 0.0) && t.floor >= 0.0
    ensures SumLines(lines) == SumSteps(t) && forall k :: AmountOf(lines, k) == AmountIn(t, k)
    ensures InOrder(lines) && forall k :: k in Headings(lines) <==> Shown(k, t, a, clamped, intraday)
  {
    hide SumLines, AmountOf, InOrder, Headings;
    lines := AdjustmentLines(t, a);
    lines := ClosingLines(lines, t, clamped, intraday);
  }

  /** The part of the breakdown after the lead-time line. */
  method ClosingLines(before: seq<Line>, t: Steps, clamped: bool, intraday: bool) returns (lines: seq<Line>)
    requires (!intraday ==> t.intraday == 0.0) && t.floor >= 0.0
    requires InOrder(before) && forall k <- Headings(before) :: Rank(k) <= 5
    ensures SumLines(lines) == SumLines(before) + t.intraday + t.floor + t.rounding
    ensures forall k :: AmountOf(lines, k) == AmountOf(before, k) + if Rank(k) > 5 then AmountIn(t, k) else 0.0
    ensures InOrder(lines)
    ensures Headings(lines) == Headings(before) + (if clamped then {Clamp} else {})
      + (if intraday then {Intraday} else {}) + (if t.floor > 0.0 then {Floor} else {})
      + if t.rounding != 0.0 then {Rounding} else {}
  {
    hide SumLines, AmountOf, InOrder, Headings;
    lines := Push(before, clamped, Clamp, 0.0);
    lines := Push(lines, intraday, Intraday, t.intraday);
    lines := Push(lines, t.floor > 0.0, Floor, t.floor);
    lines := Push(lines, t.rounding != 0.0, Rounding, t.rounding);
  }

  /** The part of the breakdown up to the lead-time line. */
  method AdjustmentLines(t: Steps, a: Adjustments) returns (lines: seq<Line>)
    requires (a.event == 0.0 ==> t.event == 0.0) && (a.occupancy == 0.0 ==> t.occupancy == 0.0)
    requires (a.pace == 0.0 ==> t.pace == 0.0) && (a.leadTime == 0.0 ==> t.leadTime == 0.0)
    ensures SumLines(lines) == t.base + t.category + t.event + t.occupancy + t.pace + t.leadTime
    ensures forall k :: AmountOf(lines, k) == AmountIn(t.(intraday := 0.0, floor := 0.0, rounding := 0.0), k)
    ensures InOrder(lines)
    ensures forall k :: k in Headings(lines) <==> Rank(k) <= 5 && Shown(k, t, a, false, false)
  {
    hide SumLines, AmountOf, InOrder, Headings;
    lines := FirstLine(t.base);
    lines := Push(lines, t.category != 0.0, CategoryLine, t.category);
    lines := Push(lines, a.event != 0.0, Event, t.event);
    lines := Push(lines, a.occupancy != 0.0, Occupancy, t.occupancy);
    lines := Push(lines, a.pace != 0.0, Pace, t.pace);
    lines := Push(lines, a.leadTime != 0.0, LeadTime, t.leadTime);
  }

  method FirstLine(base: real) returns (lines: seq<Line>)
    ensures SumLines(lines) == base && forall k :: AmountOf(lines, k) == if k == Base then base else 0.0
    ensures InOrder(lines) && Headings(lines) == {Base}
  {
    SumsOfSnoc([], Line(Base, base));
    HeadingsOfSnoc([], Line(Base, base));
    assert Headings([]) == {};
    lines := [] + [Line(Base, base)];
  }

  /**
   * The breakdown: each heading shows its own step, exactly the steps with an effect are shown, in
   * order, and add up to the price, which the total line repeats.
   */
  ghost predicate Itemised(all: seq<Line>, t: Steps, a: Adjustments, clamped: bool, intraday: bool, price: real) {
    exists lines ::
      && all == lines + [Line(TotalLine, price)] && SumLines(lines) == price
      && (forall k :: AmountOf(lines, k) == AmountIn(t, k))
      && InOrder(lines) && forall k :: k in Headings(lines) <==> Shown(k, t, a, clamped, intraday)
  }

  /** The priced night and its breakdown. */
  ghost predicate NightPriced(r: NightPrice, night: Night, category: Category, s: Settings, clock: Clock) {
    && r.finalPrice == FinalPrice(night, category, s, clock)
    && r.rawPrice == RawPrice(night, category, s, clock)
    && r.adjustments == Applied(RawAdjustments(night, s, clock))
    && r.adjustmentTotal == Total(r.adjustments) >= MAX_DISCOUNT
    && r.intradayApplied == IntradayApplies(night, s, clock) && r.leadTimeDays == night.date - clock.today
    && (r.floorApplied <==> r.rawPrice < s.floorPrice)
    && r.roundingDelta == r.finalPrice - MaxR(s.floorPrice, r.rawPrice)
    && r.date == night.date && r.occupancyPercent == night.occupancyPercent && r.category == category
    && Itemised(r.lines, Waterfall(night, category, s, clock), r.adjustments,
                Total(RawAdjustments(night, s, clock)) < MAX_DISCOUNT, r.intradayApplied, r.finalPrice)
  }

  method ComputeNightPrice(night: Night, category: Category, s: Settings, clock: Clock) returns (r: NightPrice)
    ensures NightPriced(r, night, category, s, clock)
  {
    hide SumLines, AmountOf, InOrder, Headings, Shown, SumSteps, AmountIn, Total, RawAdjustments, IntradayApplies,
      Multiplier, Coefficient, RawPrice, RoundToStep, Applied;
    hide Prod;
    var categoryBase := Prod(s.baseRate, Multiplier(s, category));
    var days := night.date - clock.today;
    var raw := RawAdjustments(night, s, clock);
    var a := Applied(raw);
    var appliedSum := MaxR(MAX_DISCOUNT, Total(raw));
    AppliedTotal(raw);
    var calculated := Prod(categoryBase, 1.0 + appliedSum);
    var intraday := IntradayApplies(night, s, clock);
    var decayed := Prod(calculated, if intraday then 1.0 - s.decay.amount else 1.0);
    DecayedIsRawPrice(night, category, s, clock);
    assert decayed == RawPrice(night, category, s, clock);
    var floored := MaxR(s.floorPrice, decayed);
    var finalPrice := RoundToStep(floored, s.roundingStep, Some(s.floorPrice));
    assert finalPrice == Charged(decayed, s);
    var steps := Steps(s.baseRate, categoryBase - s.baseRate, Prod(categoryBase, a.event),
                       Prod(categoryBase, a.occupancy), Prod(categoryBase, a.pace), Prod(categoryBase, a.leadTime),
                       decayed - calculated, floored - decayed, finalPrice - floored);
    assert steps == Waterfall(night, category, s, clock);
    WaterfallReconciles(night, category, s, clock);
    ZeroProducts(categoryBase, calculated);
    var lines := ItemisedLines(steps, a, Total(raw) < MAX_DISCOUNT, intraday);
    var all := lines + [Line(TotalLine, finalPrice)];
    assert Itemised(all, steps, a, Total(raw) < MAX_DISCOUNT, intraday, finalPrice);
    hide Itemised, Waterfall, FinalPrice, Charged;
    r := NightPrice(night.date, days, night.occupancyPercent, category, a, appliedSum, decayed, intraday,
                    floored > decayed, finalPrice - floored, finalPrice, all);
  }

  /** An adjustment of zero contributes nothing, and without a cut the price stays. */
  lemma ZeroProducts(base: real, price: real)
    ensures Prod(base, 0.0) == 0.0 && Prod(price, 1.0) == price
  {}

  lemma ContributionsAddUp(base: real, a: Adjustments)
    ensures base + base * a.event + base * a.occupancy + base * a.pace + base * a.leadTime == base * (1.0 + Total(a))
  {}

  lemma DecayedIsLinear(base: real, multiplier: real, applied: real, decay: real)
    ensures base * multiplier * (1.0 + applied) * decay == base * (multiplier * (1.0 + applied) * decay)
  {}

  /** A night's price is a multiple of the step, never under the floor, less than one step from the floored price. */
  lemma FinalPriceIsSafe(night: Night, category: Category, s: Settings, clock: Clock)
    requires s.roundingStep > 0.0
    ensures var p := FinalPrice(night, category, s, clock);
      && MultipleOf(p, s.roundingStep) && s.floorPrice <= p
      && AbsR(p - MaxR(s.floorPrice, RawPrice(night, category, s, clock))) < s.roundingStep
  {
    hide RoundToStep, RawPrice;
    RoundToStepIsSafe(MaxR(s.floorPrice, RawPrice(night, category, s, clock)), s.roundingStep, s.floorPrice);
  }

  ghost predicate Sane(s: Settings) {
    (forall c <- s.multipliers :: s.multipliers[c] >= 0.0) && s.decay.amount <= 1.0
  }

  lemma CoefficientNonNegative(night: Night, category: Category, s: Settings, clock: Clock)
    requires Sane(s)
    ensures Coefficient(night, category, s, clock) >= 0.0
  {
    hide Prod, RawAdjustments, Total;
    var m := Multiplier(s, category);
    var f := 1.0 + MaxR(MAX_DISCOUNT, Total(RawAdjustments(night, s, clock)));
    ProdNonNegative(m, f);
    ProdNonNegative(Prod(m, f), if IntradayApplies(night, s, clock) then 1.0 - s.decay.amount else 1.0);
  }

  lemma CoefficientIgnoresBase(night: Night, category: Category, s: Settings, clock: Clock, base: real)
    ensures Coefficient(night, category, s.(baseRate := base), clock) == Coefficient(night, category, s, clock)
  {}

  /** Raising the base rate never lowers a night's price. */
  lemma PriceIsMonotone(night: Night, category: Category, s: Settings, clock: Clock, higher: real)
    requires Sane(s) && s.baseRate <= higher
    ensures FinalPrice(night, category, s, clock) <= FinalPrice(night, category, s.(baseRate := higher), clock)
  {
    hide Coefficient, RoundToStep, Prod;
    CoefficientIgnoresBase(night, category, s, clock, higher);
    CoefficientNonNegative(night, category, s, clock);
    ProdMonotone(s.baseRate, higher, Coefficient(night, category, s, clock));
    var low, high := RawPrice(night, category, s, clock), RawPrice(night, category, s.(baseRate := higher), clock);
    RoundToStepIsMonotone(MaxR(s.floorPrice, low), MaxR(s.floorPrice, high), s.roundingStep, s.floorPrice);
  }

  /** Thresholds and adjustments both rise with demand. */
  ghost predicate OrderedTiers(s: Settings) {
    && s.occupancy.lowBelow <= s.occupancy.neutralThrough <= s.occupancy.highThrough
    && s.occupancy.lowAdjustment <= s.occupancy.neutralAdjustment
       <= s.occupancy.highAdjustment <= s.occupancy.peakAdjustment
    && s.pace.tier1Above <= s.pace.tier2Above && 0.0 <= s.pace.tier1Adjustment <= s.pace.tier2Adjustment
  }

  lemma DemandRaisesAdjustments(a: Night, b: Night, s: Settings, clock: Clock)
    requires OrderedTiers(s) && a.date == b.date
    requires a.occupancyPercent <= b.occupancyPercent && a.bookings <= b.bookings && a.event <= b.event
    ensures Total(RawAdjustments(a, s, clock)) <= Total(RawAdjustments(b, s, clock))
  {}

  /** With ordered tiers, more occupancy, more bookings and a stronger event never make the same night cheaper. */
  lemma MoreDemandIsNeverCheaper(a: Night, b: Night, category: Category, s: Settings, clock: Clock)
    requires Sane(s) && OrderedTiers(s) && s.baseRate >= 0.0 && a.date == b.date
    requires a.occupancyPercent <= b.occupancyPercent && a.bookings <= b.bookings && a.event <= b.event
    ensures FinalPrice(a, category, s, clock) <= FinalPrice(b, category, s, clock)
  {
    hide RoundToStep, Sane, RawPrice;
    DemandRaisesRawPrice(a, b, category, s, clock);
    var low, high := RawPrice(a, category, s, clock), RawPrice(b, category, s, clock);
    RoundToStepIsMonotone(MaxR(s.floorPrice, low), MaxR(s.floorPrice, high), s.roundingStep, s.floorPrice);
  }

  lemma DemandRaisesRawPrice(a: Night, b: Night, category: Category, s: Settings, clock: Clock)
    requires Sane(s) && OrderedTiers(s) && s.baseRate >= 0.0 && a.date == b.date
    requires a.occupancyPercent <= b.occupancyPercent && a.bookings <= b.bookings && a.event <= b.event
    ensures RawPrice(a, category, s, clock) <= RawPrice(b, category, s, clock)
  {
    hide Total, RawAdjustments, OrderedTiers, Prod;
    DemandRaisesAdjustments(a, b, s, clock);
    var d := if IntradayApplies(a, s, clock) then 1.0 - s.decay.amount else 1.0;
    assert IntradayApplies(a, s, clock) == IntradayApplies(b, s, clock);
    var fa := 1.0 + MaxR(MAX_DISCOUNT, Total(RawAdjustments(a, s, clock)));
    var fb := 1.0 + MaxR(MAX_DISCOUNT, Total(RawAdjustments(b, s, clock)));
    FactorsAreMonotone(s.baseRate, Multiplier(s, category), fa, fb, d);
  }

  lemma FactorsAreMonotone(base: real, m: real, fa: real, fb: real, d: real)
    requires base >= 0.0 && m >= 0.0 && d >= 0.0 && fa <= fb
    ensures Prod(base, Prod(Prod(m, fa), d)) <= Prod(base, Prod(Prod(m, fb), d))
  {
    var x := m * (fb - fa);
    assert x >= 0.0 && x == m * fb - m * fa;
    var y := x * d;
    assert y >= 0.0 && y == m * fb * d - m * fa * d;
    assert base * y >= 0.0 && base * y == base * (m * fb * d) - base * (m * fa * d);
  }

  // ----- The price in terms of the settings -----------------------------------

  /** The category's factor: its own when the settings list it, 1 otherwise. */
  ghost predicate CategoryFactor(s: Settings, category: Category, m: real) {
    if category in s.multipliers then m == s.multipliers[category] else m == 1.0
  }

  /** The occupancy tier: below the first threshold, up to the second, up to the third, above. */
  ghost predicate OccupancyTier(x: real, t: OccupancyTiers, a: real) {
    && (x < t.lowBelow ==> a == t.lowAdjustment)
    && (t.lowBelow <= x <= t.neutralThrough ==> a == t.neutralAdjustment)
    && (t.lowBelow <= x && t.neutralThrough < x <= t.highThrough ==> a == t.highAdjustment)
    && (t.lowBelow <= x && t.neutralThrough < x && t.highThrough < x ==> a == t.peakAdjustment)
  }

  /** The booking-pace tier: both thresholds are exclusive. */
  ghost predicate PaceTier(x: real, t: PaceTiers, a: real) {
    && (x > t.tier2Above ==> a == t.tier2Adjustment)
    && (t.tier1Above < x <= t.tier2Above ==> a == t.tier1Adjustment)
    && (x <= t.tier1Above && x <= t.tier2Above ==> a == 0.0)
  }

  /** The lead-time tier: both thresholds are inclusive, and past nights have none. */
  ghost predicate LeadTier(days: int, t: LeadTiers, a: real) {
    && (days < 0 ==> a == 0.0)
    && (0 <= days <= t.nearThroughDays ==> a == t.nearAdjustment)
    && (0 <= days && t.nearThroughDays < days <= t.midThroughDays ==> a == t.midAdjustment)
    && (0 <= days && t.nearThroughDays < days && t.midThroughDays < days ==> a == 0.0)
  }

  /** The same-day factor: tonight's night, from the hour on, when the cut is enabled and positive. */
  ghost predicate SameDayFactor(night: Night, s: Settings, clock: Clock, d: real) {
    if s.decay.enabled && s.decay.amount > 0.0 && night.date == clock.today && s.decay.fromHour <= clock.hour
    then d == 1.0 - s.decay.amount else d == 1.0
  }

  /** The price before floor and rounding, from the thresholds and factors that apply. */
  lemma RawPriceExactly(night: Night, category: Category, s: Settings, clock: Clock,
                        m: real, o: real, p: real, l: real, d: real)
    requires CategoryFactor(s, category, m) && OccupancyTier(night.occupancyPercent, s.occupancy, o)
    requires PaceTier(night.bookings, s.pace, p) && LeadTier(night.date - clock.today, s.leadTime, l)
    requires SameDayFactor(night, s, clock, d)
    ensures RawAdjustments(night, s, clock) == Adjustments(night.event, o, p, l)
    ensures RawPrice(night, category, s, clock) == s.baseRate * m * (1.0 + MaxR(-0.8, night.event + o + p + l)) * d
  {
    TiersApply(night, s, clock, o, p, l);
    SameDayApplies(night, s, clock, d);
    assert Multiplier(s, category) == m;
    hide RawPrice, Prod, RawAdjustments, MaxR, IntradayApplies, Multiplier, OccupancyTier, PaceTier, LeadTier;
    DecayedIsRawPrice(night, category, s, clock);
  }

  lemma TiersApply(night: Night, s: Settings, clock: Clock, o: real, p: real, l: real)
    requires OccupancyTier(night.occupancyPercent, s.occupancy, o)
    requires PaceTier(night.bookings, s.pace, p) && LeadTier(night.date - clock.today, s.leadTime, l)
    ensures RawAdjustments(night, s, clock) == Adjustments(night.event, o, p, l)
  {}

  lemma SameDayApplies(night: Night, s: Settings, clock: Clock, d: real)
    requires SameDayFactor(night, s, clock, d)
    ensures d == if IntradayApplies(night, s, clock) then 1.0 - s.decay.amount else 1.0
  {}

  /** Prices of listed categories stand in the ratio of their factors. */
  lemma CategoryRatio(night: Night, c: Category, other: Category, s: Settings, clock: Clock)
    requires c in s.multipliers && other in s.multipliers
    ensures RawPrice(night, c, s, clock) * s.multipliers[other] == RawPrice(night, other, s, clock) * s.multipliers[c]
  {
    hide RawAdjustments, Total, IntradayApplies, MaxR, Prod;
    var f := 1.0 + MaxR(MAX_DISCOUNT, Total(RawAdjustments(night, s, clock)));
    var d := if IntradayApplies(night, s, clock) then 1.0 - s.decay.amount else 1.0;
    assert RawPrice(night, c, s, clock) == Prod(s.baseRate, Prod(Prod(s.multipliers[c], f), d));
    assert RawPrice(night, other, s, clock) == Prod(s.baseRate, Prod(Prod(s.multipliers[other], f), d));
    RatioStep(s.baseRate, s.multipliers[c], s.multipliers[other], f, d, RawPrice(night, c, s, clock),
              RawPrice(night, other, s, clock));
  }

  lemma RatioStep(base: real, m: real, n: real, f: real, d: real, x: real, y: real)
    requires x == Prod(base, Prod(Prod(m, f), d)) && y == Prod(base, Prod(Prod(n, f), d))
    ensures x * n == y * m
  {
    var k := base * f * d;
    assert x == k * m && y == k * n;
  }

  /** A category the settings do not list costs what one listed at 1 would. */
  lemma UnlistedCostsTheBase(night: Night, c: Category, s: Settings, clock: Clock)
    requires c !in s.multipliers
    ensures RawPrice(night, c, s, clock) == RawPrice(night, c, s.(multipliers := s.multipliers[c := 1.0]), clock)
  {}

  /** Without adjustments and same-day cut the price is the category's share of the base rate. */
  lemma PlainNight(night: Night, c: Category, s: Settings, clock: Clock)
    requires c in s.multipliers && Total(RawAdjustments(night, s, clock)) == 0.0
    requires SameDayFactor(night, s, clock, 1.0)
    ensures RawPrice(night, c, s, clock) == s.baseRate * s.multipliers[c]
  {
    assert !IntradayApplies(night, s, clock);
    assert Multiplier(s, c) * (1.0 + MaxR(MAX_DISCOUNT, 0.0)) * 1.0 == s.multipliers[c];
  }

  /**
   * Rounding exactly: the nearest multiple, halves upwards, unless it falls under the floor; then the
   * least multiple at or above the floor. A step that is not positive counts as 1.
   */
  lemma RoundToStepExactly(value: real, step: real, floor: real)
    ensures
      var unit := if step > 0.0 then step else 1.0;
      var r := RoundToStep(value, step, Some(floor));
      exists n: int ::
        && value - unit / 2.0 < Times(n, unit) <= value + unit / 2.0
        && (if floor <= Times(n, unit) then r == Times(n, unit)
            else floor <= r && MultipleOf(r, unit) && forall k: int :: floor <= Times(k, unit) ==> r <= Times(k, unit))
  {
    hide Times, MultipleOf;
    var unit := SafeStep(step);
    NearestIsClose(value, unit);
    StepAboveIsClose(floor, unit);
    assert Nearest(value, unit) == Times(Round(value / unit), unit);
    forall k: int | floor <= Times(k, unit) ensures StepAbove(floor, unit) <= Times(k, unit) {
      StepAboveIsLeast(floor, unit, k);
    }
  }

  /** The final price is the rounding of the raw price lifted to the floor. */
  lemma FinalPriceExactly(night: Night, category: Category, s: Settings, clock: Clock)
    ensures
      var raw := RawPrice(night, category, s, clock);
      var price := FinalPrice(night, category, s, clock);
      && (s.floorPrice <= raw ==> price == RoundToStep(raw, s.roundingStep, Some(s.floorPrice)))
      && (raw < s.floorPrice ==> price == RoundToStep(s.floorPrice, s.roundingStep, Some(s.floorPrice)))
  {}

  /** Below -80% every adjustment is cut in the same proportion; otherwise none is changed. */
  lemma AppliedIsProportional(raw: Adjustments)
    ensures
      var a := Applied(raw);
      && (Total(raw) >= -0.8 ==> a == raw)
      && a.event * Total(raw) == raw.event * Total(a) && a.occupancy * Total(raw) == raw.occupancy * Total(a)
      && a.pace * Total(raw) == raw.pace * Total(a) && a.leadTime * Total(raw) == raw.leadTime * Total(a)
  {
    AppliedTotal(raw);
    if Total(raw) < MAX_DISCOUNT {
      var k := MAX_DISCOUNT / Total(raw);
      assert k * Total(raw) == MAX_DISCOUNT;
      ScaledPart(raw.event, k, Total(raw));
      ScaledPart(raw.occupancy, k, Total(raw));
      ScaledPart(raw.pace, k, Total(raw));
      ScaledPart(raw.leadTime, k, Total(raw));
    }
  }

  lemma ScaledPart(part: real, k: real, total: real)
    ensures part * k * total == part * (k * total)
  {}

  lemma NoCut(night: Night, category: Category, s: Settings, clock: Clock)
    requires SameDayFactor(night, s, clock, 1.0)
    ensures RawPrice(night, category, s, clock) == Calculated(night, category, s, clock)
  {
    SameDayApplies(night, s, clock, 1.0);
    hide RawPrice, Calculated, IntradayApplies;
    DecayedIsRawPrice(night, category, s, clock);
  }

  /** The headings up to lead time, from the category's factor and the applied adjustments. */
  lemma WaterfallExactly(night: Night, category: Category, s: Settings, clock: Clock, m: real)
    requires CategoryFactor(s, category, m)
    ensures
      var w, a := Waterfall(night, category, s, clock), Applied(RawAdjustments(night, s, clock));
      var base := Prod(s.baseRate, m);
      && w.base == s.baseRate && w.base + w.category == base
      && w.event == Prod(base, a.event) && w.occupancy == Prod(base, a.occupancy)
      && w.pace == Prod(base, a.pace) && w.leadTime == Prod(base, a.leadTime)
  {
    hide RawPrice, Charged, RawAdjustments, Total, Applied, Calculated, Prod;
    assert Multiplier(s, category) == m;
  }

  /** The other headings: each brings the running sum to the next price of the night. */
  lemma WaterfallCloses(night: Night, category: Category, s: Settings, clock: Clock)
    ensures
      var w, raw := Waterfall(night, category, s, clock), RawPrice(night, category, s, clock);
      && w.base + w.category + w.event + w.occupancy + w.pace + w.leadTime + w.intraday == raw
      && (SameDayFactor(night, s, clock, 1.0) ==> w.intraday == 0.0)
      && w.floor == (if raw < s.floorPrice then s.floorPrice - raw else 0.0)
      && raw + w.floor + w.rounding == FinalPrice(night, category, s, clock)
  {
    WaterfallReconciles(night, category, s, clock);
    if SameDayFactor(night, s, clock, 1.0) {
      NoCut(night, category, s, clock);
    }
    hide RawPrice, RawAdjustments, Applied, Calculated, Multiplier, SameDayFactor, Charged;
  }
}
