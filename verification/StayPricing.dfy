/** Stay quotes and the closed-form goal seek (apps/dashboard/src/lib/dynamic-pricing.ts), over exact reals. */
module StayPricing {
  import opened Common
  import opened DynamicPricing

  // ----- Stays ----------------------------------------------------------------

  function DemandFor(date: int, demand: map<int, Night>, fallback: Night): Night {
    if date in demand then demand[date] else fallback.(date := date)
  }

  function StayTotal(dates: seq<int>, category: Category, s: Settings, clock: Clock,
                     demand: map<int, Night>, fallback: Night): real
  {
    if dates == [] then 0.0
    else
      var n := |dates| - 1;
      StayTotal(dates[..n], category, s, clock, demand, fallback)
      + FinalPrice(DemandFor(dates[n], demand, fallback), category, s, clock)
  }

  datatype StayQuote = StayQuote(nights: seq<NightPrice>, total: real, averageNightly: real)

  method ComputeStayQuote(dates: seq<int>, category: Category, s: Settings, clock: Clock,
                          demand: map<int, Night>, fallback: Night) returns (quote: StayQuote)
    ensures |quote.nights| == |dates|
    ensures forall i :: 0 <= i < |dates| ==>
      var night := if dates[i] in demand then demand[dates[i]] else fallback.(date := dates[i]);
      NightPriced(quote.nights[i], night, category, s, clock)
    ensures quote.total == StayTotal(dates, category, s, clock, demand, fallback)
    ensures quote.averageNightly == if dates == [] then 0.0 else quote.total / |dates| as real
  {
    hide FinalPrice, NightPriced;
    var nights: seq<NightPrice> := [];
    var total := 0.0;
    for i := 0 to |dates|
      invariant |nights| == i && total == StayTotal(dates[..i], category, s, clock, demand, fallback)
      invariant forall k :: 0 <= k < i ==>
        NightPriced(nights[k], DemandFor(dates[k], demand, fallback), category, s, clock)
    {
      var night := ComputeNightPrice(DemandFor(dates[i], demand, fallback), category, s, clock);
      PricedIsFinal(night, DemandFor(dates[i], demand, fallback), category, s, clock);
      assert dates[..i + 1][..i] == dates[..i];
      nights := nights + [night];
      total := total + night.finalPrice;
    }
    assert dates[..|dates|] == dates;
    quote := StayQuote(nights, total, if |nights| > 0 then total / |nights| as real else 0.0);
  }

  lemma PricedIsFinal(r: NightPrice, night: Night, category: Category, s: Settings, clock: Clock)
    requires NightPriced(r, night, category, s, clock)
    ensures r.finalPrice == FinalPrice(night, category, s, clock)
  {}

  /** The nights of [from, to). */
  function Nights(from: int, to: int): seq<int> {
    seq(Max(0, to - from), i => from + i)
  }

  lemma {:induction false} StayTotalConcat(a: seq<int>, b: seq<int>, category: Category, s: Settings, clock: Clock,
                                           demand: map<int, Night>, fallback: Night)
    ensures StayTotal(a + b, category, s, clock, demand, fallback)
      == StayTotal(a, category, s, clock, demand, fallback) + StayTotal(b, category, s, clock, demand, fallback)
  {
    hide FinalPrice;
    if b == [] {
      assert a + b == a;
    } else {
      var n := |b| - 1;
      assert (a + b)[..|a| + n] == a + b[..n];
      StayTotalConcat(a, b[..n], category, s, clock, demand, fallback);
    }
  }

  /** Splitting a stay at an intermediate date splits its total. */
  lemma StaySplits(from: int, mid: int, to: int, category: Category, s: Settings, clock: Clock,
                   demand: map<int, Night>, fallback: Night)
    requires from <= mid <= to
    ensures StayTotal(Nights(from, to), category, s, clock, demand, fallback)
      == StayTotal(Nights(from, mid), category, s, clock, demand, fallback)
       + StayTotal(Nights(mid, to), category, s, clock, demand, fallback)
  {
    assert Nights(from, to) == Nights(from, mid) + Nights(mid, to);
    StayTotalConcat(Nights(from, mid), Nights(mid, to), category, s, clock, demand, fallback);
  }

  /** Raising the base rate never lowers a stay's total. */
  lemma {:induction false} StayIsMonotone(dates: seq<int>, category: Category, s: Settings, clock: Clock,
                                          demand: map<int, Night>, fallback: Night, higher: real)
    requires Sane(s) && s.baseRate <= higher
    ensures StayTotal(dates, category, s, clock, demand, fallback)
      <= StayTotal(dates, category, s.(baseRate := higher), clock, demand, fallback)
  {
    hide FinalPrice, Sane;
    if dates != [] {
      var n := |dates| - 1;
      StayIsMonotone(dates[..n], category, s, clock, demand, fallback, higher);
      PriceIsMonotone(DemandFor(dates[n], demand, fallback), category, s, clock, higher);
    }
  }

  // ----- The same-day discount ------------------------------------------------

  ghost predicate DiscountActive(s: Settings, clock: Clock) {
    s.decay.enabled && s.decay.amount > 0.0 && clock.hour >= s.decay.fromHour
  }

  /** How many nights of the stay get the same-day cut. */
  ghost function Discounted(dates: seq<int>, s: Settings, clock: Clock, demand: map<int, Night>, fallback: Night): nat {
    if dates == [] then 0
    else
      var n := |dates| - 1;
      Discounted(dates[..n], s, clock, demand, fallback)
      + if IntradayApplies(DemandFor(dates[n], demand, fallback), s, clock) then 1 else 0
  }

  /** Demand records are filed under their own dates. */
  ghost predicate Keyed(demand: map<int, Night>) {
    forall d <- demand :: demand[d].date == d
  }

  /** With demand filed under its own dates the cut touches tonight's night and no other. */
  lemma {:induction false} DiscountIsTonightOnly(dates: seq<int>, s: Settings, clock: Clock,
                                                 demand: map<int, Night>, fallback: Night)
    requires Distinct(dates) && Keyed(demand)
    ensures Discounted(dates, s, clock, demand, fallback)
      == if DiscountActive(s, clock) && clock.today in dates then 1 else 0
  {
    if dates != [] {
      var n := |dates| - 1;
      DiscountIsTonightOnly(dates[..n], s, clock, demand, fallback);
      assert dates == dates[..n] + [dates[n]];
    }
  }

  /** Two different dates whose demand records both claim to be tonight. */
  ghost predicate TwoTonights(clock: Clock, demand: map<int, Night>, fallback: Night) {
    exists a: int, b: int :: a != b
      && DemandFor(a, demand, fallback).date == clock.today && DemandFor(b, demand, fallback).date == clock.today
  }

  lemma {:induction false} DiscountedOnlyTonight(dates: seq<int>, s: Settings, clock: Clock,
                                                 demand: map<int, Night>, fallback: Night, d: int)
    requires Distinct(dates) && d !in dates
    requires forall e: int :: e != d ==> DemandFor(e, demand, fallback).date != clock.today
    ensures Discounted(dates, s, clock, demand, fallback) == 0
  {
    if dates != [] {
      var n := |dates| - 1;
      assert dates[n] != d;
      DiscountedOnlyTonight(dates[..n], s, clock, demand, fallback, d);
    }
  }

  lemma {:induction false} AtMostOneDiscount(dates: seq<int>, s: Settings, clock: Clock,
                                             demand: map<int, Night>, fallback: Night)
    requires Distinct(dates) && !TwoTonights(clock, demand, fallback)
    ensures Discounted(dates, s, clock, demand, fallback) <= 1
  {
    if dates != [] {
      var n := |dates| - 1;
      if DemandFor(dates[n], demand, fallback).date == clock.today {
        DiscountedOnlyTonight(dates[..n], s, clock, demand, fallback, dates[n]);
      } else {
        AtMostOneDiscount(dates[..n], s, clock, demand, fallback);
      }
    }
  }

  lemma {:induction false} DiscountedConcat(a: seq<int>, b: seq<int>, s: Settings, clock: Clock,
                                            demand: map<int, Night>, fallback: Night)
    ensures Discounted(a + b, s, clock, demand, fallback)
      == Discounted(a, s, clock, demand, fallback) + Discounted(b, s, clock, demand, fallback)
  {
    hide IntradayApplies;
    if b == [] {
      assert a + b == a;
    } else {
      var n := |b| - 1;
      assert (a + b)[..|a| + n] == a + b[..n];
      DiscountedConcat(a, b[..n], s, clock, demand, fallback);
    }
  }

  /** A stay that holds two such dates has two discounted nights. */
  lemma TonightTwiceIsCutTwice(a: int, b: int, s: Settings, clock: Clock, demand: map<int, Night>, fallback: Night)
    requires DiscountActive(s, clock) && a < b
    requires DemandFor(a, demand, fallback).date == clock.today && DemandFor(b, demand, fallback).date == clock.today
    ensures Discounted(Nights(a, b + 1), s, clock, demand, fallback) >= 2
  {
    var head := [a] + Nights(a + 1, b);
    assert Nights(a, b + 1) == head + [b] && [a][..0] == [] && [b][..0] == [];
    DiscountedConcat([a], Nights(a + 1, b), s, clock, demand, fallback);
    DiscountedConcat(head, [b], s, clock, demand, fallback);
    assert Discounted([a], s, clock, demand, fallback) == 1;
    assert Discounted([b], s, clock, demand, fallback) == 1;
  }

  /**
   * For arbitrary demand maps: while the cut is active, every stay has at most one discounted night
   * exactly when no two dates carry a demand record dated tonight; likewise any choice of distinct dates.
   */
  lemma OneDiscountExactly(s: Settings, clock: Clock, demand: map<int, Night>, fallback: Night)
    requires DiscountActive(s, clock)
    ensures (forall from: int, to: int :: Discounted(Nights(from, to), s, clock, demand, fallback) <= 1)
      <==> !TwoTonights(clock, demand, fallback)
    ensures (forall dates: seq<int> :: Distinct(dates) ==> Discounted(dates, s, clock, demand, fallback) <= 1)
      <==> !TwoTonights(clock, demand, fallback)
  {
    hide DiscountActive, Discounted, Nights;
    forall from: int, to: int ensures Distinct(Nights(from, to)) {
      NightsAreDistinct(from, to);
    }
    if TwoTonights(clock, demand, fallback) {
      var a: int, b: int :| a != b
        && DemandFor(a, demand, fallback).date == clock.today && DemandFor(b, demand, fallback).date == clock.today;
      TonightTwiceIsCutTwice(Min(a, b), Max(a, b), s, clock, demand, fallback);
      assert Distinct(Nights(Min(a, b), Max(a, b) + 1));
    } else {
      forall dates: seq<int> | Distinct(dates) ensures Discounted(dates, s, clock, demand, fallback) <= 1 {
        AtMostOneDiscount(dates, s, clock, demand, fallback);
      }
    }
  }

  lemma NightsAreDistinct(from: int, to: int)
    ensures Distinct(Nights(from, to))
  {}

  /** A failing demand map: a record dated tonight that is filed under tomorrow discounts both nights of a stay. */
  lemma MisfiledRecordDiscountsTwice(s: Settings, clock: Clock, night: Night, fallback: Night)
    requires DiscountActive(s, clock)
    ensures
      var demand := map[clock.today + 1 := night.(date := clock.today)];
      && TwoTonights(clock, demand, fallback)
      && Discounted(Nights(clock.today, clock.today + 2), s, clock, demand, fallback) == 2
  {
    var demand := map[clock.today + 1 := night.(date := clock.today)];
    var stay := Nights(clock.today, clock.today + 2);
    assert DemandFor(clock.today, demand, fallback).date == DemandFor(clock.today + 1, demand, fallback).date;
    assert stay == [clock.today, clock.today + 1] && stay[..1] == [clock.today] && stay[..1][..0] == [];
    assert Discounted(stay[..1], s, clock, demand, fallback) == 1;
  }

  // ----- Goal seek ------------------------------------------------------------

  datatype Priced = Priced(finalPrice: real, occupancyPercent: real)

  function Weight(p: Priced, totalRooms: real): real {
    p.occupancyPercent / 100.0 * totalRooms
  }

  function Revenue(priced: seq<Priced>, totalRooms: real): real {
    if priced == [] then 0.0
    else
      var n := |priced| - 1;
      Revenue(priced[..n], totalRooms) + Prod(priced[n].finalPrice, Weight(priced[n], totalRooms))
  }

  function SoldRooms(priced: seq<Priced>, totalRooms: real): real {
    if priced == [] then 0.0
    else
      var n := |priced| - 1;
      SoldRooms(priced[..n], totalRooms) + Weight(priced[n], totalRooms)
  }

  function OrOne(x: real): real {
    if x == 0.0 then 1.0 else x
  }

  function Adr(priced: seq<Priced>, totalRooms: real): real {
    Revenue(priced, totalRooms) / OrOne(SoldRooms(priced, totalRooms))
  }

  /** Occupancies, and prices weighted with them. */
  function Occupancies(priced: seq<Priced>): real {
    if priced == [] then 0.0
    else Occupancies(priced[..|priced| - 1]) + priced[|priced| - 1].occupancyPercent
  }

  function WeightedPrices(priced: seq<Priced>): real {
    if priced == [] then 0.0
    else
      var last := priced[|priced| - 1];
      WeightedPrices(priced[..|priced| - 1]) + last.finalPrice * last.occupancyPercent
  }

  lemma {:induction false} RoomsCancel(priced: seq<Priced>, rooms: real)
    ensures SoldRooms(priced, rooms) * 100.0 == Prod(Occupancies(priced), rooms)
    ensures Revenue(priced, rooms) * 100.0 == Prod(WeightedPrices(priced), rooms)
  {
    if priced == [] {
      assert Prod(0.0, rooms) == 0.0;
    } else {
      var n := |priced| - 1;
      RoomsCancel(priced[..n], rooms);
      RoomsStep(Occupancies(priced[..n]), WeightedPrices(priced[..n]), priced[n], rooms);
    }
  }

  lemma RoomsStep(occupancies: real, prices: real, p: Priced, rooms: real)
    ensures Prod(occupancies, rooms) + Weight(p, rooms) * 100.0 == Prod(occupancies + p.occupancyPercent, rooms)
    ensures Prod(prices, rooms) + Prod(p.finalPrice, Weight(p, rooms)) * 100.0
      == Prod(prices + p.finalPrice * p.occupancyPercent, rooms)
  {
    assert Weight(p, rooms) * 100.0 == p.occupancyPercent * rooms;
    assert p.finalPrice * Weight(p, rooms) * 100.0 == p.finalPrice * (p.occupancyPercent * rooms);
  }

  /** The average rate is the mean of the prices weighted with the occupancies; nothing sold counts as 0. */
  lemma AdrIsWeightedMean(priced: seq<Priced>, rooms: real)
    ensures rooms > 0.0 && Occupancies(priced) != 0.0 ==>
      Adr(priced, rooms) * Occupancies(priced) == WeightedPrices(priced)
    ensures rooms == 0.0 ==> Adr(priced, rooms) == 0.0
  {
    RoomsCancel(priced, rooms);
    if rooms > 0.0 && Occupancies(priced) != 0.0 {
      hide Occupancies, WeightedPrices, Revenue, SoldRooms;
      MeanStep(Revenue(priced, rooms), SoldRooms(priced, rooms), WeightedPrices(priced), Occupancies(priced), rooms);
    }
  }

  lemma MeanStep(revenue: real, sold: real, prices: real, occupancies: real, rooms: real)
    requires rooms > 0.0 && occupancies != 0.0
    requires sold * 100.0 == Prod(occupancies, rooms) && revenue * 100.0 == Prod(prices, rooms)
    ensures sold != 0.0 && revenue / sold * occupancies == prices
  {
    assert occupancies * rooms != 0.0;
    var adr := revenue / sold;
    assert adr * sold == revenue;
    assert adr * (occupancies * rooms) == prices * rooms;
    assert (adr * occupancies - prices) * rooms == 0.0;
  }

  lemma {:induction false} WeightedWithin(priced: seq<Priced>, low: real, high: real)
    requires forall p <- priced :: low <= p.finalPrice <= high && p.occupancyPercent >= 0.0
    ensures Prod(low, Occupancies(priced)) <= WeightedPrices(priced) <= Prod(high, Occupancies(priced))
    ensures Occupancies(priced) >= 0.0
  {
    if priced == [] {
      assert Prod(low, 0.0) == 0.0 == Prod(high, 0.0);
    } else {
      var n := |priced| - 1;
      var last := priced[n];
      assert last in priced;
      WeightedWithin(priced[..n], low, high);
      assert (last.finalPrice - low) * last.occupancyPercent >= 0.0;
      assert (high - last.finalPrice) * last.occupancyPercent >= 0.0;
    }
  }

  /** The average rate lies between the lowest and the highest price. */
  lemma AdrWithinPrices(priced: seq<Priced>, rooms: real, low: real, high: real)
    requires rooms > 0.0 && Occupancies(priced) > 0.0
    requires forall p <- priced :: low <= p.finalPrice <= high && p.occupancyPercent >= 0.0
    ensures low <= Adr(priced, rooms) <= high
  {
    hide Adr, Occupancies, WeightedPrices;
    AdrIsWeightedMean(priced, rooms);
    assert Prod(Adr(priced, rooms), Occupancies(priced)) == WeightedPrices(priced);
    hide Prod;
    WeightedWithin(priced, low, high);
    ProdCancels(low, Adr(priced, rooms), Occupancies(priced));
    ProdCancels(Adr(priced, rooms), high, Occupancies(priced));
  }

  function ScalingFactor(target: real, adr: real): real {
    target / OrOne(adr)
  }

  function RecommendedBaseRate(target: real, base: real, step: real, priced: seq<Priced>, totalRooms: real): real {
    Nearest(Prod(base, ScalingFactor(target, Adr(priced, totalRooms))), SafeStep(step))
  }

  function PricedNights(nights: seq<Night>, category: Category, s: Settings, clock: Clock): (r: seq<Priced>)
    ensures |r| == |nights|
  {
    seq(|nights|, i requires 0 <= i < |nights| =>
      Priced(FinalPrice(nights[i], category, s, clock), nights[i].occupancyPercent))
  }

  /** Neither the floor nor the lift to the floor changes this night's price. */
  ghost predicate FloorFree(night: Night, category: Category, s: Settings, clock: Clock) {
    && s.floorPrice <= RawPrice(night, category, s, clock)
    && s.floorPrice <= Nearest(RawPrice(night, category, s, clock), SafeStep(s.roundingStep))
  }

  lemma FloorFreePriceIsClose(night: Night, category: Category, s: Settings, clock: Clock)
    requires s.roundingStep > 0.0 && FloorFree(night, category, s, clock)
    ensures AbsR(FinalPrice(night, category, s, clock) - Prod(s.baseRate, Coefficient(night, category, s, clock)))
      <= s.roundingStep / 2.0
  {
    hide Coefficient, Nearest, Prod;
    NearestIsClose(RawPrice(night, category, s, clock), s.roundingStep);
  }

  // Error propagation. Each price and the base rate itself is off by at most half a step.

  lemma ScaledError(half: real, f: real, f': real, c: real, base: real, base': real, k: real, cmax: real)
    requires AbsR(f - Prod(base, c)) <= half && AbsR(f' - Prod(base', c)) <= half && AbsR(base' - Prod(base, k)) <= half
    requires 0.0 <= c <= cmax && 0.0 <= k
    ensures AbsR(f' - Prod(k, f)) <= Prod(half, 1.0 + k + cmax)
  {
    hide Prod;
    ErrorSplits(f, f', c, base, base', k);
    ProductBound(c, base' - Prod(base, k), half);
    ProductBound(k, Prod(base, c) - f, half);
    BoundSplits(half, k, c, cmax);
  }

  lemma ErrorSplits(f: real, f': real, c: real, base: real, base': real, k: real)
    ensures f' - Prod(k, f) == (f' - Prod(base', c)) + Prod(c, base' - Prod(base, k)) + Prod(k, Prod(base, c) - f)
  {
    assert c * (base' - base * k) == c * base' - c * (base * k);
    assert k * (base * c - f) == k * (base * c) - k * f;
  }

  lemma BoundSplits(half: real, k: real, c: real, cmax: real)
    requires half >= 0.0 && c <= cmax
    ensures half + Prod(c, half) + Prod(k, half) <= Prod(half, 1.0 + k + cmax)
  {
    assert half * (cmax - c) >= 0.0;
  }

  lemma ProductBound(c: real, d: real, half: real)
    requires 0.0 <= c && AbsR(d) <= half
    ensures AbsR(Prod(c, d)) <= Prod(c, half)
  {
    assert c * (half - d) >= 0.0 && c * (half + d) >= 0.0;
  }

  lemma {:induction false} RevenueError(a: seq<Priced>, b: seq<Priced>, totalRooms: real, k: real, e: real)
    requires |a| == |b| && totalRooms >= 0.0
    requires forall i :: 0 <= i < |a| ==>
      a[i].occupancyPercent == b[i].occupancyPercent >= 0.0 && AbsR(b[i].finalPrice - Prod(k, a[i].finalPrice)) <= e
    ensures SoldRooms(a, totalRooms) == SoldRooms(b, totalRooms) >= 0.0
    ensures AbsR(Revenue(b, totalRooms) - Prod(k, Revenue(a, totalRooms))) <= Prod(e, SoldRooms(a, totalRooms))
  {
    if a == [] {
      assert Prod(k, 0.0) == 0.0 == Prod(e, 0.0);
    } else {
      hide Weight, Prod;
      var n := |a| - 1;
      RevenueError(a[..n], b[..n], totalRooms, k, e);
      WeightIsSame(a[n], b[n], totalRooms);
      WeightedStep(Revenue(a[..n], totalRooms), Revenue(b[..n], totalRooms), a[n].finalPrice, b[n].finalPrice,
                   Weight(a[n], totalRooms), SoldRooms(a[..n], totalRooms), k, e);
    }
  }

  lemma WeightIsSame(p: Priced, q: Priced, totalRooms: real)
    requires p.occupancyPercent == q.occupancyPercent >= 0.0 && totalRooms >= 0.0
    ensures Weight(p, totalRooms) == Weight(q, totalRooms) >= 0.0
  {}

  lemma WeightedStep(ra: real, rb: real, fa: real, fb: real, w: real, s: real, k: real, e: real)
    requires AbsR(rb - Prod(k, ra)) <= Prod(e, s) && AbsR(fb - Prod(k, fa)) <= e && w >= 0.0
    ensures AbsR((rb + Prod(fb, w)) - Prod(k, ra + Prod(fa, w))) <= Prod(e, s + w)
  {
    hide Prod;
    ProductBound(w, fb - Prod(k, fa), e);
    Distribute(ra, rb, fa, fb, w, s, k, e);
  }

  lemma Distribute(ra: real, rb: real, fa: real, fb: real, w: real, s: real, k: real, e: real)
    ensures (rb + Prod(fb, w)) - Prod(k, ra + Prod(fa, w)) == (rb - Prod(k, ra)) + Prod(w, fb - Prod(k, fa))
    ensures Prod(e, s + w) == Prod(e, s) + Prod(w, e)
  {
    assert k * (ra + fa * w) == k * ra + k * (fa * w);
    assert w * (fb - k * fa) == w * fb - w * (k * fa);
  }

  lemma NightError(night: Night, category: Category, s: Settings, base': real, clock: Clock, k: real, cmax: real)
    requires Sane(s) && s.roundingStep > 0.0 && k >= 0.0 && Coefficient(night, category, s, clock) <= cmax
    requires AbsR(base' - Prod(s.baseRate, k)) <= s.roundingStep / 2.0
    requires FloorFree(night, category, s, clock) && FloorFree(night, category, s.(baseRate := base'), clock)
    ensures AbsR(FinalPrice(night, category, s.(baseRate := base'), clock)
           - Prod(k, FinalPrice(night, category, s, clock)))
      <= Prod(s.roundingStep / 2.0, 1.0 + k + cmax)
  {
    hide Coefficient, FinalPrice, FloorFree, Sane, Prod;
    FloorFreePriceIsClose(night, category, s, clock);
    FloorFreePriceIsClose(night, category, s.(baseRate := base'), clock);
    CoefficientNonNegative(night, category, s, clock);
    CoefficientIgnoresBase(night, category, s, clock, base');
    ScaledError(s.roundingStep / 2.0, FinalPrice(night, category, s, clock),
                FinalPrice(night, category, s.(baseRate := base'), clock),
                Coefficient(night, category, s, clock), s.baseRate, base', k, cmax);
  }

  lemma AverageError(ra: real, rb: real, sold: real, target: real, e: real)
    requires sold > 0.0 && ra / sold > 0.0
    requires AbsR(rb - Prod(target / (ra / sold), ra)) <= Prod(e, sold)
    ensures AbsR(rb / sold - target) <= e
  {
    hide Prod;
    var x, y := rb / sold, ra / sold;
    var k := target / y;
    QuotientTimes(rb, sold);
    QuotientTimes(ra, sold);
    QuotientTimes(target, y);
    ProdAssoc(k, y, sold);
    ProdMinus(x, target, sold);
    ProdOrder(x - target, e, sold);
  }

  lemma ProdAssoc(a: real, b: real, c: real)
    ensures Prod(a, Prod(b, c)) == Prod(Prod(a, b), c)
  {}

  lemma ProdMinus(a: real, b: real, c: real)
    ensures Prod(a - b, c) == Prod(a, c) - Prod(b, c)
  {}

  lemma ProdOrder(d: real, e: real, c: real)
    requires c > 0.0 && AbsR(Prod(d, c)) <= Prod(e, c)
    ensures AbsR(d) <= e
  {
    ScaleOrder(d, e, c);
    ScaleOrder(-e, d, c);
    assert -e * c == -(e * c);
  }

  /** The settings with the recommended base rate. */
  function Repriced(nights: seq<Night>, category: Category, s: Settings, clock: Clock,
                    totalRooms: real, target: real): Settings
  {
    s.(baseRate := RecommendedBaseRate(target, s.baseRate, s.roundingStep,
                                       PricedNights(nights, category, s, clock), totalRooms))
  }

  /** Rooms are sold, the current average rate is positive and the floor binds neither before nor after. */
  ghost predicate Seekable(nights: seq<Night>, category: Category, s: Settings, clock: Clock,
                           totalRooms: real, target: real)
  {
    var priced := PricedNights(nights, category, s, clock);
    && Sane(s) && s.roundingStep > 0.0 && totalRooms >= 0.0 && target > 0.0
    && SoldRooms(priced, totalRooms) > 0.0 && Adr(priced, totalRooms) > 0.0
    && (forall i :: 0 <= i < |nights| ==> nights[i].occupancyPercent >= 0.0)
    && (forall i :: 0 <= i < |nights| ==>
          && FloorFree(nights[i], category, s, clock)
          && FloorFree(nights[i], category, Repriced(nights, category, s, clock, totalRooms, target), clock))
  }

  /**
   * Repricing every night at the recommended base rate brings the average daily rate to within
   * (step / 2) (1 + scaling factor + largest price coefficient) of the target.
   */
  lemma GoalSeekHitsTarget(nights: seq<Night>, category: Category, s: Settings, clock: Clock,
                           totalRooms: real, target: real, cmax: real)
    requires Seekable(nights, category, s, clock, totalRooms, target)
    requires forall i :: 0 <= i < |nights| ==> Coefficient(nights[i], category, s, clock) <= cmax
    ensures
      var k := ScalingFactor(target, Adr(PricedNights(nights, category, s, clock), totalRooms));
      var repriced := PricedNights(nights, category, Repriced(nights, category, s, clock, totalRooms, target), clock);
      AbsR(Adr(repriced, totalRooms) - target) <= Prod(s.roundingStep / 2.0, 1.0 + k + cmax)
  {
    hide Coefficient, FinalPrice, FloorFree, Sane, Revenue, SoldRooms, Nearest, Prod;
    var a := PricedNights(nights, category, s, clock);
    var k := ScalingFactor(target, Adr(a, totalRooms));
    var s' := Repriced(nights, category, s, clock, totalRooms, target);
    var b := PricedNights(nights, category, s', clock);
    var e := Prod(s.roundingStep / 2.0, 1.0 + k + cmax);
    NearestIsClose(Prod(s.baseRate, k), s.roundingStep);
    assert k >= 0.0;
    forall i | 0 <= i < |a|
      ensures a[i].occupancyPercent == b[i].occupancyPercent >= 0.0
        && AbsR(b[i].finalPrice - Prod(k, a[i].finalPrice)) <= e
    {
      NightError(nights[i], category, s, s'.baseRate, clock, k, cmax);
    }
    RevenueError(a, b, totalRooms, k, e);
    AverageError(Revenue(a, totalRooms), Revenue(b, totalRooms), SoldRooms(a, totalRooms), target, e);
  }
}
