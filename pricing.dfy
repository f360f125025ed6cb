/**
 * The pricing rule of the quote calculator: a per-user-per-year unit price for
 * each product tier, a bulk discount by user count, a multi-year discount by
 * term, and a manual discount that overrides both.
 *
 * Amounts are exact `real`s; the binary floating point of the browser and the
 * two-decimal formatting of the page are not modelled.
 */
module Pricing {
  import opened Wrappers

  /** The product tiers of the price table. */
  datatype Tier = Basic | Dispatch | RouteBuilder

  /** The key of a tier in the price table, as shown on the page. */
  function TierName(tier: Tier): string {
    match tier
    case Basic => "Basic"
    case Dispatch => "Dispatch"
    case RouteBuilder => "Route Builder"
  }

  /** Unit price per user per year of each tier. */
  function UnitPrice(tier: Tier): (p: real)
    ensures 100.0 < p < 500.0
  {
    match tier
    case Basic => 149.99
    case Dispatch => 249.99
    case RouteBuilder => 449.99
  }

  /** Looking a name up in the price table: the tier whose key it is, if any. */
  function LookupTier(name: string): (t: Option<Tier>)
    ensures t.Some? ==> TierName(t.value) == name
  {
    if name == "Basic" then Some(Basic)
    else if name == "Dispatch" then Some(Dispatch)
    else if name == "Route Builder" then Some(RouteBuilder)
    else None
  }

  /** Every tier is found under its own key. */
  lemma LookupTierName(tier: Tier)
    ensures LookupTier(TierName(tier)) == Some(tier)
  {
    match tier
    case Basic =>
    case Dispatch =>
      assert TierName(tier)[0] != "Basic"[0];
    case RouteBuilder =>
      assert TierName(tier)[0] != "Basic"[0];
      assert TierName(tier)[0] != "Dispatch"[0];
  }

  /** The record returned for one (users, tier, term) quote. `perUserPerYear` is
      `None` where the division by `users * years` has no finite value. */
  datatype PriceResult = PriceResult(
    basePrice: real,
    userDisc: real,
    termDisc: real,
    discountPercent: real,
    discountValue: real,
    finalPrice: real,
    perUserPerYear: Option<real>)

  /** Bulk discount percentage by user count: the highest breakpoint reached wins. */
  function BulkDiscount(users: int): (d: real)
    ensures d == 0.0 || d == 10.0 || d == 15.0 || d == 20.0
    ensures d == 0.0 <==> users < 10
  {
    if users >= 50 then 20.0
    else if users >= 25 then 15.0
    else if users >= 10 then 10.0
    else 0.0
  }

  /** Multi-year discount percentage: a flat 10% for a 3- or 5-year term. */
  function TermDiscount(years: int): (d: real)
    ensures d == 0.0 || d == 10.0
    ensures d == 10.0 <==> years == 3 || years == 5
  {
    if years == 3 || years == 5 then 10.0 else 0.0
  }

  /** Prices `users` seats of `tier` for `years` years. A manual discount, when
      present (0 included), replaces the bulk and multi-year discounts. */
  function CalculatePrice(users: int, tier: Tier, years: int, manual: Option<real>): (r: PriceResult)
    ensures r.basePrice == UnitPrice(tier) * (users as real) * (years as real)
    ensures manual.Some? ==>
      r.discountPercent == manual.value && r.userDisc == 0.0 && r.termDisc == 0.0
    ensures manual.None? ==>
      r.userDisc == BulkDiscount(users) && r.termDisc == TermDiscount(years) &&
      r.discountPercent == r.userDisc + r.termDisc &&
      0.0 <= r.discountPercent <= 30.0
    ensures r.discountValue == (r.discountPercent / 100.0) * r.basePrice
    ensures r.finalPrice == r.basePrice - r.discountValue
    ensures r.perUserPerYear == PerSeatYear(r.finalPrice, users, years)
  {
    var basePrice := UnitPrice(tier) * (users as real) * (years as real);
    var userDisc := if manual.Some? then 0.0 else BulkDiscount(users);
    var termDisc := if manual.Some? then 0.0 else TermDiscount(years);
    var discountPercent := if manual.Some? then manual.value else userDisc + termDisc;
    var discountValue := (discountPercent / 100.0) * basePrice;
    var finalPrice := basePrice - discountValue;
    var perUserPerYear := PerSeatYear(finalPrice, users, years);
    PriceResult(basePrice, userDisc, termDisc, discountPercent, discountValue, finalPrice, perUserPerYear)
  }

  /** `finalPrice / (users * years)`, or `None` where that division is by zero. */
  function PerSeatYear(finalPrice: real, users: int, years: int): (p: Option<real>)
    ensures p.Some? <==> users * years != 0
    ensures p.Some? ==> p.value * (users as real) * (years as real) == finalPrice
  {
    var seatYears := users * years;
    if seatYears == 0 then None
    else
      assert (seatYears as real) == (users as real) * (years as real);
      Some(finalPrice / (seatYears as real))
  }

  /** Taking `percent`% off `base` leaves `base * (1 - percent / 100)`, which for
      a percentage in [0, 100] and a non-negative base lies in [0, base]. */
  lemma DiscountArithmetic(base: real, percent: real, value: real, final: real)
    requires value == (percent / 100.0) * base && final == base - value
    ensures value + final == base
    ensures final == base * (1.0 - percent / 100.0)
    ensures 0.0 <= percent <= 100.0 && 0.0 <= base ==> 0.0 <= final <= base
  {
    if 0.0 <= percent <= 100.0 && 0.0 <= base {
      var f := percent / 100.0;
      assert 0.0 <= f <= 1.0;
      assert 0.0 <= f * base <= base;
    }
  }

  /** The discount amount and the final price add up to the base price, and the
      final price is the base price reduced by the total percentage. */
  lemma PriceDecomposition(users: int, tier: Tier, years: int, manual: Option<real>)
    ensures var r := CalculatePrice(users, tier, years, manual);
      r.discountValue + r.finalPrice == r.basePrice &&
      r.finalPrice == r.basePrice * (1.0 - r.discountPercent / 100.0)
  {
    var r := CalculatePrice(users, tier, years, manual);
    DiscountArithmetic(r.basePrice, r.discountPercent, r.discountValue, r.finalPrice);
  }

  /** With a total percentage in [0, 100] and a non-negative base price, the final
      price lies between 0 and the base price. */
  lemma FinalPriceWithinBase(users: int, tier: Tier, years: int, manual: Option<real>)
    ensures var r := CalculatePrice(users, tier, years, manual);
      0.0 <= r.discountPercent <= 100.0 && 0.0 <= r.basePrice ==>
        0.0 <= r.finalPrice <= r.basePrice
  {
    var r := CalculatePrice(users, tier, years, manual);
    DiscountArithmetic(r.basePrice, r.discountPercent, r.discountValue, r.finalPrice);
  }


  /** The bulk-discount breakpoints: 20% from 50 users, 15% from 25, 10% from 10. */
  lemma BulkDiscountBreakpoints(users: int)
    ensures users >= 50 ==> BulkDiscount(users) == 20.0
    ensures 25 <= users < 50 ==> BulkDiscount(users) == 15.0
    ensures 10 <= users < 25 ==> BulkDiscount(users) == 10.0
    ensures users < 10 ==> BulkDiscount(users) == 0.0
  {
  }

  /** More users never earn a smaller bulk discount. */
  lemma BulkDiscountMonotone(fewer: int, more: int)
    requires fewer <= more
    ensures BulkDiscount(fewer) <= BulkDiscount(more)
  {
  }

  /** Thirty seats of Dispatch for three years: 15% bulk plus 10% multi-year. */
  lemma DispatchThirtyUsersThreeYears()
    ensures var r := CalculatePrice(30, Dispatch, 3, None);
      r.userDisc == 15.0 && r.termDisc == 10.0 && r.discountPercent == 25.0 &&
      r.basePrice == 22499.1 && r.finalPrice == 16874.325
  {
  }

  /** Five seats of Basic for one year with a manual 12%: the manual discount alone. */
  lemma BasicFiveUsersManualTwelve()
    ensures var r := CalculatePrice(5, Basic, 1, Some(12.0));
      r.discountPercent == 12.0 && r.basePrice == 749.95 && r.finalPrice == 659.956
  {
  }

  /** Sixty seats of Route Builder for five years: 20% bulk plus 10% multi-year. */
  lemma RouteBuilderSixtyUsersFiveYears()
    ensures var r := CalculatePrice(60, RouteBuilder, 5, None);
      r.discountPercent == 30.0 && r.basePrice == 134997.0 && r.finalPrice == 94497.9
  {
  }
}
