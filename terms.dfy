/** Lease terms derived from the risk score: three clamped linear
    percentages, a revenue-share period chosen by business type, the rent
    split at $25 per square foot per year and the revenue trigger. Values are
    exact rationals, before the program rounds them for display. */
module DealTerms {
  import opened Records
  import RiskScoring

  const RentPerSqFtPerYear: int := 25
  const DefaultSpaceSize: int := 1000
  const MinRevenueTrigger: real := 5000.0

  /** r = (score - 50) / 50 */
  function RiskMultiplier(riskScore: int): (m: real)
    ensures RiskScoring.MinScore <= riskScore <= RiskScoring.MaxScore ==> -0.9 <= m <= 0.9
    ensures m < 0.0 <==> riskScore < 50
  {
    (riskScore as real - 50.0) / 50.0
  }

  function ClampReal(x: real, lo: real, hi: real): real
    requires lo <= hi
  {
    if x < lo then lo else if x > hi then hi else x
  }

  /** Share of market rent paid upfront, 30 + 15r within [20, 50]. */
  function UpfrontRentPercent(riskScore: int): (p: real)
    ensures 20.0 <= p <= 50.0
  {
    ClampReal(30.0 + RiskMultiplier(riskScore) * 15.0, 20.0, 50.0)
  }

  /** Equity stake, 5 + 4r within [2, 12]. */
  function EquityPercent(riskScore: int): (p: real)
    ensures 2.0 <= p <= 12.0
  {
    ClampReal(5.0 + RiskMultiplier(riskScore) * 4.0, 2.0, 12.0)
  }

  /** Revenue share, 3 + 2r within [1, 6]. */
  function RevenueSharePercent(riskScore: int): (p: real)
    ensures 1.0 <= p <= 6.0
  {
    ClampReal(3.0 + RiskMultiplier(riskScore) * 2.0, 1.0, 6.0)
  }

  /** Four years for SaaS and e-commerce, two for restaurants, three for
      everything else, including a missing business type. */
  function RevenueShareYears(businessType: Field<string>): (years: int)
    ensures years == 4 <==> businessType == Present("SaaS Startup") || businessType == Present("E-commerce")
    ensures years == 2 <==> businessType == Present("Restaurant")
    ensures 2 <= years <= 4
  {
    if businessType == Present("SaaS Startup") || businessType == Present("E-commerce") then 4
    else if businessType == Present("Restaurant") then 2
    else 3
  }

  /** `max(current_revenue * 1.5, 5000)` */
  function RevenueTrigger(currentRevenue: int): (trigger: real)
    ensures trigger >= MinRevenueTrigger
    ensures trigger >= currentRevenue as real * 1.5
    ensures trigger == MinRevenueTrigger || trigger == currentRevenue as real * 1.5
  {
    var scaled := currentRevenue as real * 1.5;
    if scaled >= MinRevenueTrigger then scaled else MinRevenueTrigger
  }

  /** The terms for a business at a given risk score. The monthly rent and
      the deferred amount always make up the monthly market rent. */
  function GenerateDealTerms(b: Business, riskScore: int): (t: Terms)
    ensures t.riskScore == riskScore
    ensures t.spaceSize == b.spaceSize.GetOr(DefaultSpaceSize)
    ensures 20.0 <= t.upfrontRentPercent <= 50.0
    ensures 2.0 <= t.equityPercent <= 12.0
    ensures 1.0 <= t.revenueSharePercent <= 6.0
    ensures 2 <= t.revenueShareYears <= 4
    ensures t.annualMarketRent == (t.spaceSize * RentPerSqFtPerYear) as real
    ensures t.monthlyMarketRent * 12.0 == t.annualMarketRent
    ensures t.monthlyRent + t.deferredAmount == t.monthlyMarketRent
    ensures t.monthlyRent * 100.0 == t.monthlyMarketRent * t.upfrontRentPercent
    ensures t.revenueTrigger >= MinRevenueTrigger
  {
    var spaceSize := b.spaceSize.GetOr(DefaultSpaceSize);
    var annualMarketRent := (spaceSize * RentPerSqFtPerYear) as real;
    var monthlyMarketRent := annualMarketRent / 12.0;
    var upfront := UpfrontRentPercent(riskScore);
    var monthlyRent := monthlyMarketRent * (upfront / 100.0);
    Terms(
      riskScore := riskScore,
      upfrontRentPercent := upfront,
      equityPercent := EquityPercent(riskScore),
      revenueSharePercent := RevenueSharePercent(riskScore),
      revenueShareYears := RevenueShareYears(b.businessType),
      monthlyRent := monthlyRent,
      monthlyMarketRent := monthlyMarketRent,
      deferredAmount := monthlyMarketRent - monthlyRent,
      annualMarketRent := annualMarketRent,
      revenueTrigger := RevenueTrigger(b.currentRevenue.GetOr(0)),
      spaceSize := spaceSize)
  }

  /** A higher risk score never lowers any of the three percentages. */
  lemma PercentsMonotone(lower: int, higher: int)
    requires lower <= higher
    ensures UpfrontRentPercent(lower) <= UpfrontRentPercent(higher)
    ensures EquityPercent(lower) <= EquityPercent(higher)
    ensures RevenueSharePercent(lower) <= RevenueSharePercent(higher)
  {
    assert RiskMultiplier(lower) <= RiskMultiplier(higher);
  }

  /** For every score the engine can produce the upper clamps never bind,
      and the revenue share is never clamped at all. */
  lemma UpperClampsNeverBind(riskScore: int)
    requires RiskScoring.MinScore <= riskScore <= RiskScoring.MaxScore
    ensures UpfrontRentPercent(riskScore) <= 43.5
    ensures EquityPercent(riskScore) <= 8.6
    ensures RevenueSharePercent(riskScore) == 3.0 + RiskMultiplier(riskScore) * 2.0
  {
    var m := RiskMultiplier(riskScore);
    assert -0.9 <= m <= 0.9;
  }

  /** At the ceiling score the percentages are 43.5, 8.6 and 4.8. */
  lemma TermsAtCeiling()
    ensures UpfrontRentPercent(RiskScoring.MaxScore) == 43.5
    ensures EquityPercent(RiskScoring.MaxScore) == 8.6
    ensures RevenueSharePercent(RiskScoring.MaxScore) == 4.8
  {
    assert RiskMultiplier(RiskScoring.MaxScore) == 0.9;
  }

  /** At the floor score the upfront and equity shares are clamped to 20
      and 2, while the revenue share, 1.2, is not. */
  lemma TermsAtFloor()
    ensures UpfrontRentPercent(RiskScoring.MinScore) == 20.0
    ensures EquityPercent(RiskScoring.MinScore) == 2.0
    ensures RevenueSharePercent(RiskScoring.MinScore) == 1.2
  {
    assert RiskMultiplier(RiskScoring.MinScore) == -0.9;
  }

  /** 1200 sq ft rents at $2500 a month. */
  lemma RentExample(b: Business, riskScore: int)
    requires b.spaceSize == Present(1200)
    ensures GenerateDealTerms(b, riskScore).monthlyMarketRent == 2500.0
    ensures GenerateDealTerms(b, riskScore).annualMarketRent == 30000.0
  {
  }

  lemma ScaleBetween(a: real, lo: real, x: real, hi: real)
    requires a >= 0.0 && lo <= x <= hi
    ensures a * lo <= a * x <= a * hi
  {
  }

  /** For a non-negative space the tenant pays between a fifth and a half of
      the market rent upfront, so at least half of it is deferred. */
  lemma RentSplitBounds(b: Business, riskScore: int)
    requires b.spaceSize.GetOr(DefaultSpaceSize) >= 0
    ensures var t := GenerateDealTerms(b, riskScore);
      && t.monthlyMarketRent / 5.0 <= t.monthlyRent <= t.monthlyMarketRent / 2.0
      && t.monthlyMarketRent / 2.0 <= t.deferredAmount
  {
    var t := GenerateDealTerms(b, riskScore);
    assert t.monthlyMarketRent >= 0.0;
    ScaleBetween(t.monthlyMarketRent, 20.0, t.upfrontRentPercent, 50.0);
  }
}
