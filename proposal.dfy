/** The figures a deal proposal quotes, derived from the business data and
    the terms: the landlord's yearly rent and revenue share, their sum, and
    how that sum compares with the market rent. The text around them is not
    modelled. */
module ProposalFigures {
  import opened Records
  import DealTerms

  datatype Figures = Figures(
    annualRevenueShare: real,
    totalAnnualRent: real,
    potentialTotalReturn: real,
    roiImprovement: real,
    roiDifference: int)

  /** `int(x)` on a float: truncation toward zero. */
  function Truncate(x: real): (n: int)
    ensures x >= 0.0 ==> 0 <= n && n as real <= x < n as real + 1.0
    ensures x < 0.0 ==> n <= 0 && n as real - 1.0 < x <= n as real
  {
    if x >= 0.0 then x.Floor else -((-x).Floor)
  }

  /** The proposal's figures. A market rent that is not positive gives an
      ROI improvement of 0 instead of a division by zero; otherwise the ROI
      improvement is positive exactly when the landlord's return beats the
      market rent. */
  function ComputeFigures(b: Business, t: Terms): (f: Figures)
    ensures f.potentialTotalReturn == f.totalAnnualRent + f.annualRevenueShare
    ensures t.annualMarketRent <= 0.0 ==> f.roiImprovement == 0.0
    ensures t.annualMarketRent > 0.0 ==>
      && (f.roiImprovement > 0.0 <==> f.potentialTotalReturn > t.annualMarketRent)
      && (f.roiImprovement == 0.0 <==> f.potentialTotalReturn == t.annualMarketRent)
    ensures f.roiDifference > 0 ==> f.potentialTotalReturn > t.annualMarketRent
    ensures f.roiDifference < 0 ==> f.potentialTotalReturn < t.annualMarketRent
  {
    var projected := b.projectedRevenue12m.GetOr(0) as real;
    var annualRevenueShare := projected * 12.0 * (t.revenueSharePercent / 100.0);
    var totalAnnualRent := t.monthlyRent * 12.0;
    var potentialTotalReturn := totalAnnualRent + annualRevenueShare;
    var roiImprovement :=
      if t.annualMarketRent > 0.0 then (potentialTotalReturn / t.annualMarketRent - 1.0) * 100.0 else 0.0;
    Figures(annualRevenueShare, totalAnnualRent, potentialTotalReturn, roiImprovement,
            Truncate(potentialTotalReturn - t.annualMarketRent))
  }

  /** A return that is a share u% of a positive rent, with u in [20, 50],
      improves on that rent by between -80 and -50 percent. */
  lemma RoiOfShare(rent: real, paid: real, u: real)
    requires rent > 0.0 && 20.0 <= u <= 50.0
    requires paid * 100.0 == rent * u
    ensures -80.0 <= (paid / rent - 1.0) * 100.0 <= -50.0
  {
    assert paid == rent * (u / 100.0);
    assert paid / rent == u / 100.0;
  }

  /** Twelve monthly payments of u% of the monthly market rent are u% of
      the yearly market rent. */
  lemma YearlyShare(monthlyRent: real, monthlyMarketRent: real, annualMarketRent: real, u: real)
    requires monthlyRent * 100.0 == monthlyMarketRent * u
    requires monthlyMarketRent * 12.0 == annualMarketRent
    ensures monthlyRent * 12.0 * 100.0 == annualMarketRent * u
  {
    assert monthlyRent * 12.0 * 100.0 == (monthlyRent * 100.0) * 12.0;
    assert (monthlyMarketRent * u) * 12.0 == (monthlyMarketRent * 12.0) * u;
  }

  /** Terms that charge u% of the market rent upfront, u in [20, 50]: with
      no projected revenue the landlord's yearly return is that u% of the
      market rent, an ROI improvement between -80 and -50. */
  lemma RoiWithoutRevenue(b: Business, t: Terms)
    requires b.projectedRevenue12m.GetOr(0) == 0
    requires t.annualMarketRent > 0.0 && 20.0 <= t.upfrontRentPercent <= 50.0
    requires t.monthlyMarketRent * 12.0 == t.annualMarketRent
    requires t.monthlyRent * 100.0 == t.monthlyMarketRent * t.upfrontRentPercent
    ensures ComputeFigures(b, t).potentialTotalReturn * 100.0 == t.annualMarketRent * t.upfrontRentPercent
    ensures -80.0 <= ComputeFigures(b, t).roiImprovement <= -50.0
  {
    var f := ComputeFigures(b, t);
    assert f.annualRevenueShare == 0.0;
    YearlyShare(t.monthlyRent, t.monthlyMarketRent, t.annualMarketRent, t.upfrontRentPercent);
    RoiOfShare(t.annualMarketRent, f.potentialTotalReturn, t.upfrontRentPercent);
  }

  /** Generated terms for a positive space meet those conditions. */
  lemma GeneratedRoiWithoutRevenue(b: Business, riskScore: int)
    requires b.projectedRevenue12m.GetOr(0) == 0
    requires b.spaceSize.GetOr(DealTerms.DefaultSpaceSize) > 0
    ensures -80.0 <= ComputeFigures(b, DealTerms.GenerateDealTerms(b, riskScore)).roiImprovement <= -50.0
  {
    RoiWithoutRevenue(b, DealTerms.GenerateDealTerms(b, riskScore));
  }
}
