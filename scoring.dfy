/** The rule-based risk score of a business application: 50 plus a fixed
    chain of integer adjustments, clamped to [5, 95]. Every adjustment is an
    integer, so the score is one too (rounding it to one decimal changes
    nothing). */
module RiskScoring {
  import opened Records

  const BusinessTypeRisk: map<string, int> := map[
    "SaaS Startup" := -10,
    "E-commerce" := -5,
    "Professional Services" := -8,
    "Manufacturing" := 0,
    "Restaurant" := 25,
    "Retail Store" := 15,
    "Franchise" := -5,
    "Other" := 10]

  const IndustryRisk: map<string, int> := map[
    "Technology" := -8,
    "Healthcare" := -5,
    "Finance" := -3,
    "Education" := 0,
    "Food & Beverage" := 20,
    "Retail" := 12,
    "Real Estate" := 5,
    "Other" := 8]

  const ExperienceImpact: map<string, int> := map[
    "Previous successful exit" := -20,
    "Serial entrepreneur" := -15,
    "Industry veteran (10+ years)" := -12,
    "First-time founder" := 10]

  const MinScore := 5
  const MaxScore := 95

  /** `table.get(key, 0)`: a key the table does not know adds nothing. */
  function Lookup(table: map<string, int>, key: string): int {
    if key in table then table[key] else 0
  }

  /** A missing business type is scored as "Other"; a present one the table
      does not know adds nothing. */
  function BusinessTypeAdjustment(businessType: Field<string>): (r: int)
    ensures businessType.Absent? ==> r == 10
    ensures businessType.Present? && businessType.value !in BusinessTypeRisk ==> r == 0
    ensures -10 <= r <= 25
  {
    Lookup(BusinessTypeRisk, businessType.GetOr("Other"))
  }

  /** A missing industry is scored as "Other"; an unknown one adds nothing. */
  function IndustryAdjustment(industry: Field<string>): (r: int)
    ensures industry.Absent? ==> r == 8
    ensures industry.Present? && industry.value !in IndustryRisk ==> r == 0
    ensures -8 <= r <= 20
  {
    Lookup(IndustryRisk, industry.GetOr("Other"))
  }

  /** Missing founder experience is scored as a first-time founder; an
      unknown value adds nothing. */
  function ExperienceAdjustment(experience: Field<string>): (r: int)
    ensures experience.Absent? ==> r == 10
    ensures experience.Present? && experience.value !in ExperienceImpact ==> r == 0
    ensures -20 <= r <= 10
  {
    Lookup(ExperienceImpact, experience.GetOr("First-time founder"))
  }

  /** Revenue tiers, first matching threshold from the top. */
  function RevenueAdjustment(revenue: int): (r: int)
    ensures r > 0 <==> revenue <= 1000
    ensures -15 <= r <= 10
  {
    if revenue > 10000 then -15
    else if revenue > 5000 then -10
    else if revenue > 1000 then -5
    else 10
  }

  /** Team-size tiers; a team of 2 to 5 adds nothing. */
  function TeamAdjustment(teamSize: int): (r: int)
    ensures r == 0 <==> 2 <= teamSize <= 5
    ensures r > 0 <==> teamSize < 2
  {
    if teamSize > 20 then -10
    else if teamSize > 10 then -8
    else if teamSize > 5 then -5
    else if teamSize < 2 then 15
    else 0
  }

  /** Funding tiers, applied only when the business says it has funding. */
  function FundingAdjustment(hasFunding: bool, fundingRaised: int): (r: int)
    ensures r == 0 <==> !hasFunding
    ensures -20 <= r <= 0
  {
    if hasFunding then
      if fundingRaised > 1000000 then -20
      else if fundingRaised > 500000 then -15
      else if fundingRaised > 100000 then -10
      else -5
    else 0
  }

  /** Runway tiers as written: the `< 3` branch comes after `< 6`, so it is
      never taken and any runway below 6 adds exactly 15. */
  function RunwayAdjustment(runway: int): (r: int)
    ensures r == 15 <==> runway < 6
    ensures r == 0 <==> 6 <= runway <= 12
    ensures r != 25
  {
    if runway > 18 then -10
    else if runway > 12 then -5
    else if runway < 6 then 15
    else if runway < 3 then 25
    else 0
  }

  /** Customers and revenue are independent bonuses. */
  function ValidationAdjustment(hasCustomers: bool, hasRevenue: bool): (r: int)
    ensures r == 0 <==> !hasCustomers && !hasRevenue
    ensures hasCustomers && !hasRevenue ==> r == -10
    ensures !hasCustomers && hasRevenue ==> r == -8
    ensures r == -18 <==> hasCustomers && hasRevenue
  {
    (if hasCustomers then -10 else 0) + (if hasRevenue then -8 else 0)
  }

  /** Space-size tiers; 500 to 3000 sq ft adds nothing. */
  function SpaceAdjustment(spaceSize: int): (r: int)
    ensures r == 0 <==> 500 <= spaceSize <= 3000
    ensures r < 0 <==> spaceSize < 500
  {
    if spaceSize > 5000 then 8
    else if spaceSize > 3000 then 5
    else if spaceSize < 500 then -3
    else 0
  }

  /** The score before the final clamp, with the program's defaults for the
      numeric and boolean keys that are missing. */
  function RawScore(b: Business): int {
    50
    + BusinessTypeAdjustment(b.businessType)
    + IndustryAdjustment(b.industry)
    + RevenueAdjustment(b.currentRevenue.GetOr(0))
    + TeamAdjustment(b.teamSize.GetOr(1))
    + FundingAdjustment(b.hasFunding.GetOr(false), b.fundingRaised.GetOr(0))
    + RunwayAdjustment(b.runwayMonths.GetOr(0))
    + ExperienceAdjustment(b.founderExperience)
    + ValidationAdjustment(b.hasCustomers.GetOr(false), b.hasRevenue.GetOr(false))
    + SpaceAdjustment(b.spaceSize.GetOr(1000))
  }

  function Clamp(x: int, lo: int, hi: int): int
    requires lo <= hi
  {
    if x < lo then lo else if x > hi then hi else x
  }

  /** The risk score: total, and always within [5, 95]; inside that range it
      is the raw score itself. */
  function RiskScore(b: Business): (score: int)
    ensures MinScore <= score <= MaxScore
    ensures MinScore <= RawScore(b) <= MaxScore ==> score == RawScore(b)
    ensures RawScore(b) < MinScore ==> score == MinScore
    ensures RawScore(b) > MaxScore ==> score == MaxScore
  {
    Clamp(RawScore(b), MinScore, MaxScore)
  }

  lemma ClampMonotone(x: int, y: int, lo: int, hi: int)
    requires lo <= hi && x <= y
    ensures Clamp(x, lo, hi) <= Clamp(y, lo, hi)
  {
  }

  /** More current revenue never raises the score. */
  lemma RevenueNeverRaisesScore(b: Business, less: int, more: int)
    requires less <= more
    ensures RiskScore(b.(currentRevenue := Present(more)))
         <= RiskScore(b.(currentRevenue := Present(less)))
  {
    ClampMonotone(RawScore(b.(currentRevenue := Present(more))),
                  RawScore(b.(currentRevenue := Present(less))), MinScore, MaxScore);
  }

  /** A larger team never raises the score. */
  lemma TeamSizeNeverRaisesScore(b: Business, smaller: int, larger: int)
    requires smaller <= larger
    ensures RiskScore(b.(teamSize := Present(larger)))
         <= RiskScore(b.(teamSize := Present(smaller)))
  {
    ClampMonotone(RawScore(b.(teamSize := Present(larger))),
                  RawScore(b.(teamSize := Present(smaller))), MinScore, MaxScore);
  }

  /** More funding raised never raises the score. */
  lemma FundingNeverRaisesScore(b: Business, less: int, more: int)
    requires less <= more
    ensures RiskScore(b.(fundingRaised := Present(more)))
         <= RiskScore(b.(fundingRaised := Present(less)))
  {
    ClampMonotone(RawScore(b.(fundingRaised := Present(more))),
                  RawScore(b.(fundingRaised := Present(less))), MinScore, MaxScore);
  }

  /** A longer runway never raises the score. */
  lemma RunwayNeverRaisesScore(b: Business, shorter: int, longer: int)
    requires shorter <= longer
    ensures RiskScore(b.(runwayMonths := Present(longer)))
         <= RiskScore(b.(runwayMonths := Present(shorter)))
  {
    ClampMonotone(RawScore(b.(runwayMonths := Present(longer))),
                  RawScore(b.(runwayMonths := Present(shorter))), MinScore, MaxScore);
  }

  /** A larger space never lowers the score. */
  lemma SpaceNeverLowersScore(b: Business, smaller: int, larger: int)
    requires smaller <= larger
    ensures RiskScore(b.(spaceSize := Present(smaller)))
         <= RiskScore(b.(spaceSize := Present(larger)))
  {
    ClampMonotone(RawScore(b.(spaceSize := Present(smaller))),
                  RawScore(b.(spaceSize := Present(larger))), MinScore, MaxScore);
  }

  /** The riskiest profile of the application form: a first-time restaurant
      with no revenue, one person and two months of runway reaches the
      ceiling; its runway contributes 15, not 25. */
  lemma WorstProfileHitsCeiling(b: Business)
    requires b.businessType == Present("Restaurant")
    requires b.industry == Present("Food & Beverage")
    requires b.currentRevenue == Present(0)
    requires b.teamSize == Present(1)
    requires b.hasFunding == Present(false)
    requires b.runwayMonths == Present(2)
    requires b.founderExperience == Present("First-time founder")
    requires b.hasCustomers == Present(false) && b.hasRevenue == Present(false)
    requires b.spaceSize == Present(1000)
    ensures RunwayAdjustment(2) == 15
    ensures RawScore(b) == 145
    ensures RiskScore(b) == MaxScore
  {
  }

  /** A funded, revenue-earning SaaS business led by a founder with an exit
      reaches the floor. */
  lemma BestProfileHitsFloor(b: Business)
    requires b.businessType == Present("SaaS Startup")
    requires b.industry == Present("Technology")
    requires b.currentRevenue == Present(15000)
    requires b.teamSize == Present(15)
    requires b.hasFunding == Present(true) && b.fundingRaised == Present(1200000)
    requires b.runwayMonths == Present(24)
    requires b.founderExperience == Present("Previous successful exit")
    requires b.hasCustomers == Present(true) && b.hasRevenue == Present(true)
    requires b.spaceSize == Present(2000)
    ensures RawScore(b) == -59
    ensures RiskScore(b) == MinScore
  {
  }
}
