/** The records the underwriting engine and the deal store pass around.

    A business application is a dictionary in the program; the engine reads
    most of its keys with a default (`.get(key, default)`), so every key that
    is read that way is a `Field`: either absent from the dictionary or
    present with a value. */
module Records {

  datatype Option<T> = None | Some(value: T)

  /** One key of a dictionary: missing, or present with a value. */
  datatype Field<T> = Absent | Present(value: T)
  {
    /** `d.get(key, default)` */
    function GetOr(default: T): T
    {
      match this
      case Absent => default
      case Present(v) => v
    }
  }

  type Timestamp = string

  /** The business data an applicant submits (the keys the core reads). */
  datatype Business = Business(
    id: string,
    businessName: string,
    businessType: Field<string>,
    industry: Field<string>,
    location: string,
    spaceSize: Field<int>,
    currentRevenue: Field<int>,
    projectedRevenue12m: Field<int>,
    runwayMonths: Field<int>,
    fundingRaised: Field<int>,
    teamSize: Field<int>,
    founderExperience: Field<string>,
    hasFunding: Field<bool>,
    hasRevenue: Field<bool>,
    hasCustomers: Field<bool>,
    timestamp: Timestamp,
    status: string)

  /** The generated lease terms, as exact values before display rounding. */
  datatype Terms = Terms(
    riskScore: int,
    upfrontRentPercent: real,
    equityPercent: real,
    revenueSharePercent: real,
    revenueShareYears: int,
    monthlyRent: real,
    monthlyMarketRent: real,
    deferredAmount: real,
    annualMarketRent: real,
    revenueTrigger: real,
    spaceSize: int)

  /** A stored deal: the business data merged with the terms (the terms win
      on the one key both carry, `space_size`), the proposal text and the
      lifecycle stamps. `status` is a business-data key, so it lives in
      `business` and is the field a status update rewrites. */
  datatype Deal = Deal(
    business: Business,
    terms: Terms,
    proposal: string,
    createdAt: Timestamp,
    updatedAt: Timestamp,
    approvedAt: Option<Timestamp>,
    rejectedAt: Option<Timestamp>)
  {
    function Id(): string { business.id }
    function Status(): string { business.status }
    function BusinessType(): Field<string> { business.businessType }
    function Location(): string { business.location }
    function RiskScore(): int { terms.riskScore }
    function SpaceSize(): int { terms.spaceSize }
  }
}
