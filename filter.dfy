/** The dashboard's deal filters: equality on status, business type and
    location, each skipped when set to "All", then an inclusive risk-score
    range chosen by name. Filtering keeps the order of the deals. */
module DealFilter {
  import opened Records

  const All: string := "All"

  /** The named risk levels and their inclusive score bounds. */
  const RiskRanges: map<string, (int, int)> := map[
    "Low (0-40)" := (0, 40),
    "Medium (41-70)" := (41, 70),
    "High (71-100)" := (71, 100)]

  /** Looking up a risk level the table does not have is an error. */
  datatype FilterError = UnknownRiskLevel(level: string)

  datatype Result<T> = Ok(value: T) | Err(error: FilterError)

  /** The deals satisfying `keep`, in their original order. */
  function Keep(deals: seq<Deal>, keep: Deal -> bool): (r: seq<Deal>)
    ensures |r| <= |deals|
    ensures forall d :: d in r <==> d in deals && keep(d)
  {
    if |deals| == 0 then []
    else if keep(deals[0]) then [deals[0]] + Keep(deals[1..], keep)
    else Keep(deals[1..], keep)
  }

  /** `a` is `b` with some elements left out, the rest in the same order. */
  ghost predicate SubsequenceOf(a: seq<Deal>, b: seq<Deal>)
    decreases |b|
  {
    |a| == 0 ||
    (|b| > 0 && ((a[0] == b[0] && SubsequenceOf(a[1..], b[1..])) || SubsequenceOf(a, b[1..])))
  }

  function InRange(score: int, range: (int, int)): bool {
    range.0 <= score && score <= range.1
  }

  predicate StatusOk(statusFilter: string, d: Deal) {
    statusFilter != All ==> d.Status() == statusFilter
  }

  predicate BusinessTypeOk(businessTypeFilter: string, d: Deal) {
    businessTypeFilter != All ==> d.BusinessType() == Present(businessTypeFilter)
  }

  predicate LocationOk(locationFilter: string, d: Deal) {
    locationFilter != All ==> d.Location() == locationFilter
  }

  predicate RiskOk(riskFilter: string, d: Deal) {
    riskFilter != All && riskFilter in RiskRanges ==> InRange(d.RiskScore(), RiskRanges[riskFilter])
  }

  /** One deal against every filter at once: the reference for the chain of
      filters below. */
  predicate Matches(d: Deal, statusFilter: string, businessTypeFilter: string,
                    locationFilter: string, riskFilter: string)
  {
    && StatusOk(statusFilter, d)
    && BusinessTypeOk(businessTypeFilter, d)
    && LocationOk(locationFilter, d)
    && RiskOk(riskFilter, d)
  }

  function ByStatus(deals: seq<Deal>, statusFilter: string): seq<Deal> {
    if statusFilter != All then Keep(deals, (d: Deal) => d.Status() == statusFilter) else deals
  }

  function ByBusinessType(deals: seq<Deal>, businessTypeFilter: string): seq<Deal> {
    if businessTypeFilter != All
    then Keep(deals, (d: Deal) => d.BusinessType() == Present(businessTypeFilter))
    else deals
  }

  function ByLocation(deals: seq<Deal>, locationFilter: string): seq<Deal> {
    if locationFilter != All then Keep(deals, (d: Deal) => d.Location() == locationFilter) else deals
  }

  /** The filters applied one after another, as the dashboard does; a risk
      level other than "All" and the three named ones is an error. */
  function FilterDeals(deals: seq<Deal>, statusFilter: string, businessTypeFilter: string,
                       locationFilter: string, riskFilter: string): (r: Result<seq<Deal>>)
    ensures r.Err? <==> riskFilter != All && riskFilter !in RiskRanges
  {
    var filtered := ByLocation(ByBusinessType(ByStatus(deals, statusFilter), businessTypeFilter), locationFilter);
    if riskFilter == All then Ok(filtered)
    else if riskFilter !in RiskRanges then Err(UnknownRiskLevel(riskFilter))
    else
      var range := RiskRanges[riskFilter];
      Ok(Keep(filtered, (d: Deal) => InRange(d.RiskScore(), range)))
  }

  /** Filtering by `p` and then by `q` is filtering by both. */
  lemma {:induction false} KeepTwice(deals: seq<Deal>, p: Deal -> bool, q: Deal -> bool, both: Deal -> bool)
    requires forall d :: both(d) == (p(d) && q(d))
    ensures Keep(Keep(deals, p), q) == Keep(deals, both)
  {
    if |deals| > 0 {
      KeepTwice(deals[1..], p, q, both);
      if p(deals[0]) {
        assert ([deals[0]] + Keep(deals[1..], p))[1..] == Keep(deals[1..], p);
      }
    }
  }

  /** Filtering by a predicate that agrees with another on every deal gives
      the same result. */
  lemma {:induction false} KeepAgrees(deals: seq<Deal>, p: Deal -> bool, q: Deal -> bool)
    requires forall d :: p(d) == q(d)
    ensures Keep(deals, p) == Keep(deals, q)
  {
    if |deals| > 0 {
      KeepAgrees(deals[1..], p, q);
    }
  }

  /** A filter keeps the order of what it keeps. */
  lemma {:induction false} KeepIsSubsequence(deals: seq<Deal>, keep: Deal -> bool)
    ensures SubsequenceOf(Keep(deals, keep), deals)
  {
    if |deals| > 0 {
      KeepIsSubsequence(deals[1..], keep);
      if keep(deals[0]) {
        assert ([deals[0]] + Keep(deals[1..], keep))[1..] == Keep(deals[1..], keep);
      }
    }
  }

  lemma ByStatusIsKeep(deals: seq<Deal>, statusFilter: string, keep: Deal -> bool)
    requires forall d :: keep(d) == StatusOk(statusFilter, d)
    ensures ByStatus(deals, statusFilter) == Keep(deals, keep)
  {
    if statusFilter != All {
      KeepAgrees(deals, (d: Deal) => d.Status() == statusFilter, keep);
    } else {
      KeepAll(deals, keep);
    }
  }

  lemma ByBusinessTypeIsKeep(deals: seq<Deal>, businessTypeFilter: string, keep: Deal -> bool)
    requires forall d :: keep(d) == BusinessTypeOk(businessTypeFilter, d)
    ensures ByBusinessType(deals, businessTypeFilter) == Keep(deals, keep)
  {
    if businessTypeFilter != All {
      KeepAgrees(deals, (d: Deal) => d.BusinessType() == Present(businessTypeFilter), keep);
    } else {
      KeepAll(deals, keep);
    }
  }

  lemma ByLocationIsKeep(deals: seq<Deal>, locationFilter: string, keep: Deal -> bool)
    requires forall d :: keep(d) == LocationOk(locationFilter, d)
    ensures ByLocation(deals, locationFilter) == Keep(deals, keep)
  {
    if locationFilter != All {
      KeepAgrees(deals, (d: Deal) => d.Location() == locationFilter, keep);
    } else {
      KeepAll(deals, keep);
    }
  }

  /** The chain of filters is the single conjunctive filter `Matches`. */
  lemma FilterDealsIsConjunction(deals: seq<Deal>, statusFilter: string, businessTypeFilter: string,
                                 locationFilter: string, riskFilter: string, matches: Deal -> bool)
    requires riskFilter == All || riskFilter in RiskRanges
    requires forall d :: matches(d) == Matches(d, statusFilter, businessTypeFilter, locationFilter, riskFilter)
    ensures FilterDeals(deals, statusFilter, businessTypeFilter, locationFilter, riskFilter)
         == Ok(Keep(deals, matches))
  {
    var pStatus := (d: Deal) => StatusOk(statusFilter, d);
    var pType := (d: Deal) => BusinessTypeOk(businessTypeFilter, d);
    var pLocation := (d: Deal) => LocationOk(locationFilter, d);
    var pRisk := (d: Deal) => RiskOk(riskFilter, d);
    var p12 := (d: Deal) => StatusOk(statusFilter, d) && BusinessTypeOk(businessTypeFilter, d);
    var p123 := (d: Deal) => p12(d) && LocationOk(locationFilter, d);

    var byStatus := ByStatus(deals, statusFilter);
    ByStatusIsKeep(deals, statusFilter, pStatus);
    var byType := ByBusinessType(byStatus, businessTypeFilter);
    ByBusinessTypeIsKeep(byStatus, businessTypeFilter, pType);
    KeepTwice(deals, pStatus, pType, p12);
    var byLocation := ByLocation(byType, locationFilter);
    ByLocationIsKeep(byType, locationFilter, pLocation);
    KeepTwice(deals, p12, pLocation, p123);
    assert byLocation == Keep(deals, p123);
    if riskFilter == All {
      KeepAll(byLocation, pRisk);
    } else {
      var range := RiskRanges[riskFilter];
      KeepAgrees(byLocation, (d: Deal) => InRange(d.RiskScore(), range), pRisk);
    }
    KeepTwice(deals, p123, pRisk, matches);
  }

  /** Filtering by a predicate every deal satisfies changes nothing. */
  lemma {:induction false} KeepAll(deals: seq<Deal>, keep: Deal -> bool)
    requires forall d :: d in deals ==> keep(d)
    ensures Keep(deals, keep) == deals
  {
    if |deals| > 0 {
      assert forall d :: d in deals[1..] ==> d in deals;
      KeepAll(deals[1..], keep);
    }
  }

  /** What the filters return: the deals matching every filter not set to
      "All", in their original order. */
  lemma FilterDealsSound(deals: seq<Deal>, statusFilter: string, businessTypeFilter: string,
                         locationFilter: string, riskFilter: string)
    requires riskFilter == All || riskFilter in RiskRanges
    ensures var r := FilterDeals(deals, statusFilter, businessTypeFilter, locationFilter, riskFilter);
      && r.Ok?
      && SubsequenceOf(r.value, deals)
      && forall d :: d in r.value <==> d in deals && Matches(d, statusFilter, businessTypeFilter, locationFilter, riskFilter)
  {
    var matches := (d: Deal) => Matches(d, statusFilter, businessTypeFilter, locationFilter, riskFilter);
    FilterDealsIsConjunction(deals, statusFilter, businessTypeFilter, locationFilter, riskFilter, matches);
    KeepIsSubsequence(deals, matches);
  }

  /** With every filter at "All" the deals come back unchanged. */
  lemma AllFiltersAreIdentity(deals: seq<Deal>)
    ensures FilterDeals(deals, All, All, All, All) == Ok(deals)
  {
  }

  /** The risk levels are inclusive at both ends and split 0 to 100 without
      gap or overlap: 40 is Low, 41 and 70 are Medium, 71 is High. */
  lemma RiskLevelsPartition(score: int)
    requires 0 <= score <= 100
    ensures InRange(score, RiskRanges["Low (0-40)"]) <==> score <= 40
    ensures InRange(score, RiskRanges["Medium (41-70)"]) <==> 41 <= score <= 70
    ensures InRange(score, RiskRanges["High (71-100)"]) <==> 71 <= score
    ensures InRange(40, RiskRanges["Low (0-40)"]) && InRange(41, RiskRanges["Medium (41-70)"])
    ensures InRange(70, RiskRanges["Medium (41-70)"]) && InRange(71, RiskRanges["High (71-100)"])
  {
  }
}
