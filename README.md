# EquiLease underwriting engine and deal store, in Dafny

EquiLease matches commercial tenants with landlords under a hybrid lease:
part of the market rent is paid upfront, the rest is deferred in exchange
for an equity stake and a share of revenue. This project models the part of
`equilease.py` that carries the domain logic:

- **Risk scoring** (`RiskScoring`): 50 plus a fixed chain of integer
  adjustments (business type, industry, revenue tier, team size, funding,
  runway, founder experience, market validation, space size), clamped to
  [5, 95]. The business data is a dictionary read with defaults; each key the
  engine reads with `.get(key, default)` is a `Field` (absent, or present with
  a value), so a *missing* categorical value (scored as "Other" or
  "First-time founder") stays distinct from a *present but unknown* one
  (which adds 0). The runway ladder is kept as written: its `< 3` branch comes
  after `< 6` and is never taken, so any runway below 6 months adds exactly 15.
- **Terms generation** (`DealTerms`): the risk multiplier `r = (score-50)/50`,
  the three clamped linear percentages, the revenue-share period by business
  type, the rent split at $25 per square foot per year and the revenue
  trigger `max(1.5 × revenue, 5000)`, all over exact rationals (`real`).
- **Deal store** (`DealStore`): a `Store` class holding the list of deals as a
  `seq<Deal>`. `SaveDeal` appends the merged record, `GetDealById` is a linear
  first-match search, `UpdateDealStatus` rewrites the first record with the id
  and stops. Each method is proved against a specification function
  (`MergeRecord`, `FindDeal`, `UpdatedStatus`) and the lemmas beside them state
  what those functions promise. `SubmitApplication` composes scoring, terms and
  saving as the application form does on submission.
- **Filtering** (`DealFilter`): equality filters on status, business type and
  location, each skipped at "All", then an inclusive risk range chosen by
  name. The chain of filters is proved equal to one conjunctive filter and to
  keep the order of the deals.
- **Proposal figures** (`ProposalFigures`): the numbers the proposal quotes
  (yearly rent and revenue share, their sum, the ROI improvement guarded
  against a zero market rent, and the truncated difference).

The model follows the code as written, including where a natural reading of
the scoring and terms rules would predict something else:

- The score is an integer, not a decimal: every adjustment is an integer and
  rounding to one decimal changes nothing.
- Reading the runway ladder as tiers ("below 3 adds 25") would give the
  riskiest profile 155 before the clamp. In the code the `< 3` branch is
  unreachable, so that profile sums to 145. It still reaches the ceiling of 95.
- One might expect the riskiest profile's upfront share to be clamped at 50.
  At the highest possible score, 95, the code gives 30 + 15 × 0.9 = 43.5, so
  the upper clamps of all three percentages never bind
  (`DealTerms.UpperClampsNeverBind`, `DealTerms.TermsAtCeiling`).
- One might expect the safest profile's revenue share to sit at its floor of
  1. At the lowest possible score, 5, the code gives 3 + 2 × (-0.9) = 1.2, so
  the lower clamp of the revenue share never binds either, while upfront rent
  and equity are clamped to 20 and 2 (`DealTerms.TermsAtFloor`).

## Model

| member | source | states |
|---|---|---|
| `RiskScoring.BusinessTypeAdjustment` | equilease.py:112-123 | a missing business type adds +10 (scored as "Other"); a present type not in the table adds 0; every adjustment lies in [-10, 25] |
| `RiskScoring.IndustryAdjustment` | equilease.py:125-136 | a missing industry adds +8 ("Other"); a present unknown industry adds 0; range [-8, 20] |
| `RiskScoring.ExperienceAdjustment` | equilease.py:185-192 | missing founder experience adds +10 ("First-time founder"); a present unknown value adds 0; range [-20, 10] |
| `RiskScoring.RevenueAdjustment` | equilease.py:138-149 | the revenue tier raises the score exactly when revenue is at most 1000; range [-15, 10] |
| `RiskScoring.TeamAdjustment` | equilease.py:151-160 | a team of 2 to 5 adds nothing, and only a team below 2 raises the score |
| `RiskScoring.FundingAdjustment` | equilease.py:162-172 | funding changes the score exactly when the business has funding, and never raises it (range [-20, 0]) |
| `RiskScoring.RunwayAdjustment` | equilease.py:174-183 | a runway below 6 adds exactly 15 (and nothing else adds 15); 6 to 12 adds nothing; the +25 of the `< 3` branch never occurs |
| `RiskScoring.ValidationAdjustment` | equilease.py:194-198 | customers and revenue are independent bonuses: none gives 0, customers alone -10, revenue alone -8, both -18 |
| `RiskScoring.SpaceAdjustment` | equilease.py:200-207 | 500 to 3000 sq ft adds nothing; only a space below 500 lowers the score |
| `RiskScoring.RiskScore` | equilease.py:108-210 | the score is always within [5, 95]; inside that range it equals the unclamped sum, below it is 5, above it is 95 |
| `RiskScoring.RevenueNeverRaisesScore` | equilease.py:139-149 | holding everything else fixed, more current revenue never raises the score |
| `RiskScoring.TeamSizeNeverRaisesScore` | equilease.py:152-160 | a larger team never raises the score |
| `RiskScoring.FundingNeverRaisesScore` | equilease.py:163-172 | more funding raised never raises the score |
| `RiskScoring.RunwayNeverRaisesScore` | equilease.py:175-183 | a longer runway never raises the score |
| `RiskScoring.SpaceNeverLowersScore` | equilease.py:201-207 | a larger space never lowers the score |
| `RiskScoring.WorstProfileHitsCeiling` | equilease.py:108-210 | a first-time restaurant (food and beverage) with no revenue, one person, 2 months of runway and 1000 sq ft sums to 145 with the runway adding 15, and scores 95 |
| `RiskScoring.BestProfileHitsFloor` | equilease.py:108-210 | a funded ($1.2M), revenue-earning SaaS technology business of 15 with 24 months of runway and a founder with an exit sums to -59 and scores 5 |
| `DealTerms.RiskMultiplier` | equilease.py:219 | for every score in [5, 95] the multiplier lies in [-0.9, 0.9]; it is negative exactly below 50 |
| `DealTerms.UpfrontRentPercent` | equilease.py:221-222 | the upfront share of rent lies in [20, 50] |
| `DealTerms.EquityPercent` | equilease.py:224-225 | the equity stake lies in [2, 12] |
| `DealTerms.RevenueSharePercent` | equilease.py:227-228 | the revenue share lies in [1, 6] |
| `DealTerms.RevenueShareYears` | equilease.py:230-234 | 4 years exactly for SaaS Startup or E-commerce, 2 exactly for Restaurant, otherwise 3 (a missing type included) |
| `DealTerms.RevenueTrigger` | equilease.py:242-243 | the trigger is at least 5000 and at least 1.5 times current revenue, and equals one of the two |
| `DealTerms.GenerateDealTerms` | equilease.py:212-257 | the terms carry the given score and the space size (default 1000); the three percentages are in their ranges; annual market rent is 25 per sq ft, twelve times the monthly market rent; monthly rent is the upfront share of the monthly market rent, and it plus the deferred amount make up that rent; the trigger is at least 5000 |
| `DealTerms.PercentsMonotone` | equilease.py:219-228 | a higher risk score never lowers the upfront, equity or revenue-share percentage |
| `DealTerms.UpperClampsNeverBind` | equilease.py:219-228 | for every score in [5, 95] upfront is at most 43.5, equity at most 8.6, and the revenue share is the unclamped 3 + 2r |
| `DealTerms.TermsAtCeiling` | equilease.py:219-228 | at score 95: upfront 43.5, equity 8.6, revenue share 4.8 |
| `DealTerms.TermsAtFloor` | equilease.py:219-228 | at score 5: upfront clamped to 20, equity clamped to 2, revenue share 1.2 (not clamped) |
| `DealTerms.RentExample` | equilease.py:236-238 | 1200 sq ft gives a monthly market rent of 2500 and an annual one of 30000 |
| `DealTerms.RentSplitBounds` | equilease.py:236-240 | for a non-negative space the monthly rent is between a fifth and a half of the market rent, so at least half is deferred |
| `DealStore.FirstIndexOf` | equilease.py:82-85 | the index found carries the id and no earlier deal does; no index exactly when no deal carries the id |
| `DealStore.FindDeal` | equilease.py:80-86 | a found deal is in the list and carries the id; nothing is found exactly when no deal carries the id |
| `DealStore.MergeRecord` | equilease.py:63-69 | the saved record keeps the id and status of the business data, takes space size and score from the terms, has created_at = updated_at = the save time, and no approval or rejection stamp |
| `DealStore.WithStatus` | equilease.py:93-99 | the changed deal has the new status and update time, keeps every other business field (id, name, type, location, ...), its terms, proposal and creation time; approved_at is set to now only for "approved" and rejected_at only for "rejected", otherwise both keep their earlier value |
| `DealStore.UpdatedStatus` | equilease.py:88-102 | a status change never changes the number of deals |
| `DealStore.Store.SaveDeal` | equilease.py:59-74 | the store gains exactly the merged record at its end and the earlier records are unchanged; the record is returned |
| `DealStore.Store.SubmitApplication` | equilease.py:681-686 | the saved record is the merge of the business data with the terms generated at its risk score, and that score is within [5, 95] |
| `DealStore.Store.GetDealById` | equilease.py:80-86 | the search returns the first deal carrying the id, or nothing exactly when no deal carries it |
| `DealStore.Store.UpdateDealStatus` | equilease.py:88-102 | the store afterwards is the list with only the first deal carrying the id changed as `WithStatus` says |
| `DealStore.UpdateChangesOnlyFirstMatch` | equilease.py:91-100 | after a status change the first deal with the id has the new status and update time and keeps its other business fields and terms, and every other position is unchanged |
| `DealStore.UpdateUnknownIdIsNoOp` | equilease.py:88-102 | a status change for an id no deal carries leaves every deal as it was |
| `DealStore.UpdateStamps` | equilease.py:94-99 | approval and rejection stamps are never cleared, and each changes only through its own status, to the update time |
| `DealStore.FirstIndexAfterAppend` | equilease.py:59-86 | after appending a record, the first index of an id is the earlier one if any, else the new last position if the record carries the id, else none |
| `DealStore.SaveThenFind` | equilease.py:59-86 | after a save, looking up the new record's id finds the new record when the id was not present, and otherwise the first earlier deal with that id |
| `DealStore.ApproveFreshDeal` | equilease.py:88-102 | a newly saved pending deal with a fresh id, once approved, is "approved", carries the approval time, has no rejection stamp, and the earlier deals are untouched |
| `DealFilter.Keep` | equilease.py:828-844 | a filter keeps exactly the deals satisfying its condition and never lengthens the list |
| `DealFilter.FilterDeals` | equilease.py:824-846 | the filters fail exactly when the risk level is neither "All" nor one of the three named levels |
| `DealFilter.FilterDealsIsConjunction` | equilease.py:824-846 | the chain of filters equals one pass keeping the deals that match every filter not set to "All" |
| `DealFilter.FilterDealsSound` | equilease.py:824-846 | with a known risk level, the result is an order-preserving subsequence of the deals and holds exactly the deals that match every filter |
| `DealFilter.KeepIsSubsequence` | equilease.py:828-844 | each filter step keeps the deals in their original order |
| `DealFilter.AllFiltersAreIdentity` | equilease.py:828-837 | with every filter at "All" the deals come back unchanged |
| `DealFilter.RiskLevelsPartition` | equilease.py:838-844 | the levels are inclusive at both ends and cover 0 to 100 without gap or overlap: 40 is Low, 41 and 70 Medium, 71 High |
| `ProposalFigures.Truncate` | equilease.py:271 | `int()` truncates toward zero: the result is within 1 of the value, on the zero side |
| `ProposalFigures.ComputeFigures` | equilease.py:265-271 | the potential return is yearly rent plus revenue share; a non-positive market rent gives an ROI improvement of 0; otherwise the ROI improvement is positive or zero exactly when the return beats or equals the market rent; the sign of the difference follows the same comparison |
| `ProposalFigures.RoiWithoutRevenue` | equilease.py:265-271 | with no projected revenue, terms charging u% upfront (u in [20, 50]) return u% of the market rent, an ROI improvement between -80 and -50 |
| `ProposalFigures.GeneratedRoiWithoutRevenue` | equilease.py:236-271 | generated terms for a positive space meet those conditions, so without projected revenue the ROI improvement lies in [-80, -50] |

## Left out

- The Streamlit pages, forms, navigation state, dashboard metrics and charts: presentation over external libraries. Only the submission step of the application form is modelled, as `SubmitApplication`.
- The risk labels shown on deal cards (`< 40` Low, `< 70` Medium): display only; the filter's inclusive levels are the modelled ones.
- The JSON file behind the store (creating it, loading with a fallback to an empty list on a missing or malformed file, writing it back): file I/O. The in-memory sequence is the store, so `get_deals` is the field `deals` itself.
- Clocks and identifiers: `datetime.now()` and `uuid.uuid4()` are parameters. `save_deal` reads the clock twice and `update_deal_status` reads it once for `updated_at` and again for the approval or rejection stamp; the model uses one instant per call, so the stamps it writes are equal where the program's may differ by the clock's resolution.
- Display rounding: Python's `round` on binary floats. Terms are exact rationals before rounding, and the proposal figures are computed from those exact terms, whereas the program computes them from the rounded terms. So the ROI bounds of `RoiWithoutRevenue` and `GeneratedRoiWithoutRevenue` hold for the exact figures, not for the displayed ones: with 130 sq ft, a score of 16 or less (upfront 20%) and no projected revenue, the program rounds the monthly rent of 54.17 to 54, and its displayed ROI improvement, about -80.06, falls just below -80.
- Floating point in general: numeric keys of the business data are integers (as the form produces them); floats read back from a stored file are not modelled.
- The text of the proposal and of the contract template: string formatting with no logic; the proposal is a given string.
- Keys of the business data that no modelled code reads (lease duration, burn rate, 24-month projection, business model, narrative fields): carried by the program unchanged, not represented.
- Concurrency: the whole-file read-modify-write can lose updates between two writers; nothing in the code addresses it.
