# Quotation pricing aggregator

TravelPlanner prices a group tour from a quotation request. The request gives
`allNum` travellers in all, `leadNum` of them leads, and one line item per
itinerary day. `calculateQuotationTotals` turns these into nine category
subtotals and their total:

- hotel, meals and attraction are charged per traveller;
- water is charged per traveller who is not a lead;
- the main guide, the local guide's meal and the local guide's accommodation
  are flat amounts per day;
- transport and the local guide each carry their flat amount plus one half
  of the local guide's tip. A per-person tip is paid by `allNum - 1`
  travellers; a per-group tip is paid once.

This project models that aggregator and proves what its totals mean.

- `Types.dfy` holds the records: the prices, the hotel with its single-room
  supplement, the three optional meal slots, the local guide and its two-case
  tip (`Person` or `Group`), a day (`Quote`), the request (`Quotation`) and
  the breakdown (`QuotationTotals`).
- `Sums.dfy` holds two ways of summing:
  - `Reduce` is the left fold of `Array.prototype.reduce` with an
    accumulator;
  - `Sum` is the reference sum.

  It also proves that sums split over concatenation, ignore order, scale
  linearly and keep signs.
- `Calculations.dfy` holds the aggregator, including `isPersonTip` (the
  predicate `IsPersonTip`), the per-day amount each subtotal reduces, and the
  specification `Breakdown`. In `Breakdown`, every subtotal is a sum of scaled
  per-day amounts, and the total is the sum of each day's whole cost
  (`DayCost`). `CalculateQuotationTotals` follows the source's body step by
  step:
  - nine reductions from 0;
  - four of them multiplied by a head count;
  - the total added up from the nine.

  Its contract says the result is exactly `Breakdown`.
- `CalculationProperties.dfy` proves the following about the result:
  - the total is the sum of the nine subtotals;
  - each subtotal has a closed formula;
  - the tip is counted once, split evenly between transport and the local
    guide;
  - totals are additive over the days and independent of their order;
  - totals are non-negative for non-negative prices, at least one traveller and
    no more leads than travellers, and can be negative with no travellers;
  - an empty day, as the quotation form creates it, changes nothing;
  - a worked example gives the expected numbers.

Amounts are exact reals, so the model has no floating-point rounding. In the
source, the `|| 0` fallback of a meal slot maps an absent slot, a zero rate
and `NaN` to 0. With reals this becomes "an absent slot costs 0".

## Model

| member | source | states |
|---|---|---|
| Sums.Reduce | src/utils/calculations.ts:7-10 | A reduction that starts from an accumulator yields that accumulator plus the reference sum of the per-item amounts. |
| Sums.ScaledReduce | src/utils/calculations.ts:59-61 | A reduction from 0 times a factor (the shape of the hotel, meal, attraction and water subtotals) is the sum of the scaled amounts, and also the factor times the sum. |
| Calculations.IsPersonTip | src/utils/calculations.ts:80-82 | The type guard: a tip it accepts is the per-person case, and a tip it rejects is the per-group case. |
| Calculations.TipShare | src/utils/calculations.ts:15-17 | The tip share booked per day is half of the day's whole tip: `count * (allNum - 1)` for a per-person tip, `count` for a per-group tip. A per-person tip for a party of one contributes nothing. |
| Calculations.BreakdownTotalIsSumOfSubtotals | src/utils/calculations.ts:63-64 | Adding up the whole costs of every day gives the same amount as adding up the nine category subtotals. |
| Calculations.CalculateQuotationTotals | src/utils/calculations.ts:3-78 | The breakdown equals the specification: each subtotal is the sum over the days of its per-day amount, scaled by `allNum` (hotel, meal, attraction) or `allNum - leadNum` (water). The total is the sum of every day's whole cost. |
| CalculationProperties.TotalIsSumOfSubtotals | src/utils/calculations.ts:63-64 | `totalSum` is exactly the sum of the nine subtotals. |
| CalculationProperties.NoDaysCostNothing | src/utils/calculations.ts:7-61 | With no days, every subtotal and the total are 0. |
| CalculationProperties.HotelSubtotal | src/utils/calculations.ts:7-10 | `hotelSum` is `allNum` times the sum over the days of the per-person rate plus single rooms times the single-room rate. The supplement is scaled by the head count too. |
| CalculationProperties.MealSubtotal | src/utils/calculations.ts:22-27 | `mealSum` is `allNum` times the sum over the days of the rates of the meal slots that are present. |
| CalculationProperties.AttractionSubtotal | src/utils/calculations.ts:35-37 | `attractionSum` is `allNum` times the sum of the attraction prices. |
| CalculationProperties.WaterExcludesLeads | src/utils/calculations.ts:59-61 | `waterSum` is `allNum - leadNum` times the sum of the water prices, so only leads are exempt, and only from water. |
| CalculationProperties.AbsentMealsCostNothing | src/utils/calculations.ts:23-25 | When every day has all three meal slots empty, `mealSum` is 0. |
| CalculationProperties.FlatSubtotalsIgnoreHeadcount | src/utils/calculations.ts:30-56 | `guideSum`, `localGuideMealSum` and `localGuideAccSum` do not change when `allNum` and `leadNum` change. |
| CalculationProperties.TipSplitSums | src/utils/calculations.ts:13-51 | Over any days: transport minus the transport costs equals local guide minus the salaries, and the two excesses together are the days' whole tips. |
| CalculationProperties.TipSplitEvenly | src/utils/calculations.ts:45-51 | In the breakdown, transport and the local guide carry the same tip amount on top of their own costs. Together they carry every day's whole tip exactly once. |
| CalculationProperties.BreakdownAdditive | src/utils/calculations.ts:7-64 | In the specification, every subtotal and the total of two runs of days joined together are the sums of those of each run. |
| CalculationProperties.TotalsAdditive | src/utils/calculations.ts:7-64 | The breakdown of two runs of days joined together is the field-by-field sum of the two breakdowns, the total included. |
| CalculationProperties.BreakdownIgnoresDayOrder | src/utils/calculations.ts:7-64 | In the specification, any reordering of the days gives the same subtotals and total. |
| CalculationProperties.TotalsIgnoreDayOrder | src/utils/calculations.ts:7-64 | Any reordering of the days gives the same breakdown. |
| CalculationProperties.DaySumsNonNegative | src/utils/calculations.ts:7-61 | For non-negative days, `allNum >= 1` and `leadNum <= allNum`, each specified subtotal is non-negative. |
| CalculationProperties.SubtotalsNonNegative | src/utils/calculations.ts:7-64 | Every subtotal and the total are non-negative under the same conditions. |
| CalculationProperties.ZeroHeadcountMakesTipNegative | src/components/QuotationForm.tsx:169-174 | The form's initial head count is 0. At 0, one day with a per-person tip of 10 gives transport -5, local guide -5 and total -10, so the non-negativity lemma needs `allNum >= 1`. |
| CalculationProperties.EmptyDayCostsNothing | src/components/QuotationForm.tsx:44-76 | A quotation that holds only the day the form's `createEmptyQuote` produces costs 0 in every category. |
| CalculationProperties.EmptyDayChangesNothing | src/components/QuotationForm.tsx:78-81 | Appending an empty day, as `addQuote` does, leaves every subtotal and the total unchanged. |
| CalculationProperties.ExampleTotals | src/utils/calculations.ts:3-78 | One worked day has four travellers, one lead, a zero per-group tip, transport 100, hotel 50, attraction 20, guide 30, water 5 and local guide 40/10/15. It gives hotel 200, transport 100, meal 0, local-guide meal 15, attraction 80, guide 30, local guide 40, local-guide accommodation 10, water 15 and total 490. |

## Left out

- Amounts are exact reals. IEEE-754 rounding of JavaScript numbers, and `NaN` handling (the `|| 0` fallback on meal rates), are not modelled.
- Head counts (`allNum`, `leadNum`) and the single-room count are reals, like the JavaScript numbers they stand for. The model does not require them to be whole numbers.
- Dates are integers (milliseconds) and take no part in any total. `new Date()` in `createEmptyQuote` becomes a parameter.
- Some fields are carried but never enter a total, as in the source:
  - on the quotation: `singleRoomFactor`, `carType`, the group name and number, the operator, the date and the `details` strings;
  - on each day: `dayCount`, `cityName`, `hotel.stars`, `hotel.reference`, `attractions.name` and `extra`. In particular, `dayCount` does not multiply a day's cost.
- The tip's `type` tag becomes the two constructors `Person` and `Group`. Only `"Person"` is tested for; every other tip is treated as per-group, as in the source.
- The source field `accomadation` is named `accommodation` here.
- The React components, form validation, the `updateQuote`, `removeQuote` and `handleMealChange` state plumbing, and the quotation submission handler in src/App.tsx are not part of this model. The submission handler covers random review counts, dates and the per-person division. These are user interface and mock data, not pricing.
- Currency formatting and parsing, and the mock client and quotation lists, are not part of this model.
- The aggregator raises no errors. The only assumptions are the preconditions of the non-negativity lemmas (`allNum >= 1`, `leadNum <= allNum`, non-negative prices), and the source enforces none of them. The head-count widget has a minimum of 1, but the form's initial head count is 0 and its only rule is that the field is present. So a quotation can reach the aggregator with `allNum = 0`, where a per-person tip turns negative (`ZeroHeadcountMakesTipNegative`).
