/**
 * The quotation pricing aggregator (`calculateQuotationTotals`): nine
 * category subtotals, each a reduction over the days of the quotation,
 * and their total.
 */
module Calculations {
  import opened Types
  import opened Sums

  /**
   * The tip discriminator (`isPersonTip`), a type guard: where it holds the
   * tip is per-person, and where it does not the tip is per-group.
   */
  predicate IsPersonTip(tip: Tip): (b: bool)
    ensures b ==> tip.Person?
    ensures !b ==> tip.Group?
  {
    tip.Person?
  }

  /**
   * The whole tip the group pays a local guide for one day: a per-person
   * tip is paid by `allNum - 1` travellers, a per-group tip once.
   */
  function TipTotal(allNum: real, tip: Tip): real
  {
    match tip
    case Person(count, _) => count * (allNum - 1.0)
    case Group(count, _) => count
  }

  /**
   * The half of a day's tip that the aggregator books under transport, and
   * again under the local guide: together the two halves are the whole tip.
   */
  function TipShare(allNum: real, tip: Tip): (share: real)
    ensures share + share == TipTotal(allNum, tip)
    ensures IsPersonTip(tip) && allNum == 1.0 ==> share == 0.0
  {
    if IsPersonTip(tip) then tip.count * (allNum - 1.0) / 2.0 else tip.count / 2.0
  }

  /** A meal slot's per-person rate; an absent slot costs nothing. */
  function MealRate(slot: Option<Meal>): real
  {
    match slot
    case None => 0.0
    case Some(meal) => meal.ppPrice.count
  }

  // The per-day amounts each reduction adds up. Those that depend on the
  // head count are functions of it returning the day's term.

  /** Per-person hotel rate plus the day's single-room supplements. */
  function HotelDay(q: Quote): real
  {
    q.hotel.ppPrice.count + q.hotel.singleRoom.count * q.hotel.singleRoom.ppPrice.count
  }

  /** Flat transport cost plus one half of the local guide's tip. */
  function TransportDay(allNum: real): Quote -> real
  {
    (q: Quote) => q.transportCost.count + TipShare(allNum, q.localGuide.tip)
  }

  /** Per-person rates of the meal slots that are present. */
  function MealDay(q: Quote): real
  {
    MealRate(q.meals.breakfast) + MealRate(q.meals.lunch) + MealRate(q.meals.dinner)
  }

  function LocalGuideMealDay(q: Quote): real
  {
    q.localGuide.meal.count
  }

  function AttractionDay(q: Quote): real
  {
    q.attractions.ppPrice.count
  }

  function GuideDay(q: Quote): real
  {
    q.guide.count
  }

  /** The local guide's salary plus the other half of the tip. */
  function LocalGuideDay(allNum: real): Quote -> real
  {
    (q: Quote) => q.localGuide.salary.count + TipShare(allNum, q.localGuide.tip)
  }

  function LocalGuideAccDay(q: Quote): real
  {
    q.localGuide.accommodation.count
  }

  function WaterDay(q: Quote): real
  {
    q.water.count
  }

  /**
   * Everything one day costs: hotel, meals and attraction for every
   * traveller, water for every traveller who is not a lead, and for the
   * group as a whole transport, the main guide, the local guide's salary,
   * meal and accommodation, and the local guide's whole tip.
   */
  function DayCost(allNum: real, leadNum: real): Quote -> real
  {
    (q: Quote) =>
      allNum * (HotelDay(q) + MealDay(q) + AttractionDay(q))
      + (allNum - leadNum) * WaterDay(q)
      + q.transportCost.count + q.guide.count
      + q.localGuide.salary.count + q.localGuide.meal.count + q.localGuide.accommodation.count
      + TipTotal(allNum, q.localGuide.tip)
  }

  /**
   * The breakdown as a specification: each subtotal sums its per-day amount,
   * scaled by the head count it applies to, and the total sums every day's
   * whole cost.
   */
  function Breakdown(allNum: real, leadNum: real, quotes: seq<Quote>): QuotationTotals
  {
    QuotationTotals(
      Sum(quotes, Scaled(allNum, HotelDay)),
      Sum(quotes, TransportDay(allNum)),
      Sum(quotes, Scaled(allNum, MealDay)),
      Sum(quotes, LocalGuideMealDay),
      Sum(quotes, Scaled(allNum, AttractionDay)),
      Sum(quotes, GuideDay),
      Sum(quotes, LocalGuideDay(allNum)),
      Sum(quotes, LocalGuideAccDay),
      Sum(quotes, Scaled(allNum - leadNum, WaterDay)),
      Sum(quotes, DayCost(allNum, leadNum)))
  }

  /** The nine subtotals of a breakdown, added up. */
  function SubtotalSum(t: QuotationTotals): real
  {
    t.hotelSum + t.transportSum + t.mealSum + t.localGuideMealSum + t.attractionSum
    + t.guideSum + t.localGuideSum + t.localGuideAccSum + t.waterSum
  }

  /**
   * A day's whole cost is its nine category amounts added up: the two
   * halves of the tip, under transport and under the local guide, make up
   * the whole tip.
   */
  lemma DayCostIsSumOfCategories(allNum: real, leadNum: real, q: Quote)
    ensures DayCost(allNum, leadNum)(q)
         == Scaled(allNum, HotelDay)(q) + TransportDay(allNum)(q) + Scaled(allNum, MealDay)(q)
            + LocalGuideMealDay(q) + Scaled(allNum, AttractionDay)(q) + GuideDay(q)
            + LocalGuideDay(allNum)(q) + LocalGuideAccDay(q) + Scaled(allNum - leadNum, WaterDay)(q)
  {
    var hotel, meal, sight := HotelDay(q), MealDay(q), AttractionDay(q);
    assert allNum * (hotel + meal + sight) == allNum * hotel + allNum * meal + allNum * sight;
  }

  /**
   * In the specification the total is the sum of the nine subtotals:
   * summing whole days' costs gives the same amount as summing category by
   * category.
   */
  lemma {:induction false} BreakdownTotalIsSumOfSubtotals(allNum: real, leadNum: real, quotes: seq<Quote>)
    ensures Breakdown(allNum, leadNum, quotes).totalSum == SubtotalSum(Breakdown(allNum, leadNum, quotes))
  {
    if quotes != [] {
      DayCostIsSumOfCategories(allNum, leadNum, quotes[0]);
      BreakdownTotalIsSumOfSubtotals(allNum, leadNum, quotes[1..]);
    }
  }

  /**
   * `calculateQuotationTotals`: every subtotal is a reduction from 0 over
   * the days; hotel, meal and attraction are then scaled by the head count
   * and water by the number of travellers who are not leads. The result is
   * the specified breakdown, so its total is the sum of every day's cost.
   */
  function CalculateQuotationTotals(quotation: Quotation): (totals: QuotationTotals)
    ensures totals == Breakdown(quotation.allNum, quotation.leadNum, quotation.quotes)
  {
    var allNum, leadNum, quotes := quotation.allNum, quotation.leadNum, quotation.quotes;
    var hotelSum := ScaledReduce(allNum, quotes, HotelDay);
    var transportSum := Reduce(quotes, TransportDay(allNum), 0.0);
    var mealSum := ScaledReduce(allNum, quotes, MealDay);
    var localGuideMealSum := Reduce(quotes, LocalGuideMealDay, 0.0);
    var attractionSum := ScaledReduce(allNum, quotes, AttractionDay);
    var guideSum := Reduce(quotes, GuideDay, 0.0);
    var localGuideSum := Reduce(quotes, LocalGuideDay(allNum), 0.0);
    var localGuideAccSum := Reduce(quotes, LocalGuideAccDay, 0.0);
    var waterSum := ScaledReduce(allNum - leadNum, quotes, WaterDay);
    var totalSum := hotelSum + transportSum + mealSum + localGuideMealSum
                    + attractionSum + guideSum + localGuideSum + localGuideAccSum + waterSum;
    BreakdownTotalIsSumOfSubtotals(allNum, leadNum, quotes);
    QuotationTotals(
      hotelSum, transportSum, mealSum, localGuideMealSum, attractionSum,
      guideSum, localGuideSum, localGuideAccSum, waterSum, totalSum)
  }
}
