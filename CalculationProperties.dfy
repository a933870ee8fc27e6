/**
 * What the aggregator's totals mean: the total counts every charge of
 * every day once (the local guide's tip included, though it is booked half
 * under transport and half under the local guide), the subtotals add up
 * over the days in any order, and they are never negative for sensible
 * input.
 */
module CalculationProperties {
  import opened Types
  import opened Sums
  import opened Calculations

  /** The quotation with its days replaced. */
  function WithQuotes(quotation: Quotation, quotes: seq<Quote>): Quotation
  {
    quotation.(quotes := quotes)
  }

  /** Field-by-field sum of two breakdowns. */
  function Plus(a: QuotationTotals, b: QuotationTotals): QuotationTotals
  {
    QuotationTotals(
      a.hotelSum + b.hotelSum,
      a.transportSum + b.transportSum,
      a.mealSum + b.mealSum,
      a.localGuideMealSum + b.localGuideMealSum,
      a.attractionSum + b.attractionSum,
      a.guideSum + b.guideSum,
      a.localGuideSum + b.localGuideSum,
      a.localGuideAccSum + b.localGuideAccSum,
      a.waterSum + b.waterSum,
      a.totalSum + b.totalSum)
  }

  /** The totals the aggregator computes for `quotation` with other days. */
  function TotalsOf(quotation: Quotation, quotes: seq<Quote>): QuotationTotals
  {
    CalculateQuotationTotals(WithQuotes(quotation, quotes))
  }

  // ---- The total ----

  /** The total is exactly the nine subtotals added up. */
  lemma TotalIsSumOfSubtotals(quotation: Quotation)
    ensures CalculateQuotationTotals(quotation).totalSum == SubtotalSum(CalculateQuotationTotals(quotation))
  {
    BreakdownTotalIsSumOfSubtotals(quotation.allNum, quotation.leadNum, quotation.quotes);
  }

  /** Without days every subtotal and the total are zero. */
  lemma NoDaysCostNothing(quotation: Quotation)
    requires quotation.quotes == []
    ensures CalculateQuotationTotals(quotation)
         == QuotationTotals(0.0, 0.0, 0.0, 0.0, 0.0, 0.0, 0.0, 0.0, 0.0, 0.0)
  {
  }

  // ---- The subtotals as closed formulas ----

  /**
   * Hotel is the per-day per-person amount summed over the days and
   * multiplied by the whole head count; the single-room supplement is
   * multiplied by the head count too.
   */
  lemma HotelSubtotal(quotation: Quotation)
    ensures CalculateQuotationTotals(quotation).hotelSum
         == quotation.allNum * Sum(quotation.quotes, HotelDay)
  {
    SumScaled(quotation.quotes, quotation.allNum, HotelDay);
  }

  /** Meals are the present slots' per-person rates, summed and multiplied by the head count. */
  lemma MealSubtotal(quotation: Quotation)
    ensures CalculateQuotationTotals(quotation).mealSum
         == quotation.allNum * Sum(quotation.quotes, MealDay)
  {
    SumScaled(quotation.quotes, quotation.allNum, MealDay);
  }

  /** Attractions are the per-person prices, summed and multiplied by the head count. */
  lemma AttractionSubtotal(quotation: Quotation)
    ensures CalculateQuotationTotals(quotation).attractionSum
         == quotation.allNum * Sum(quotation.quotes, AttractionDay)
  {
    SumScaled(quotation.quotes, quotation.allNum, AttractionDay);
  }

  /** Water is paid by every traveller except the leads. */
  lemma WaterExcludesLeads(quotation: Quotation)
    ensures CalculateQuotationTotals(quotation).waterSum
         == (quotation.allNum - quotation.leadNum) * Sum(quotation.quotes, WaterDay)
  {
    assert CalculateQuotationTotals(quotation).waterSum
        == ScaledReduce(quotation.allNum - quotation.leadNum, quotation.quotes, WaterDay);
  }

  /** On a day with no meal slot filled, meals cost nothing. */
  lemma AbsentMealsCostNothing(quotation: Quotation)
    requires forall i :: 0 <= i < |quotation.quotes| ==> quotation.quotes[i].meals == Meals(None, None, None)
    ensures CalculateQuotationTotals(quotation).mealSum == 0.0
  {
    var quotes := quotation.quotes;
    forall i | 0 <= i < |quotes|
      ensures Scaled(quotation.allNum, MealDay)(quotes[i]) == 0.0
    {
      assert quotes[i].meals == Meals(None, None, None);
      assert MealDay(quotes[i]) == 0.0;
    }
    SumOfZeros(quotes, Scaled(quotation.allNum, MealDay));
  }

  /** The main guide's fee and the local guide's meal and accommodation do not depend on head counts. */
  lemma FlatSubtotalsIgnoreHeadcount(quotation: Quotation, allNum: real, leadNum: real)
    ensures var other := CalculateQuotationTotals(quotation.(allNum := allNum, leadNum := leadNum));
            var totals := CalculateQuotationTotals(quotation);
            other.guideSum == totals.guideSum
            && other.localGuideMealSum == totals.localGuideMealSum
            && other.localGuideAccSum == totals.localGuideAccSum
  {
  }

  // ---- The local guide's tip ----

  /** A day's transport cost without the tip. */
  function TransportCostDay(q: Quote): real
  {
    q.transportCost.count
  }

  /** A day's local-guide salary without the tip. */
  function SalaryDay(q: Quote): real
  {
    q.localGuide.salary.count
  }

  /** A day's whole tip for the local guide. */
  function TipDay(allNum: real): Quote -> real
  {
    (q: Quote) => TipTotal(allNum, q.localGuide.tip)
  }

  lemma {:induction false} TipSplitSums(allNum: real, quotes: seq<Quote>)
    ensures Sum(quotes, TransportDay(allNum)) - Sum(quotes, TransportCostDay)
         == Sum(quotes, LocalGuideDay(allNum)) - Sum(quotes, SalaryDay)
    ensures Sum(quotes, TransportDay(allNum)) - Sum(quotes, TransportCostDay)
            + Sum(quotes, LocalGuideDay(allNum)) - Sum(quotes, SalaryDay)
         == Sum(quotes, TipDay(allNum))
  {
    if quotes != [] {
      TipSplitSums(allNum, quotes[1..]);
    }
  }

  /**
   * Transport and the local guide carry the same tip amount on top of
   * their own costs, and the two together are the whole tip of every day:
   * the total counts each tip exactly once.
   */
  lemma TipSplitEvenly(quotation: Quotation)
    ensures var totals := CalculateQuotationTotals(quotation);
            var quotes := quotation.quotes;
            totals.transportSum - Sum(quotes, TransportCostDay)
            == totals.localGuideSum - Sum(quotes, SalaryDay)
    ensures var totals := CalculateQuotationTotals(quotation);
            var quotes := quotation.quotes;
            totals.transportSum - Sum(quotes, TransportCostDay)
            + totals.localGuideSum - Sum(quotes, SalaryDay)
            == Sum(quotes, TipDay(quotation.allNum))
  {
    TipSplitSums(quotation.allNum, quotation.quotes);
  }

  // ---- Days add up, in any order ----

  /** In the specification, every subtotal and the total split over two runs of days. */
  lemma BreakdownAdditive(allNum: real, leadNum: real, first: seq<Quote>, second: seq<Quote>)
    ensures Breakdown(allNum, leadNum, first + second)
         == Plus(Breakdown(allNum, leadNum, first), Breakdown(allNum, leadNum, second))
  {
    SumAppend(first, second, Scaled(allNum, HotelDay));
    SumAppend(first, second, TransportDay(allNum));
    SumAppend(first, second, Scaled(allNum, MealDay));
    SumAppend(first, second, LocalGuideMealDay);
    SumAppend(first, second, Scaled(allNum, AttractionDay));
    SumAppend(first, second, GuideDay);
    SumAppend(first, second, LocalGuideDay(allNum));
    SumAppend(first, second, LocalGuideAccDay);
    SumAppend(first, second, Scaled(allNum - leadNum, WaterDay));
    SumAppend(first, second, DayCost(allNum, leadNum));
  }

  /** Splitting the days in two splits every subtotal and the total in two. */
  lemma TotalsAdditive(quotation: Quotation, first: seq<Quote>, second: seq<Quote>)
    ensures TotalsOf(quotation, first + second)
         == Plus(TotalsOf(quotation, first), TotalsOf(quotation, second))
  {
    var allNum, leadNum := quotation.allNum, quotation.leadNum;
    BreakdownAdditive(allNum, leadNum, first, second);
    assert TotalsOf(quotation, first) == Breakdown(allNum, leadNum, first);
    assert TotalsOf(quotation, second) == Breakdown(allNum, leadNum, second);
    assert TotalsOf(quotation, first + second) == Breakdown(allNum, leadNum, first + second);
  }

  /** In the specification, reordering the days changes neither a subtotal nor the total. */
  lemma BreakdownIgnoresDayOrder(allNum: real, leadNum: real, quotes: seq<Quote>, reordered: seq<Quote>)
    requires multiset(reordered) == multiset(quotes)
    ensures Breakdown(allNum, leadNum, reordered) == Breakdown(allNum, leadNum, quotes)
  {
    SumPermutation(reordered, quotes, Scaled(allNum, HotelDay));
    SumPermutation(reordered, quotes, TransportDay(allNum));
    SumPermutation(reordered, quotes, Scaled(allNum, MealDay));
    SumPermutation(reordered, quotes, LocalGuideMealDay);
    SumPermutation(reordered, quotes, Scaled(allNum, AttractionDay));
    SumPermutation(reordered, quotes, GuideDay);
    SumPermutation(reordered, quotes, LocalGuideDay(allNum));
    SumPermutation(reordered, quotes, LocalGuideAccDay);
    SumPermutation(reordered, quotes, Scaled(allNum - leadNum, WaterDay));
    SumPermutation(reordered, quotes, DayCost(allNum, leadNum));
  }

  /** Reordering the days changes neither a subtotal nor the total. */
  lemma TotalsIgnoreDayOrder(quotation: Quotation, reordered: seq<Quote>)
    requires multiset(reordered) == multiset(quotation.quotes)
    ensures TotalsOf(quotation, reordered) == CalculateQuotationTotals(quotation)
  {
    var allNum, leadNum := quotation.allNum, quotation.leadNum;
    BreakdownIgnoresDayOrder(allNum, leadNum, quotation.quotes, reordered);
    assert TotalsOf(quotation, reordered) == Breakdown(allNum, leadNum, reordered);
  }

  // ---- Non-negative input, non-negative totals ----

  predicate NonNegativeMeal(slot: Option<Meal>)
  {
    slot.Some? ==> slot.value.ppPrice.count >= 0.0
  }

  /** Every price and count of a day is non-negative. */
  predicate NonNegativeQuote(q: Quote)
  {
    && q.transportCost.count >= 0.0
    && q.hotel.ppPrice.count >= 0.0
    && q.hotel.singleRoom.count >= 0.0
    && q.hotel.singleRoom.ppPrice.count >= 0.0
    && NonNegativeMeal(q.meals.breakfast)
    && NonNegativeMeal(q.meals.lunch)
    && NonNegativeMeal(q.meals.dinner)
    && q.attractions.ppPrice.count >= 0.0
    && q.guide.count >= 0.0
    && q.water.count >= 0.0
    && q.localGuide.tip.count >= 0.0
    && q.localGuide.salary.count >= 0.0
    && q.localGuide.accommodation.count >= 0.0
    && q.localGuide.meal.count >= 0.0
  }

  /** Each per-day amount of a non-negative day is non-negative, before and after scaling. */
  lemma DayAmountsNonNegative(allNum: real, leadNum: real, q: Quote)
    requires allNum >= 1.0 && leadNum <= allNum && NonNegativeQuote(q)
    ensures Scaled(allNum, HotelDay)(q) >= 0.0 && Scaled(allNum, MealDay)(q) >= 0.0
    ensures Scaled(allNum, AttractionDay)(q) >= 0.0 && Scaled(allNum - leadNum, WaterDay)(q) >= 0.0
    ensures TransportDay(allNum)(q) >= 0.0 && LocalGuideDay(allNum)(q) >= 0.0
    ensures GuideDay(q) >= 0.0 && LocalGuideMealDay(q) >= 0.0 && LocalGuideAccDay(q) >= 0.0
  {
    var room := q.hotel.singleRoom;
    ProductNonNegative(room.count, room.ppPrice.count);
    var tip := q.localGuide.tip;
    ProductNonNegative(tip.count, allNum - 1.0);
    ProductNonNegative(allNum, HotelDay(q));
    ProductNonNegative(allNum, MealDay(q));
    ProductNonNegative(allNum, AttractionDay(q));
    ProductNonNegative(allNum - leadNum, WaterDay(q));
  }

  lemma ProductNonNegative(a: real, b: real)
    requires a >= 0.0 && b >= 0.0
    ensures a * b >= 0.0
  {
  }

  /** Summed over non-negative days, each subtotal's amounts are non-negative. */
  lemma DaySumsNonNegative(allNum: real, leadNum: real, quotes: seq<Quote>)
    requires allNum >= 1.0 && leadNum <= allNum
    requires forall i :: 0 <= i < |quotes| ==> NonNegativeQuote(quotes[i])
    ensures var t := Breakdown(allNum, leadNum, quotes);
            && t.hotelSum >= 0.0 && t.transportSum >= 0.0 && t.mealSum >= 0.0
            && t.localGuideMealSum >= 0.0 && t.attractionSum >= 0.0 && t.guideSum >= 0.0
            && t.localGuideSum >= 0.0 && t.localGuideAccSum >= 0.0 && t.waterSum >= 0.0
  {
    forall i | 0 <= i < |quotes| {
      DayAmountsNonNegative(allNum, leadNum, quotes[i]);
    }
    SumNonNegative(quotes, Scaled(allNum, HotelDay));
    SumNonNegative(quotes, TransportDay(allNum));
    SumNonNegative(quotes, Scaled(allNum, MealDay));
    SumNonNegative(quotes, LocalGuideMealDay);
    SumNonNegative(quotes, Scaled(allNum, AttractionDay));
    SumNonNegative(quotes, GuideDay);
    SumNonNegative(quotes, LocalGuideDay(allNum));
    SumNonNegative(quotes, LocalGuideAccDay);
    SumNonNegative(quotes, Scaled(allNum - leadNum, WaterDay));
  }

  /**
   * With at least one traveller, no more leads than travellers and no
   * negative price or count on any day, every subtotal and the total are
   * non-negative.
   */
  lemma SubtotalsNonNegative(quotation: Quotation)
    requires quotation.allNum >= 1.0
    requires quotation.leadNum <= quotation.allNum
    requires forall i :: 0 <= i < |quotation.quotes| ==> NonNegativeQuote(quotation.quotes[i])
    ensures var t := CalculateQuotationTotals(quotation);
            && t.hotelSum >= 0.0 && t.transportSum >= 0.0 && t.mealSum >= 0.0
            && t.localGuideMealSum >= 0.0 && t.attractionSum >= 0.0 && t.guideSum >= 0.0
            && t.localGuideSum >= 0.0 && t.localGuideAccSum >= 0.0 && t.waterSum >= 0.0
            && t.totalSum >= 0.0
  {
    DaySumsNonNegative(quotation.allNum, quotation.leadNum, quotation.quotes);
    TotalIsSumOfSubtotals(quotation);
  }

  /**
   * Why the head-count precondition is needed: the form starts with a head
   * count of 0, and at 0 a per-person tip of 10 books -5 under transport and
   * under the local guide, so the total is negative.
   */
  lemma ZeroHeadcountMakesTipNegative(quotation: Quotation)
    requires quotation.allNum == 0.0
    requires quotation.quotes == [EmptyQuote(0).(localGuide := EmptyQuote(0).localGuide.(tip := Person(10.0, EUR)))]
    ensures CalculateQuotationTotals(quotation).transportSum == -5.0
    ensures CalculateQuotationTotals(quotation).localGuideSum == -5.0
    ensures CalculateQuotationTotals(quotation).totalSum == -10.0
  {
    assert quotation.quotes[1..] == [];
  }

  // ---- Days added by the form ----

  /**
   * The day the quotation form adds (`createEmptyQuote`): one day at a
   * three-star hotel, every price zero, no meals, a per-person tip of zero.
   */
  function EmptyQuote(date: Date): Quote
  {
    Quote(
      date, 1, "",
      Price(0.0, EUR),
      Hotel(3, "", PpPrice(0.0, EUR), SingleRoom(0.0, PpPrice(0.0, EUR))),
      Meals(None, None, None),
      Attraction("", PpPrice(0.0, EUR)),
      Price(0.0, EUR),
      PpPrice(0.0, EUR),
      LocalGuide(Person(0.0, EUR), Price(0.0, EUR), Price(0.0, EUR), Price(0.0, EUR)),
      "")
  }

  /** A quotation of nothing but an empty day costs nothing. */
  lemma EmptyDayCostsNothing(quotation: Quotation, date: Date)
    ensures TotalsOf(quotation, [EmptyQuote(date)])
         == QuotationTotals(0.0, 0.0, 0.0, 0.0, 0.0, 0.0, 0.0, 0.0, 0.0, 0.0)
  {
    assert [EmptyQuote(date)][1..] == [];
  }

  /** A freshly added empty day leaves every subtotal and the total unchanged. */
  lemma EmptyDayChangesNothing(quotation: Quotation, date: Date)
    ensures TotalsOf(quotation, quotation.quotes + [EmptyQuote(date)]) == CalculateQuotationTotals(quotation)
  {
    TotalsAdditive(quotation, quotation.quotes, [EmptyQuote(date)]);
    EmptyDayCostsNothing(quotation, date);
    assert WithQuotes(quotation, quotation.quotes) == quotation;
  }

  // ---- A worked example ----

  /** One day for four travellers of whom one is a lead, with a per-group tip of zero. */
  function ExampleDay(): Quote
  {
    Quote(
      0, 1, "",
      Price(100.0, EUR),
      Hotel(3, "", PpPrice(50.0, EUR), SingleRoom(0.0, PpPrice(0.0, EUR))),
      Meals(None, None, None),
      Attraction("", PpPrice(20.0, EUR)),
      Price(30.0, EUR),
      PpPrice(5.0, EUR),
      LocalGuide(Group(0.0, EUR), Price(40.0, EUR), Price(10.0, EUR), Price(15.0, EUR)),
      "")
  }

  lemma ExampleTotals(quotation: Quotation)
    requires quotation.allNum == 4.0 && quotation.leadNum == 1.0 && quotation.quotes == [ExampleDay()]
    ensures CalculateQuotationTotals(quotation)
         == QuotationTotals(200.0, 100.0, 0.0, 15.0, 80.0, 30.0, 40.0, 10.0, 15.0, 490.0)
  {
    assert quotation.quotes[1..] == [];
  }
}
