/**
 * The records a quotation is built from: the group parameters and one line
 * item per itinerary day, and the breakdown the aggregator returns.
 *
 * Monetary amounts (the `count` of every price) are exact reals: the model
 * has no floating-point rounding. Head counts and room counts are JavaScript
 * numbers in the source and reals here as well.
 * Every price carries the one currency the application knows, EUR.
 */
module Types {

  /** An optional slot; `None` is the application's `null`. */
  datatype Option<T> = None | Some(value: T)

  /** Milliseconds since the epoch; dates play no part in any total. */
  type Date = int

  datatype Currency = EUR

  /** A flat amount (IPrice). */
  datatype Price = Price(count: real, currency: Currency)

  /** An amount charged once per traveller (IppPrice, type "Person"). */
  datatype PpPrice = PpPrice(count: real, currency: Currency)

  /**
   * A local guide's tip is either charged per person (IppPrice, type
   * "Person") or once for the whole group (IGroupPrice, type "Group");
   * both cases carry the amount as `count`.
   */
  datatype Tip =
    | Person(count: real, currency: Currency)
    | Group(count: real, currency: Currency)

  datatype SingleRoom = SingleRoom(count: real, ppPrice: PpPrice)

  datatype Hotel = Hotel(stars: int, reference: string, ppPrice: PpPrice, singleRoom: SingleRoom)

  datatype Meal = Meal(ppPrice: PpPrice)

  /** Each of the three meal slots of a day may be absent. */
  datatype Meals = Meals(breakfast: Option<Meal>, lunch: Option<Meal>, dinner: Option<Meal>)

  datatype Attraction = Attraction(name: string, ppPrice: PpPrice)

  /** The source spells the accommodation field `accomadation`. */
  datatype LocalGuide = LocalGuide(tip: Tip, salary: Price, accommodation: Price, meal: Price)

  /** One itinerary day (IQuote). */
  datatype Quote = Quote(
    date: Date,
    dayCount: int,
    cityName: string,
    transportCost: Price,
    hotel: Hotel,
    meals: Meals,
    attractions: Attraction,
    guide: Price,
    water: PpPrice,
    localGuide: LocalGuide,
    extra: string)

  datatype Details = Details(
    transport: string, hotel: string, meal: string,
    attraction: string, guide: string, extra: string)

  /**
   * A quotation request (IQuotation): `allNum` travellers in all, of whom
   * `leadNum` are leads, and the ordered days.
   */
  datatype Quotation = Quotation(
    allNum: real,
    leadNum: real,
    carType: string,
    singleRoomFactor: real,
    groupName: string,
    groupNumber: string,
    operator: string,
    date: Date,
    quotes: seq<Quote>,
    details: Details)

  /** The nine category subtotals and their total (the `calculations` record). */
  datatype QuotationTotals = QuotationTotals(
    hotelSum: real,
    transportSum: real,
    mealSum: real,
    localGuideMealSum: real,
    attractionSum: real,
    guideSum: real,
    localGuideSum: real,
    localGuideAccSum: real,
    waterSum: real,
    totalSum: real)
}
