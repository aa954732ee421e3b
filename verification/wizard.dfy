/**
 * The three-screen planner (projetk1.py): destination and dates, then
 * airline and seat, then hotel and payment. Each "Dalej" checks the screen's
 * fields before moving on; "Zaplanuj podróż" prices the trip from the two
 * catalogs, checks it against the running budget of the app (2000 at start),
 * deducts the cost, and starts over on the first screen with an empty form.
 */
module Wizard {
  import opened Wrappers
  import opened Text
  import opened Dates
  import opened Domain

  /** The screen the app shows; each choose_* method draws one. */
  datatype Screen = DestinationScreen | TransportScreen | HotelScreen

  const InitialBudget := 2000

  /** The airline catalog: name to flight price. */
  const AirlinePrices: map<string, int> := map["LOT" := 800, "Ryanair" := 600, "WizzAir" := 700]

  /** The hotel catalog: name to hotel price. */
  const HotelPrices: map<string, int> := map["Hotel A" := 600, "Hotel B" := 800, "Hotel C" := 1000]

  /** catalog.get(name, 0): the listed price, or 0 for a name the catalog lacks (the empty choice included). */
  function PriceOf(catalog: map<string, int>, name: string): int {
    if name in catalog then catalog[name] else 0
  }

  /** Every price either catalog can give, the default included, lies between 0 and the dearest entry. */
  lemma CatalogPriceBounds(airline: string, hotel: string)
    ensures 0 <= PriceOf(AirlinePrices, airline) <= 800
    ensures 0 <= PriceOf(HotelPrices, hotel) <= 1000
    ensures airline == "" ==> PriceOf(AirlinePrices, airline) == 0
    ensures hotel == "" ==> PriceOf(HotelPrices, hotel) == 0
  {
  }

  /** is_valid_date_format: strptime accepts the string. */
  predicate IsValidDateFormat(s: string) {
    ParseDate(s).Some?
  }

  /** Every valid date in its YYYY-MM-DD spelling passes the format check. */
  lemma IsValidDateFormatComplete(d: Date)
    requires IsValid(d)
    ensures IsValidDateFormat(FormatDate(d))
  {
    ParseFormatDate(d);
  }

  /** Only strings that denote a real calendar date pass the format check. */
  lemma IsValidDateFormatSound(s: string)
    requires IsValidDateFormat(s)
    ensures IsValid(ParseDate(s).value)
  {
  }

  // ------------------------------------------------------------- from_dict

  /** The keys from_dict looks up; None where the dictionary lacks the key. */
  datatype TripDict = TripDict(
    destination: Option<string>,
    budget: Option<int>,
    departure: Option<string>,
    returnDate: Option<string>)

  function GetOr<T>(value: Option<T>, default: T): T {
    if value.Some? then value.value else default
  }

  /**
   * Trip.from_dict: destination defaults to "", budget to 0, the dates to
   * None; transport and hotel are never read from the dictionary.
   */
  function FromDict(data: TripDict): (t: Trip)
    ensures t.transport.None? && t.hotel.None?
  {
    NewTrip(GetOr(data.destination, ""), GetOr(data.budget, 0))
      .(departure := data.departure, returnDate := data.returnDate)
  }

  /** The dictionary holding every key from_dict reads, taken from a trip. */
  function ToDict(t: Trip): TripDict {
    TripDict(Some(t.destination), Some(t.budget), t.departure, t.returnDate)
  }

  /** An empty dictionary gives Trip("", 0) with no dates. */
  lemma FromDictDefaults()
    ensures FromDict(TripDict(None, None, None, None)) == Trip("", 0, None, None, None, None)
  {
  }

  /** from_dict keeps the four fields it reads and drops the flight and the hotel. */
  lemma FromDictRoundTrip(t: Trip)
    ensures FromDict(ToDict(t)) == t.(transport := None, hotel := None)
  {
  }

  // -------------------------------------------------------------- payments

  /** The word each strategy puts after the amount. */
  function PaymentSuffix(p: Payment): string {
    match p
    case CreditCard => " zł kartą"
    case Cash => " zł gotówką"
  }

  /** CreditCardPayment.pay / CashPayment.pay: the message naming the amount and the method. */
  function PaymentMessage(p: Payment, amount: int): string {
    "Płacę " + IntToDecimal(amount) + PaymentSuffix(p)
  }

  /**
   * The message reads back: after "Płacę " come the decimal digits of the
   * amount, which int() turns back into the amount, then the method's words.
   */
  lemma PaymentMessageReadsBack(p: Payment, amount: int)
    ensures var m, n := PaymentMessage(p, amount), |IntToDecimal(amount)|;
            && |m| == 6 + n + |PaymentSuffix(p)|
            && m[..6] == "Płacę "
            && ParseInt(m[6..6 + n]) == Some(amount)
            && m[6 + n..] == PaymentSuffix(p)
  {
    var m, digits := PaymentMessage(p, amount), IntToDecimal(amount);
    assert m[6..6 + |digits|] == digits;
    IntToDecimalRoundTrip(amount);
  }

  /** The two messages differ for the same amount: the card one never reads as cash. */
  lemma PaymentMessagesDiffer(amount: int)
    ensures PaymentMessage(CreditCard, amount) != PaymentMessage(Cash, amount)
  {
    assert |PaymentMessage(CreditCard, amount)| != |PaymentMessage(Cash, amount)|;
  }

  // -------------------------------------------------------------------- app

  class TravelPlannerApp {
    /** The money left for further trips. */
    var budget: int
    /** The one trip object the app reuses for every booking. */
    var trip: Trip
    var destination: string
    var departure: string
    var returnDate: string
    var airline: string
    var seat: string
    var hotelChoice: string
    var selectedPayment: string
    var airlines: map<string, int>
    var hotels: map<string, int>
    var screen: Screen

    /** The budget is never negative nor above its start, and the catalogs are the fixed ones. */
    predicate Valid()
      reads this
    {
      && 0 <= budget <= InitialBudget
      && airlines == AirlinePrices
      && hotels == HotelPrices
    }

    /** The seven form fields, in the order reset_all clears them. */
    function Form(): seq<string>
      reads this
    {
      [destination, departure, returnDate, airline, seat, hotelChoice, selectedPayment]
    }

    predicate FormEmpty()
      reads this
    {
      Form() == ["", "", "", "", "", "", ""]
    }

    /** __init__: budget 2000, an empty Trip("", 2000), an empty form, the first screen (build_trip). */
    constructor ()
      ensures Valid() && FormEmpty()
      ensures budget == InitialBudget && trip == NewTrip("", InitialBudget)
      ensures screen == DestinationScreen
    {
      budget := InitialBudget;
      trip := NewTrip("", InitialBudget);
      destination, departure, returnDate := "", "", "";
      airline, seat, hotelChoice, selectedPayment := "", "", "", "";
      airlines, hotels := AirlinePrices, HotelPrices;
      screen := DestinationScreen;
    }

    /**
     * update_total_price: the flight price of the chosen airline plus the
     * price of the chosen hotel, each 0 when not in its catalog.
     */
    function QuotedTotal(): (total: int)
      reads this
      ensures Valid() ==> 0 <= total <= 1800
      ensures Valid() && airline == "" && hotelChoice == "" ==> total == 0
    {
      CatalogPriceBounds(airline, hotelChoice);
      PriceOf(airlines, airline) + PriceOf(hotels, hotelChoice)
    }

    /**
     * validate_destination: destination, then both dates present, then both
     * in the YYYY-MM-DD format, then the return not before the departure;
     * only when all hold does the transport screen follow.
     */
    method ValidateDestination() returns (r: Outcome<Complaint>)
      requires screen == DestinationScreen
      modifies this`screen
      ensures r.Pass? <==> destination != "" && departure != "" && returnDate != ""
                           && DatesInOrder(departure, returnDate)
      ensures destination == "" ==> r == Fail(NoDestination)
      ensures destination != "" && (departure == "" || returnDate == "") ==> r == Fail(NoDates)
      ensures (destination != "" && departure != "" && returnDate != ""
               && (!IsValidDateFormat(departure) || !IsValidDateFormat(returnDate))) ==> r == Fail(BadDateFormat)
      ensures (destination != "" && departure != "" && returnDate != ""
               && IsValidDateFormat(departure) && IsValidDateFormat(returnDate)
               && Before(ParseDate(returnDate).value, ParseDate(departure).value)) ==> r == Fail(ReturnBeforeDeparture)
      ensures screen == if r.Pass? then TransportScreen else DestinationScreen
    {
      if destination == "" { return Fail(NoDestination); }
      if departure == "" || returnDate == "" { return Fail(NoDates); }
      if !IsValidDateFormat(departure) || !IsValidDateFormat(returnDate) { return Fail(BadDateFormat); }
      var departureDate := ParseDate(departure).value;
      var returnDay := ParseDate(returnDate).value;
      if Before(returnDay, departureDate) { return Fail(ReturnBeforeDeparture); }
      screen := TransportScreen;
      r := Pass;
    }

    /** validate_transport: an airline and then a seat must be chosen before the hotel screen. */
    method ValidateTransport() returns (r: Outcome<Complaint>)
      requires screen == TransportScreen
      modifies this`screen
      ensures r.Pass? <==> airline != "" && seat != ""
      ensures airline == "" ==> r == Fail(NoAirline)
      ensures airline != "" && seat == "" ==> r == Fail(NoSeat)
      ensures screen == if r.Pass? then HotelScreen else TransportScreen
    {
      if airline == "" { return Fail(NoAirline); }
      if seat == "" { return Fail(NoSeat); }
      screen := HotelScreen;
      r := Pass;
    }

    /** "Wróć" on the transport screen and "Anuluj" on the hotel screen: back to the first screen, form kept. */
    method BackToDestination()
      requires screen != DestinationScreen
      modifies this`screen
      ensures screen == DestinationScreen
    {
      screen := DestinationScreen;
    }

    /** "Wróć" on the hotel screen: back to the transport screen, form kept. */
    method BackToTransport()
      requires screen == HotelScreen
      modifies this`screen
      ensures screen == TransportScreen
    {
      screen := TransportScreen;
    }

    /**
     * The first half of confirm_trip: the trip takes the form's destination
     * and dates, a flight and a new hotel priced from the catalogs, and the
     * current budget; its cost is then the quoted total.
     */
    method TakeForm()
      requires Valid()
      modifies this`trip
      ensures && trip.destination == destination
              && trip.departure == Some(departure) && trip.returnDate == Some(returnDate)
              && trip.budget == budget
              && trip.transport == Some(Flight(PriceOf(AirlinePrices, airline), airline, seat))
              && trip.hotel.Some? && fresh(trip.hotel.value)
              && trip.hotel.value.name == hotelChoice
              && trip.hotel.value.price == PriceOf(HotelPrices, hotelChoice)
      ensures TotalCost(trip) == QuotedTotal()
    {
      var flightPrice := PriceOf(airlines, airline);
      var hotel := new Hotel(hotelChoice, PriceOf(hotels, hotelChoice));
      trip := Trip(destination, budget, Some(Flight(flightPrice, airline, seat)), Some(hotel),
                   Some(departure), Some(returnDate));
    }

    /**
     * confirm_trip: after the form goes into the trip, a trip within the
     * budget is paid for: the budget drops by its cost, the form is cleared
     * and the first screen follows. An over-budget trip leaves the budget,
     * the form and the screen as they were, though the trip keeps the form.
     */
    method ConfirmTrip() returns (r: Result<string, Complaint>)
      requires Valid() && screen == HotelScreen
      modifies this
      ensures Valid()
      ensures && trip.destination == old(destination)
              && trip.departure == Some(old(departure)) && trip.returnDate == Some(old(returnDate))
              && trip.budget == old(budget)
              && trip.transport == Some(Flight(PriceOf(AirlinePrices, old(airline)), old(airline), old(seat)))
              && trip.hotel.Some? && fresh(trip.hotel.value)
              && trip.hotel.value.name == old(hotelChoice)
              && trip.hotel.value.price == PriceOf(HotelPrices, old(hotelChoice))
      ensures TotalCost(trip) == old(QuotedTotal())
      ensures r.Err? <==> old(QuotedTotal()) > old(budget)
      ensures r.Err? ==> && r.error == OverBudget
                         && budget == old(budget) && Form() == old(Form()) && screen == HotelScreen
      ensures r.Ok? ==> && budget == old(budget) - TotalCost(trip)
                        && r.value == PaymentMessage(SelectPayment(old(selectedPayment)), TotalCost(trip))
                        && FormEmpty() && screen == DestinationScreen
    {
      TakeForm();
      var confirmed := Confirm(trip);
      if confirmed.Fail? {
        return Err(OverBudget);
      }
      var cost := TotalCost(trip);
      var message := PaymentMessage(SelectPayment(selectedPayment), cost);
      budget := budget - cost;
      ResetAll();
      screen := DestinationScreen;
      r := Ok(message);
    }

    /** reset_all: empties the seven form fields. */
    method ResetAll()
      modifies this`destination, this`departure, this`returnDate, this`airline, this`seat,
               this`hotelChoice, this`selectedPayment
      ensures FormEmpty()
    {
      destination, departure, returnDate := "", "", "";
      airline, seat, hotelChoice, selectedPayment := "", "", "", "";
    }
  }

  /** Fills in the form and passes both checks: the hotel screen follows, with the form as filled in. */
  method FillIn(app: TravelPlannerApp, destination: string, departure: string, returnDate: string,
                airline: string, seat: string, hotel: string, payment: string)
    requires app.Valid() && app.screen == DestinationScreen
    requires destination != "" && airline != "" && seat != ""
    requires DatesInOrder(departure, returnDate)
    modifies app
    ensures app.Valid() && app.screen == HotelScreen && app.budget == old(app.budget)
    ensures app.Form() == [destination, departure, returnDate, airline, seat, hotel, payment]
  {
    app.destination, app.departure, app.returnDate := destination, departure, returnDate;
    app.airline, app.seat, app.hotelChoice, app.selectedPayment := airline, seat, hotel, payment;
    var step := app.ValidateDestination();
    step := app.ValidateTransport();
  }

  /**
   * One pass through the three screens with a filled-in form: both checks
   * pass, and confirm_trip pays for the trip exactly when the quoted total
   * fits in the budget.
   */
  method Book(app: TravelPlannerApp, destination: string, departure: string, returnDate: string,
              airline: string, seat: string, hotel: string, payment: string)
    returns (r: Result<string, Complaint>)
    requires app.Valid() && app.screen == DestinationScreen
    requires destination != "" && airline != "" && seat != ""
    requires DatesInOrder(departure, returnDate)
    modifies app
    ensures app.Valid()
    ensures var cost := PriceOf(AirlinePrices, airline) + PriceOf(HotelPrices, hotel);
            && (r.Err? <==> cost > old(app.budget))
            && (r.Err? ==> r.error == OverBudget && app.budget == old(app.budget) && app.screen == HotelScreen)
            && (r.Ok? ==> && r.value == PaymentMessage(SelectPayment(payment), cost)
                          && app.budget == old(app.budget) - cost
                          && app.screen == DestinationScreen)
  {
    FillIn(app, destination, departure, returnDate, airline, seat, hotel, payment);
    assert app.airline == airline && app.hotelChoice == hotel && app.selectedPayment == payment;
    r := app.ConfirmTrip();
  }

  /**
   * Two bookings in a row on a fresh app: LOT with Hotel A costs 1400 and
   * leaves 600; LOT with Hotel C would cost 1800 and is then refused,
   * leaving the 600.
   */
  method TwoBookings(departure: string, returnDate: string)
    returns (first: Result<string, Complaint>, second: Result<string, Complaint>, left: int)
    requires DatesInOrder(departure, returnDate)
    ensures first == Ok(PaymentMessage(CreditCard, 1400))
    ensures second == Err(OverBudget)
    ensures left == 600
  {
    var app := new TravelPlannerApp();
    first := Book(app, "Rzym", departure, returnDate, "LOT", "Okno", "Hotel A", "Karta");
    second := Book(app, "Paryż", departure, returnDate, "LOT", "Okno", "Hotel C", "Gotówka");
    left := app.budget;
  }
}
