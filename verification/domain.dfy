/**
 * The booking domain both planner variants share: flights, hotels, trips,
 * the cost of a trip and the over-budget rule, and the choice of payment.
 */
module Domain {
  import opened Wrappers

  /** The reasons the planner shows when it refuses a step. */
  datatype Complaint =
    | NoDestination          // "Wybierz miejsce docelowe."
    | NoDates                // "Wprowadź daty wylotu i powrotu."
    | NoSeat                 // "Wybierz miejsce w samolocie."
    | NoHotel                // "Wybierz hotel."
    | NoPayment              // "Wybierz metodę płatności."
    | NoAirline              // "Wybierz linię lotniczą."
    | BadDateFormat          // "Wprowadź daty w formacie YYYY-MM-DD."
    | ReturnBeforeDeparture  // "Data powrotu nie może być wcześniejsza niż data wylotu."
    | OverBudget             // OverBudgetException("Budżet przekroczony!")

  /** A Flight, the only kind of Transport the planner builds. */
  datatype Flight = Flight(price: int, airline: string, seat: string)

  /** The ValueError that Hotel.set_price raises. */
  datatype PriceError = NegativePrice

  /** A hotel whose price changes only through SetPrice. */
  class Hotel {
    var name: string
    var price: int

    /** Hotel(name, price): the constructor stores the price unchecked. */
    constructor (name: string, price: int)
      ensures this.name == name && this.price == price
    {
      this.name := name;
      this.price := price;
    }

    function GetPrice(): int
      reads this
    {
      price
    }

    /** Refuses a negative price and keeps the old one; otherwise replaces it. */
    method SetPrice(newPrice: int) returns (r: Outcome<PriceError>)
      modifies this`price
      ensures r.Fail? <==> newPrice < 0
      ensures r.Fail? ==> r.error == NegativePrice && price == old(price)
      ensures r.Pass? ==> price == newPrice
      ensures old(price) >= 0 ==> price >= 0
    {
      if newPrice < 0 {
        return Fail(NegativePrice);
      }
      price := newPrice;
      r := Pass;
    }
  }

  /**
   * A trip: where to, the budget it must fit in, the optional flight and
   * hotel, and the two dates as the strings the user typed (None until set).
   */
  datatype Trip = Trip(
    destination: string,
    budget: int,
    transport: Option<Flight>,
    hotel: Option<Hotel>,
    departure: Option<string>,
    returnDate: Option<string>)

  /** Trip(destination, budget): nothing chosen yet. */
  function NewTrip(destination: string, budget: int): (t: Trip)
    ensures t.destination == destination && t.budget == budget
    ensures t.transport.None? && t.hotel.None? && t.departure.None? && t.returnDate.None?
  {
    Trip(destination, budget, None, None, None, None)
  }

  /** The objects a trip's cost depends on. */
  function HotelFrame(t: Trip): set<object> {
    if t.hotel.Some? then {t.hotel.value} else {}
  }

  /** Trip.total_cost: the price of whichever of flight and hotel are present. */
  function TotalCost(t: Trip): (total: int)
    reads HotelFrame(t)
    ensures t.transport.None? && t.hotel.None? ==> total == 0
    ensures t.transport.Some? && t.hotel.None? ==> total == t.transport.value.price
    ensures t.transport.None? && t.hotel.Some? ==> total == t.hotel.value.price
    ensures t.transport.Some? && t.hotel.Some? ==> total == t.transport.value.price + t.hotel.value.price
  {
    var flightPart := if t.transport.Some? then t.transport.value.price else 0;
    flightPart + (if t.hotel.Some? then t.hotel.value.GetPrice() else 0)
  }

  /** Non-negative prices make a non-negative cost that covers each part. */
  lemma TotalCostBounds(t: Trip)
    requires t.transport.Some? ==> t.transport.value.price >= 0
    requires t.hotel.Some? ==> t.hotel.value.price >= 0
    ensures TotalCost(t) >= 0
    ensures t.transport.Some? ==> TotalCost(t) >= t.transport.value.price
    ensures t.hotel.Some? ==> TotalCost(t) >= t.hotel.value.price
  {
  }

  /** Trip.confirm: raises OverBudgetException exactly when the cost exceeds the budget. */
  function Confirm(t: Trip): (r: Outcome<Complaint>)
    reads HotelFrame(t)
    ensures r.Fail? <==> TotalCost(t) > t.budget
    ensures r.Fail? ==> r.error == OverBudget
  {
    if TotalCost(t) > t.budget then Fail(OverBudget) else Pass
  }

  /** A cost equal to the budget is accepted; one unit more is refused. */
  lemma ConfirmAtTheLimit(t: Trip)
    requires TotalCost(t) == t.budget
    ensures Confirm(t).Pass?
    ensures Confirm(t.(budget := t.budget - 1)).Fail?
  {
  }

  /** The payment strategies. */
  datatype Payment = CreditCard | Cash

  /** CreditCardPayment() when the chosen method is "Karta", CashPayment() for anything else. */
  function SelectPayment(choice: string): (p: Payment)
    ensures p == CreditCard <==> choice == "Karta"
  {
    if choice == "Karta" then CreditCard else Cash
  }
}
