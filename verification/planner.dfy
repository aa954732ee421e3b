/**
 * The single-form planner (projekt.py): one form collects destination,
 * dates, seat, hotel and payment; "Zaplanuj podróż" builds the trip in four
 * steps (destination and dates, a LOT flight for 800, the chosen hotel for
 * 600, confirmation against the trip's budget of 1500); confirmed trips form
 * an ordered history kept in the text file loty.txt, one line per trip,
 * from which a trip can be cancelled.
 */
module Planner {
  import opened Wrappers
  import opened Text
  import opened Dates
  import opened Domain

  /** The budget every trip of this planner is built, and reloaded, with. */
  const TripBudget := 1500
  /** The flight choose_transport always books. */
  const FlightPrice := 800
  const FlightAirline := "LOT"
  /** The price choose_hotel gives every hotel. */
  const HotelPrice := 600
  /** The destinations the read-only destination box offers. */
  const Destinations: seq<string> := ["Paryż", "Rzym", "Londyn"]

  // ------------------------------------------------------------ line format

  /** f"{value}" for a date field: the string itself, or "None" while unset. */
  function ShowDate(date: Option<string>): string {
    match date
    case None => "None"
    case Some(s) => s
  }

  /** Trip.to_string: destination, departure and return date separated by '|'. */
  function ToLine(t: Trip): string {
    t.destination + "|" + ShowDate(t.departure) + "|" + ShowDate(t.returnDate)
  }

  /** The IndexError from_string raises for a line with fewer than three fields. */
  datatype LoadError = MissingField

  /**
   * Trip.from_string: strip the line, split it at '|', and build a trip of
   * budget 1500 from the first three fields; further fields are ignored.
   */
  function FromLine(line: string): Result<Trip, LoadError>
  {
    var parts := Split(Strip(line), '|');
    if |parts| < 3 then Err(MissingField)
    else Ok(Trip(parts[0], TripBudget, None, None, Some(parts[1]), Some(parts[2])))
  }

  /** A line without a '|' has a single field, and from_string raises IndexError on it. */
  lemma FromLineRefusesSingleField(line: string)
    requires '|' !in line
    ensures FromLine(line) == Err(MissingField)
  {
    StripKeepsOut(line, '|');
    SplitWhole(Strip(line), '|');
  }

  /** What a trip becomes after a trip through the line format: pricing is not stored. */
  function Reloaded(t: Trip): Trip {
    Trip(t.destination, TripBudget, None, None, t.departure, t.returnDate)
  }

  predicate Unbroken(s: string) {
    '|' !in s && '\n' !in s && '\r' !in s
  }

  /**
   * A trip whose line reads back as it was written: both dates set, no field
   * holding the separator or a line break, and no whitespace at the ends of
   * the line for str.strip to remove.
   */
  predicate Storable(t: Trip) {
    && t.departure.Some? && t.returnDate.Some?
    && Unbroken(t.destination) && Unbroken(t.departure.value) && Unbroken(t.returnDate.value)
    && (t.destination != [] ==> !IsSpace(t.destination[0]))
    && (t.returnDate.value != [] ==> !IsSpace(t.returnDate.value[|t.returnDate.value| - 1]))
  }

  /** from_string(to_string(t)), with or without the line's '\n', gives back destination and dates. */
  lemma LineRoundTrip(t: Trip)
    requires Storable(t)
    ensures FromLine(ToLine(t)) == Ok(Reloaded(t))
    ensures FromLine(ToLine(t) + "\n") == Ok(Reloaded(t))
  {
    var d, a, b := t.destination, t.departure.value, t.returnDate.value;
    var line := ToLine(t);
    assert line == d + ['|'] + (a + ['|'] + b);
    assert line[0] == if d != [] then d[0] else '|';
    assert line[|line| - 1] == if b != [] then b[|b| - 1] else '|';
    StripKeeps(line);
    StripLine(line);
    SplitPrefix(d, a + ['|'] + b, '|');
    SplitPrefix(a, b, '|');
    SplitWhole(b, '|');
  }

  // ------------------------------------------------------------------- file

  /** The text save_trips_to_file writes: one to_string() line per trip, in order. */
  function SaveText(trips: seq<Trip>): string {
    if trips == [] then "" else ToLine(trips[0]) + "\n" + SaveText(trips[1..])
  }

  lemma {:induction false} SaveTextAppend(trips: seq<Trip>, t: Trip)
    ensures SaveText(trips + [t]) == SaveText(trips) + ToLine(t) + "\n"
  {
    if trips != [] {
      assert (trips + [t])[1..] == trips[1..] + [t];
      SaveTextAppend(trips[1..], t);
    } else {
      assert [t][1..] == [];
    }
  }

  /** The lines `for line in f` yields for a file holding text. */
  function FileLines(text: string): seq<string> {
    Lines(UniversalNewlines(text))
  }

  /** The trips parsed before the first bad line, and whether there was one. */
  datatype Loaded = Loaded(trips: seq<Trip>, outcome: Outcome<LoadError>)

  /**
   * The loop of load_trips_from_file over what from_string made of each line:
   * the trips in order up to the first failure, which stops the loading with
   * the trips before it kept.
   */
  function LoadParsed(parsed: seq<Result<Trip, LoadError>>): (r: Loaded)
    ensures |r.trips| <= |parsed|
    ensures r.outcome.Pass? <==> |r.trips| == |parsed|
  {
    if parsed == [] then Loaded([], Pass)
    else
      match parsed[0]
      case Err(e) => Loaded([], Fail(e))
      case Ok(t) =>
        var rest := LoadParsed(parsed[1..]);
        Loaded([t] + rest.trips, rest.outcome)
  }

  /**
   * Each loaded trip is the parse result at its position, and a failed load
   * failed at the position right after the last loaded trip.
   */
  lemma {:induction false} LoadParsedKeepsEach(parsed: seq<Result<Trip, LoadError>>)
    ensures var r := LoadParsed(parsed);
            && (forall i :: 0 <= i < |r.trips| ==> parsed[i] == Ok(r.trips[i]))
            && (r.outcome.Fail? ==> parsed[|r.trips|] == Err(r.outcome.error))
  {
    if parsed != [] && parsed[0].Ok? {
      LoadParsedKeepsEach(parsed[1..]);
      var r, rest := LoadParsed(parsed), LoadParsed(parsed[1..]);
      assert r.trips == [parsed[0].value] + rest.trips;
      forall i | 1 <= i < |r.trips|
        ensures parsed[i] == Ok(r.trips[i])
      {
        assert parsed[i] == parsed[1..][i - 1];
      }
    }
  }

  /** The loading loop stops at a result that is a failure, keeping the trips before it. */
  lemma LoadParsedStops(parsed: seq<Result<Trip, LoadError>>, i: nat, added: seq<Trip>)
    requires i < |parsed| && parsed[i].Err?
    requires LoadParsed(parsed).trips == added + LoadParsed(parsed[i..]).trips
    requires LoadParsed(parsed).outcome == LoadParsed(parsed[i..]).outcome
    ensures LoadParsed(parsed).trips == added
    ensures LoadParsed(parsed).outcome == Fail(parsed[i].error)
  {
    assert parsed[i..][0] == parsed[i];
    assert added + [] == added;
  }

  /** The loading loop adds the trip of a successful result and goes on with the next one. */
  lemma LoadParsedMovesOn(parsed: seq<Result<Trip, LoadError>>, i: nat, added: seq<Trip>)
    requires i < |parsed| && parsed[i].Ok?
    requires LoadParsed(parsed).trips == added + LoadParsed(parsed[i..]).trips
    requires LoadParsed(parsed).outcome == LoadParsed(parsed[i..]).outcome
    ensures LoadParsed(parsed).trips == (added + [parsed[i].value]) + LoadParsed(parsed[i + 1..]).trips
    ensures LoadParsed(parsed).outcome == LoadParsed(parsed[i + 1..]).outcome
  {
    assert parsed[i..][0] == parsed[i];
    assert parsed[i..][1..] == parsed[i + 1..];
    var t, later := parsed[i].value, LoadParsed(parsed[i + 1..]).trips;
    assert added + ([t] + later) == (added + [t]) + later;
  }

  /** Trip.from_string applied to each line, in order. */
  function ParseEach(lines: seq<string>): (parsed: seq<Result<Trip, LoadError>>)
    ensures |parsed| == |lines|
  {
    seq(|lines|, i requires 0 <= i < |lines| => FromLine(lines[i]))
  }

  /** The first line is parsed first, then the rest in order. */
  lemma ParseEachCons(lines: seq<string>)
    requires lines != []
    ensures ParseEach(lines)[0] == FromLine(lines[0])
    ensures ParseEach(lines)[1..] == ParseEach(lines[1..])
  {
  }

  /** load_trips_from_file on the lines of a file: parse each line, keep the trips up to the first failure. */
  function ParseTrips(lines: seq<string>): Loaded {
    LoadParsed(ParseEach(lines))
  }

  /**
   * Each loaded trip is what from_string made of the line at its position, and
   * a failed load failed on the line right after the last loaded trip.
   */
  lemma ParseTripsReadsEachLine(lines: seq<string>)
    ensures var r := ParseTrips(lines);
            && |r.trips| <= |lines|
            && (r.outcome.Pass? <==> |r.trips| == |lines|)
            && (forall i :: 0 <= i < |r.trips| ==> FromLine(lines[i]) == Ok(r.trips[i]))
            && (r.outcome.Fail? ==> FromLine(lines[|r.trips|]) == Err(r.outcome.error))
  {
    LoadParsedKeepsEach(ParseEach(lines));
  }

  function ReloadAll(trips: seq<Trip>): (r: seq<Trip>)
    ensures |r| == |trips| && forall i :: 0 <= i < |trips| ==> r[i] == Reloaded(trips[i])
  {
    seq(|trips|, i requires 0 <= i < |trips| => Reloaded(trips[i]))
  }

  /** The saved text of storable trips holds no carriage return. */
  lemma {:induction false} SaveTextHasNoReturn(trips: seq<Trip>)
    requires forall i :: 0 <= i < |trips| ==> Storable(trips[i])
    ensures '\r' !in SaveText(trips)
  {
    if trips != [] {
      SaveTextHasNoReturn(trips[1..]);
      var t := trips[0];
      assert Unbroken(ShowDate(t.departure)) && Unbroken(ShowDate(t.returnDate));
    }
  }

  /** The lines of the saved text parse back to the saved trips, without a bad line. */
  lemma {:induction false} SavedLinesParse(trips: seq<Trip>)
    requires forall i :: 0 <= i < |trips| ==> Storable(trips[i])
    ensures ParseTrips(Lines(SaveText(trips))).trips == ReloadAll(trips)
    ensures ParseTrips(Lines(SaveText(trips))).outcome == Pass
  {
    if trips != [] {
      var t := trips[0];
      SavedLinesParse(trips[1..]);
      var line, rest := ToLine(t), SaveText(trips[1..]);
      assert Unbroken(ShowDate(t.departure)) && Unbroken(ShowDate(t.returnDate));
      LinesCons(line, rest);
      LineRoundTrip(t);
      var lines := Lines(SaveText(trips));
      assert lines[0] == line + "\n" && lines[1..] == Lines(rest);
      ParseEachCons(lines);
      assert ReloadAll(trips) == [Reloaded(t)] + ReloadAll(trips[1..]);
    }
  }

  /**
   * Saving a history and loading the file back gives one trip per saved trip,
   * in the same order, with the same destination and dates.
   */
  lemma SaveLoadRoundTrip(trips: seq<Trip>)
    requires forall i :: 0 <= i < |trips| ==> Storable(trips[i])
    ensures ParseTrips(FileLines(SaveText(trips))) == Loaded(ReloadAll(trips), Pass)
  {
    SaveTextHasNoReturn(trips);
    SavedLinesParse(trips);
    UniversalNewlinesKeeps(SaveText(trips));
  }

  /**
   * The same round trip on a platform that writes each '\n' as "\r\n":
   * the text-mode read turns the separators back into '\n'.
   */
  lemma SaveLoadRoundTripCrLf(trips: seq<Trip>)
    requires forall i :: 0 <= i < |trips| ==> Storable(trips[i])
    ensures ParseTrips(FileLines(CrLf(SaveText(trips)))) == Loaded(ReloadAll(trips), Pass)
  {
    SaveTextHasNoReturn(trips);
    SavedLinesParse(trips);
    UniversalNewlinesUndoesCrLf(SaveText(trips));
  }

  /**
   * A trip that passed choose_destination can be stored as long as its
   * destination can: accepted dates hold only digits, '-' and ' ' and start
   * and end with a digit.
   */
  lemma ValidatedTripStorable(t: Trip)
    requires t.departure.Some? && t.returnDate.Some?
    requires DatesInOrder(t.departure.value, t.returnDate.value)
    requires Unbroken(t.destination) && (t.destination != [] ==> !IsSpace(t.destination[0]))
    ensures Storable(t)
  {
    AcceptedCharacters(t.departure.value);
    AcceptedCharacters(t.returnDate.value);
  }

  /** Every trip booked through the form, whose destination comes from the offered list, survives a save and a reload. */
  lemma OfferedTripStorable(t: Trip)
    requires t.destination in Destinations
    requires t.departure.Some? && t.returnDate.Some?
    requires DatesInOrder(t.departure.value, t.returnDate.value)
    ensures Storable(t)
  {
    ValidatedTripStorable(t);
  }

  // -------------------------------------------------------------------- app

  /** Why cancelling did not remove a trip. */
  datatype CancelError =
    | NothingToCancel   // "Brak zaplanowanych lotów do odwołania."
    | NoSelection       // "Nie wybrano lotu."
    | IndexOutOfRange   // IndexError from list.pop

  class TravelPlannerApp {
    /** trips_history: the confirmed trips in booking order. */
    var trips: seq<Trip>
    /** The trip being built; None until destination and dates are first accepted. */
    var trip: Option<Trip>
    var destination: string
    var departure: string
    var returnDate: string
    var seat: string
    var hotelChoice: string
    var selectedPayment: string
    /** The content of loty.txt; None while the file does not exist. */
    var file: Option<string>

    /** The six form fields, in the order clear_form resets them. */
    function Form(): seq<string>
      reads this
    {
      [destination, departure, returnDate, seat, hotelChoice, selectedPayment]
    }

    predicate FormEmpty()
      reads this
    {
      Form() == ["", "", "", "", "", ""]
    }

    /** Every field choose_destination checks for emptiness is filled in. */
    predicate FormFilled()
      reads this
    {
      destination != "" && departure != "" && returnDate != "" && seat != "" && hotelChoice != "" && selectedPayment != ""
    }

    /**
     * __init__: the history is loaded from the file and then replaced by an
     * empty list, so the app always starts with no trips.
     */
    constructor (stored: Option<string>)
      ensures trips == [] && trip.None? && file == stored && FormEmpty()
    {
      trips, trip, file := [], None, stored;
      destination, departure, returnDate := "", "", "";
      seat, hotelChoice, selectedPayment := "", "", "";
      new;
      var _ := LoadTripsFromFile();
      trips := [];
    }

    /**
     * choose_destination: the fields are checked in form order, then both
     * dates must parse, then the return date must not be earlier; only then
     * is a new trip of budget 1500 built from them. An out-of-order pair
     * raises inside the try block, so the format message follows the date
     * message.
     */
    method ChooseDestination() returns (r: Outcome<seq<Complaint>>)
      modifies this`trip
      ensures r.Pass? <==> FormFilled() && DatesInOrder(departure, returnDate)
      ensures destination == "" ==> r == Fail([NoDestination])
      ensures destination != "" && (departure == "" || returnDate == "") ==> r == Fail([NoDates])
      ensures destination != "" && departure != "" && returnDate != "" && seat == "" ==> r == Fail([NoSeat])
      ensures destination != "" && departure != "" && returnDate != "" && seat != "" && hotelChoice == ""
              ==> r == Fail([NoHotel])
      ensures (destination != "" && departure != "" && returnDate != "" && seat != "" && hotelChoice != ""
               && selectedPayment == "") ==> r == Fail([NoPayment])
      ensures FormFilled() && (ParseDate(departure).None? || ParseDate(returnDate).None?) ==> r == Fail([BadDateFormat])
      ensures FormFilled() && ParseDate(departure).Some? && ParseDate(returnDate).Some?
              && Before(ParseDate(returnDate).value, ParseDate(departure).value)
              ==> r == Fail([ReturnBeforeDeparture, BadDateFormat])
      ensures trip == if r.Pass? then Some(Trip(destination, TripBudget, None, None, Some(departure), Some(returnDate)))
                      else old(trip)
    {
      if destination == "" { return Fail([NoDestination]); }
      if departure == "" || returnDate == "" { return Fail([NoDates]); }
      if seat == "" { return Fail([NoSeat]); }
      if hotelChoice == "" { return Fail([NoHotel]); }
      if selectedPayment == "" { return Fail([NoPayment]); }
      var departureDate := ParseDate(departure);
      var returnDay := ParseDate(returnDate);
      if departureDate.None? || returnDay.None? { return Fail([BadDateFormat]); }
      if Before(returnDay.value, departureDate.value) {
        return Fail([ReturnBeforeDeparture, BadDateFormat]);
      }
      trip := Some(NewTrip(destination, TripBudget).(departure := Some(departure), returnDate := Some(returnDate)));
      r := Pass;
    }

    /** choose_transport: a LOT flight for 800 in the chosen seat. */
    method ChooseTransport()
      requires trip.Some?
      modifies this`trip
      ensures trip == Some(old(trip).value.(transport := Some(Flight(FlightPrice, FlightAirline, seat))))
    {
      trip := Some(trip.value.(transport := Some(Flight(FlightPrice, FlightAirline, seat))));
    }

    /** choose_hotel: a new hotel of the chosen name for 600, attached to the trip. */
    method ChooseHotel()
      requires trip.Some?
      modifies this`trip
      ensures trip.Some? && trip.value.hotel.Some? && fresh(trip.value.hotel.value)
      ensures trip.value == old(trip).value.(hotel := trip.value.hotel)
      ensures trip.value.hotel.value.name == hotelChoice && trip.value.hotel.value.price == HotelPrice
    {
      var hotel := new Hotel(hotelChoice, HotelPrice);
      trip := Some(trip.value.(hotel := Some(hotel)));
    }

    /**
     * confirm_trip: a trip within its budget is appended to the history, the
     * file is rewritten and the form is cleared; an over-budget trip changes
     * nothing.
     */
    method ConfirmTrip() returns (r: Outcome<Complaint>)
      requires trip.Some?
      modifies this
      ensures trip == old(trip)
      ensures r.Fail? <==> TotalCost(trip.value) > trip.value.budget
      ensures r.Fail? ==> r.error == OverBudget && unchanged(this)
      ensures r.Pass? ==> && trips == old(trips) + [trip.value]
                          && file == Some(SaveText(trips))
                          && FormEmpty()
    {
      r := Confirm(trip.value);
      if r.Fail? {
        return;
      }
      trips := trips + [trip.value];
      SaveTripsToFile();
      ClearForm();
    }

    /** clear_form: empties the six form fields. */
    method ClearForm()
      modifies this`destination, this`departure, this`returnDate, this`seat, this`hotelChoice, this`selectedPayment
      ensures FormEmpty()
    {
      destination, departure, returnDate := "", "", "";
      seat, hotelChoice, selectedPayment := "", "", "";
    }

    /**
     * build_trip: the four steps in order. The flight and hotel always cost
     * 1400, within the budget of 1500, so every trip that passes
     * choose_destination is confirmed and recorded.
     */
    method BuildTrip() returns (r: Outcome<seq<Complaint>>)
      modifies this
      ensures r.Pass? <==> old(FormFilled() && DatesInOrder(departure, returnDate))
      ensures r.Fail? ==> unchanged(this)
      ensures r.Pass? ==> && trip.Some?
                          && trip.value.destination == old(destination)
                          && trip.value.departure == Some(old(departure))
                          && trip.value.returnDate == Some(old(returnDate))
                          && trip.value.budget == TripBudget
                          && trip.value.transport == Some(Flight(FlightPrice, FlightAirline, old(seat)))
                          && trip.value.hotel.Some?
                          && trip.value.hotel.value.name == old(hotelChoice)
                          && trip.value.hotel.value.price == HotelPrice
                          && TotalCost(trip.value) == FlightPrice + HotelPrice
                          && trips == old(trips) + [trip.value]
                          && file == Some(SaveText(trips))
                          && FormEmpty()
    {
      r := ChooseDestination();
      if r.Fail? {
        return;
      }
      ChooseTransport();
      ChooseHotel();
      var confirmed := ConfirmTrip();
      r := if confirmed.Pass? then Pass else Fail([OverBudget]);
    }

    /** save_trips_to_file: rewrites loty.txt with one line per trip of the history. */
    method SaveTripsToFile()
      modifies this`file
      ensures file == Some(SaveText(trips))
    {
      var text := "";
      var i := 0;
      while i < |trips|
        invariant 0 <= i <= |trips|
        invariant text == SaveText(trips[..i])
      {
        SaveTextAppend(trips[..i], trips[i]);
        assert trips[..i + 1] == trips[..i] + [trips[i]];
        text := text + ToLine(trips[i]) + "\n";
        i := i + 1;
      }
      assert trips[..i] == trips;
      file := Some(text);
    }

    /**
     * load_trips_from_file: appends one parsed trip per line, in file order;
     * a missing file adds nothing and is no error; a line with fewer than
     * three fields stops the loading with the trips before it appended.
     */
    method LoadTripsFromFile() returns (r: Outcome<LoadError>)
      modifies this`trips
      ensures file.None? ==> r.Pass? && trips == old(trips)
      ensures file.Some? ==> && trips == old(trips) + ParseTrips(FileLines(file.value)).trips
                             && r == ParseTrips(FileLines(file.value)).outcome
    {
      r := Pass;
      if file.None? {
        return;
      }
      r := AppendLines(FileLines(file.value));
    }

    /**
     * The `for line in f` loop of load_trips_from_file: each line is parsed
     * and its trip appended to the history at once, so a bad line leaves the
     * trips of the lines before it in place.
     */
    method AppendLines(lines: seq<string>) returns (r: Outcome<LoadError>)
      modifies this`trips
      ensures trips == old(trips) + ParseTrips(lines).trips
      ensures r == ParseTrips(lines).outcome
    {
      r := Pass;
      ghost var parsedLines := ParseEach(lines);
      ghost var added: seq<Trip> := [];
      var i := 0;
      assert parsedLines[i..] == parsedLines;
      while i < |lines|
        invariant 0 <= i <= |lines|
        invariant trips == old(trips) + added
        invariant LoadParsed(parsedLines).trips == added + LoadParsed(parsedLines[i..]).trips
        invariant LoadParsed(parsedLines).outcome == LoadParsed(parsedLines[i..]).outcome
      {
        var parsed := FromLine(lines[i]);
        assert parsed == parsedLines[i];
        if parsed.Err? {
          LoadParsedStops(parsedLines, i, added);
          r := Fail(parsed.error);
          return;
        }
        LoadParsedMovesOn(parsedLines, i, added);
        trips := trips + [parsed.value];
        added := added + [parsed.value];
        i := i + 1;
      }
    }

    /**
     * cancel_trip: with an empty history it only reports that there is
     * nothing to cancel; otherwise the cancel window opens. The window is not
     * modal, so the history may change again before its button is pressed.
     */
    method CancelTrip() returns (r: Outcome<CancelError>)
      ensures r.Fail? <==> trips == []
      ensures r.Fail? ==> r.error == NothingToCancel
    {
      if trips == [] {
        return Fail(NothingToCancel);
      }
      r := Pass;
    }

    /**
     * confirm_cancel, run when the window's button is pressed: without a
     * selection nothing happens; otherwise the selected entry is popped from
     * the history as it is now (an IndexError when the history has shrunk
     * below it), the others keep their order, and the file is rewritten.
     */
    method ConfirmCancel(selection: seq<nat>) returns (r: Result<Trip, CancelError>)
      modifies this`trips, this`file
      ensures selection == [] ==> r == Err(NoSelection)
      ensures selection != [] && selection[0] >= |old(trips)| ==> r == Err(IndexOutOfRange)
      ensures r.Ok? <==> selection != [] && selection[0] < |old(trips)|
      ensures r.Err? ==> trips == old(trips) && file == old(file)
      ensures r.Ok? ==> && r.value == old(trips)[selection[0]]
                        && trips == old(trips)[..selection[0]] + old(trips)[selection[0] + 1..]
                        && file == Some(SaveText(trips))
    {
      if selection == [] {
        return Err(NoSelection);
      }
      var index := selection[0];
      if index >= |trips| {
        return Err(IndexOutOfRange);
      }
      var canceled := trips[index];
      trips := trips[..index] + trips[index + 1..];
      SaveTripsToFile();
      r := Ok(canceled);
    }

    /** delete_last_trip_from_file: removes the most recent trip, if any, and rewrites the file. */
    method DeleteLastTripFromFile()
      modifies this`trips, this`file
      ensures old(trips) == [] ==> trips == [] && file == old(file)
      ensures old(trips) != [] ==> trips == old(trips)[..|old(trips)| - 1] && file == Some(SaveText(trips))
    {
      if trips == [] {
        return;
      }
      trips := trips[..|trips| - 1];
      SaveTripsToFile();
    }
  }

  /** Removing entry i keeps every other entry, in order, one shorter. */
  lemma RemoveAtKeepsOrder(trips: seq<Trip>, i: nat)
    requires i < |trips|
    ensures var rest := trips[..i] + trips[i + 1..];
            && |rest| == |trips| - 1
            && (forall j :: 0 <= j < i ==> rest[j] == trips[j])
            && (forall j :: i <= j < |rest| ==> rest[j] == trips[j + 1])
  {
  }
}
