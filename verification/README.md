# Travel planner: a verified Dafny model

This project models the trip-booking logic of the two tkinter travel
planners in the repository, `projekt.py` and `projetk1.py`.

- **Domain** (`domain.dfy`): the parts both files share.
  - A `Hotel` whose price only changes through `set_price`. `set_price` refuses negative prices.
  - A `Trip` with an optional flight and an optional hotel.
  - `total_cost` and the over-budget gate `confirm`.
  - The choice of payment strategy.
- **Planner** (`planner.dfy`, `projekt.py`): the single-form planner.
  - "Zaplanuj podróż" runs the four builder steps: destination and dates, a LOT flight for 800, the chosen hotel for 600, confirmation against the trip's budget of 1500.
  - Confirmed trips form an ordered history.
  - The history is stored in `loty.txt`, one `destination|departure|return` line per trip, and read back line by line.
  - A trip can be cancelled by its position, and the last trip can be deleted.
- **Wizard** (`wizard.dfy`, `projetk1.py`): the three-screen planner.
  - Each "Dalej" checks its screen's fields before the next screen appears.
  - The catalogs price the flight and the hotel, with `dict.get(name, 0)`.
  - `confirm_trip` pays from a running budget that starts at 2000. It then clears the seven form fields and goes back to the first screen.
- **Dates** (`dates.dfy`): `datetime.strptime(s, "%Y-%m-%d")` as it actually behaves.
  - `%Y` is exactly four digits.
  - `%m` and `%d` also accept one digit, and `%d` also accepts a space followed by a digit.
  - The result must be a real date between year 1 and year 9999, under the Gregorian leap-year rule.
  - Dates compare by year, then month, then day.
  - The strict ISO 8601 extended calendar-date form (section 4.1.2.2 of ISO 8601:2004, `YYYY-MM-DD`) is produced by `FormatDate` and always accepted.
- **Text** (`text.dfy`): the Python string behaviour the line format depends on.
  - `str.strip`, with Python's whitespace set.
  - `str.split('|')`.
  - Iterating over a text file, with universal newlines.
  - `f"{n}"` and `int()` on integers.

Exceptions become values: `Outcome`, `Result` and `Option` in `wrappers.dfy`. Each error box of the booking steps becomes a `Complaint` value, and the cancel errors are `CancelError` values. The success and information boxes are not modelled. The file `loty.txt` is a field holding `Some(text)`, or `None` while the file does not exist.

Some behaviour is kept exactly as written:

- **The loaded history is discarded at startup.** `projekt.py:138` loads the history from the file, and `projekt.py:143` then replaces it with an empty list. So `Planner.TravelPlannerApp.constructor` ends with an empty history, whatever the file holds.
- **An out-of-order date pair gives two messages.** In `projekt.py:279-285` the "return before departure" `ValueError` is raised inside the `try` whose handler shows the format message. The handler then re-raises. The step fails with both messages, in that order: `Fail([ReturnBeforeDeparture, BadDateFormat])`.
- **The "Nieprawidłowa data." branch cannot be reached.** In `projetk1.py:149-151`, `validate_destination` first checks both dates with `is_valid_date_format` (line 140). That check is the same `strptime` call, so the later parse cannot fail. `Wizard.TravelPlannerApp.ValidateDestination` has no such branch.
- **A hotel can be created with a negative price.** `Hotel` hides its price behind `set_price`, which refuses negatives, yet its constructor stores any price unchecked (`projekt.py:50-52`). The model follows the code: `Domain.Hotel.constructor` takes any price, and `Domain.Hotel.SetPrice` keeps a non-negative price non-negative.
- **A refused booking still changes the trip.** In `projetk1.py:227-239`, `confirm_trip` writes the form into the trip, with a new flight, a new hotel and the current budget, before the budget check. On an over-budget trip those writes stay, while the budget, the form and the screen do not change. `Wizard.TravelPlannerApp.ConfirmTrip` states both parts.

## Model

| member | source | states |
|---|---|---|
| Domain.Hotel.constructor | projekt.py:50-52 | The hotel keeps the name and the price it is given, with no check on the price. |
| Domain.Hotel.SetPrice | projekt.py:57-60 | It fails exactly when the new price is negative, and then the old price stays. Otherwise the new price replaces the old one. A non-negative price stays non-negative. |
| Domain.Hotel.GetPrice | projekt.py:54-55 | get_price reads the stored price; TotalCost's body reads the hotel price through it. |
| Domain.NewTrip | projekt.py:65-71 | A new trip has the given destination and budget, and no flight, hotel or dates. |
| Domain.TotalCost | projekt.py:77-83 | The cost is 0 with neither flight nor hotel. Otherwise it is the price of whichever of the two are present, or their sum. |
| Domain.TotalCostBounds | projekt.py:77-83 | With non-negative prices, the cost is non-negative and at least the price of each part present. |
| Domain.Confirm | projekt.py:85-87 | Confirmation fails, with the over-budget complaint, exactly when the cost exceeds the budget. |
| Domain.ConfirmAtTheLimit | projekt.py:85-87 | A cost equal to the budget is accepted. The same trip with a budget one lower is refused. |
| Domain.SelectPayment | projekt.py:301 | "Karta" selects the card strategy. Every other choice, the empty one included, selects cash. |
| Text.LStripRemovesLeadingSpace | projekt.py:94 | The left strip removes a run of whitespace from the front and stops at the first other character. |
| Text.RStripRemovesTrailingSpace | projekt.py:94 | The right strip removes a run of whitespace from the back and stops at the last other character. |
| Text.StripEdges | projekt.py:94 | The stripped string is no longer than the original, and neither starts nor ends with whitespace. |
| Text.Strip | projekt.py:94 | str.strip(): its partner lemmas StripEdges, StripKeepsOut, StripKeeps and StripLine state what it removes and what it keeps. |
| Text.StripKeepsOut | projekt.py:94 | Stripping adds no character: a character absent from the line is absent from the stripped line. |
| Text.StripKeeps | projekt.py:94 | A string with no whitespace at either end is left unchanged by stripping. |
| Text.StripLine | projekt.py:94 | Stripping a file line removes its terminating newline and nothing else. |
| Text.Split | projekt.py:94 | Splitting always gives at least one part. |
| Text.SplitJoin | projekt.py:94 | The parts contain no separator, and joining them with the separator gives the string back. |
| Text.SplitPrefix | projekt.py:94 | A separator-free piece followed by the separator comes out as the first part, and the rest is split on its own. |
| Text.SplitWhole | projekt.py:94 | A string without the separator splits into itself alone. |
| Text.Lines | projekt.py:326 | The lines `for line in f` yields, each with its '\n'; LinesConcat and LinesCons state that they lose and add nothing. |
| Text.LinesConcat | projekt.py:326 | Reading a file line by line loses nothing and adds nothing: the lines are non-empty and concatenate to the file's text. |
| Text.LinesCons | projekt.py:326 | A line ending in its only newline is read back as exactly that line, followed by the lines of the rest. |
| Text.UniversalNewlines | projekt.py:325 | Text read in text mode contains no carriage return. |
| Text.UniversalNewlinesKeeps | projekt.py:325 | Text without carriage returns reads back unchanged. |
| Text.UniversalNewlinesUndoesCrLf | projekt.py:318-326 | Text without carriage returns, written with each '\n' turned into "\r\n", reads back as the original text. |
| Text.NatToDecimal | projetk1.py:14 | The decimal form of a number is a non-empty string of digits with no leading zero. |
| Text.IntToDecimal | projetk1.py:14 | f"{amount}" for an int; IntToDecimalRoundTrip states that int() reads it back. |
| Text.IntToDecimalRoundTrip | projetk1.py:14 | `int()` of an integer's decimal text gives back that integer, negative integers included. |
| Dates.YearField | projekt.py:276-277 | `%Y`: exactly four ASCII digits; ParseDateRefuses shows year 0 refused afterwards. |
| Dates.IsValid | projekt.py:276-277 | A date datetime can hold: year 1 to 9999, month 1 to 12, a day the month has; ParseDate's ensures and ParseFormatDate are stated with it. |
| Dates.Before | projekt.py:279 | `return_date < departure_date` compares year, then month, then day; BeforeIsStrictTotalOrder states it is a strict total order. |
| Dates.DaysInMonth | projetk1.py:144-145 | A month has 28 to 31 days. February has 29 exactly in a leap year. |
| Dates.MonthField | projetk1.py:144 | An accepted month lies between 1 and 12. |
| Dates.DayField | projetk1.py:144 | An accepted day lies between 1 and 31. |
| Dates.ParseDate | projekt.py:276-277 | Every date the parser accepts is a valid calendar date: year 1 to 9999, a real month, a day the month has. |
| Dates.FormatDate | projekt.py:276-277 | The strict spelling has ten characters, with '-' at positions 4 and 7. |
| Dates.ParseFormatDate | projekt.py:276-277 | Every valid date in its `YYYY-MM-DD` spelling is accepted and read back as itself. |
| Dates.ParseDateLax | projekt.py:276-277 | The parser also accepts an unpadded month or day, and a space before a one-digit day. |
| Dates.ParseDateRefuses | projekt.py:276-277 | The parser refuses 29 February in a common year, year 0, trailing text and month 13. |
| Dates.AcceptedCharacters | projekt.py:276-277 | An accepted date holds only digits, '-' and ' ', and starts and ends with a digit. |
| Dates.BeforeIsStrictTotalOrder | projekt.py:279 | Date comparison is irreflexive, transitive and total, so "return not before departure" means departure ≤ return. |
| Planner.ShowDate | projekt.py:90 | An f-string shows an unset date as "None"; LineRoundTrip states the round trip for set dates. |
| Planner.ToLine | projekt.py:89-90 | to_string: destination and dates joined by '\|'; LineRoundTrip states that from_string reads it back. |
| Planner.FromLine | projekt.py:92-98 | from_string: strip, split at '\|', then a trip of budget 1500 from the first three fields, MissingField with fewer; LineRoundTrip and FromLineRefusesSingleField state both outcomes. |
| Planner.FromLineRefusesSingleField | projekt.py:93-98 | A line without a '|' makes from_string fail, as the IndexError on `parts[1]` does. |
| Planner.LineRoundTrip | projekt.py:89-98 | The parser gives back the destination and both dates of a written line, with or without its newline. The reloaded trip has budget 1500 and no flight or hotel. This holds when the trip has both dates set, no field holds '\|' or a line break, and there is no whitespace at the ends of the line. |
| Planner.ValidatedTripStorable | projekt.py:249-289 | A trip whose dates passed choose_destination can be stored and reloaded, given a clean destination. |
| Planner.OfferedTripStorable | projekt.py:226-227 | A trip to one of the offered destinations ("Paryż", "Rzym", "Londyn") with accepted dates can be stored and reloaded. |
| Planner.SaveText | projekt.py:318-321 | The text save_trips_to_file writes; SaveTextAppend and SaveLoadRoundTrip state what it holds. |
| Planner.FileLines | projekt.py:325-326 | The lines a text-mode read yields; SaveLoadRoundTrip states that they give the saved trips back. |
| Planner.SaveTextAppend | projekt.py:318-321 | Saving one more trip appends exactly that trip's line to the saved text. |
| Planner.ParseTrips | projekt.py:323-330 | Loading parses each line and keeps the trips up to the first failure; ParseTripsReadsEachLine states which trips and which outcome. |
| Planner.LoadParsed | projekt.py:326-328 | Loading keeps at most one trip per parsed line, and succeeds exactly when every line gave a trip. |
| Planner.LoadParsedKeepsEach | projekt.py:326-328 | Each kept trip is the parse result at its position. A failed load stopped at the result right after the last kept trip. |
| Planner.ParseEach | projekt.py:326-327 | Every line is parsed, one result per line, in file order. |
| Planner.ParseTripsReadsEachLine | projekt.py:323-330 | Loading the lines of a file yields at most one trip per line, and succeeds exactly when every line gave a trip. Each loaded trip is the parse of the line at its position. A failed load failed on the line right after the last loaded trip. |
| Planner.LoadParsedStops | projekt.py:326-328 | Loading stops at the first line the parser refuses, keeping the trips before it. |
| Planner.LoadParsedMovesOn | projekt.py:326-328 | Loading adds the trip of each accepted line and goes on with the next line. |
| Planner.SaveTextHasNoReturn | projekt.py:318-321 | The saved text of storable trips contains no carriage return. |
| Planner.SavedLinesParse | projekt.py:318-330 | The lines of the saved text parse back into the saved trips, in order and without a bad line. |
| Planner.SaveLoadRoundTrip | projekt.py:318-330 | Saving a history of storable trips and loading the file gives one trip per saved trip, in the same order, with the same destination and dates. |
| Planner.SaveLoadRoundTripCrLf | projekt.py:318-330 | The same round trip holds on a platform that writes each line end as "\r\n": loading gives the saved trips back, in order, with Pass. |
| Planner.TravelPlannerApp.constructor | projekt.py:135-143 | The app starts with an empty history, even when the file holds trips, no trip in progress and an empty form. The file is kept as it was. |
| Planner.TravelPlannerApp.ChooseDestination | projekt.py:249-289 | The step succeeds exactly when all six fields are filled and both dates parse in order. Empty fields are reported in form order, then a bad date, then dates out of order with both messages. Only on success is the trip replaced by a new trip of budget 1500 with the given dates. |
| Planner.TravelPlannerApp.ChooseTransport | projekt.py:291-292 | The trip gets a LOT flight for 800 in the chosen seat, and nothing else changes. |
| Planner.TravelPlannerApp.ChooseHotel | projekt.py:294-296 | The trip gets a new hotel with the chosen name for 600, and nothing else changes. |
| Planner.TravelPlannerApp.ConfirmTrip | projekt.py:298-308 | It fails exactly when the trip is over budget, and then nothing changes. On success the current trip is appended to the end of the history, the file holds the new history, and all six fields are empty. |
| Planner.TravelPlannerApp.ClearForm | projekt.py:310-316 | The six form fields are empty. |
| Planner.TravelPlannerApp.BuildTrip | projekt.py:118-122 | The four steps succeed exactly when choose_destination does, because the trip then costs 1400 against a budget of 1500. A success records a trip with the form's destination and dates, budget 1500, a LOT flight for 800 in the chosen seat and the chosen hotel for 600. It also rewrites the file and clears the form. A failure changes nothing. |
| Planner.TravelPlannerApp.SaveTripsToFile | projekt.py:318-321 | The file holds one line per trip of the history, in order. |
| Planner.TravelPlannerApp.LoadTripsFromFile | projekt.py:323-330 | Without a file, it succeeds and adds nothing. With a file, it appends the parsed trips in file order and reports whether a line stopped the loading. |
| Planner.TravelPlannerApp.AppendLines | projekt.py:326-328 | Each line's trip is appended to the history as soon as it is parsed. The history grows by exactly the trips loading yields, and a bad line leaves the trips before it appended. |
| Planner.TravelPlannerApp.CancelTrip | projekt.py:183-186 | Opening the cancel window fails, with the nothing-to-cancel error, exactly when the history is empty. It changes nothing. |
| Planner.TravelPlannerApp.ConfirmCancel | projekt.py:201-210 | Pressing the button without a selection, or with a position past the end of the history as it is then, gives its own error and changes nothing. Otherwise the selected trip is removed and returned, the others keep their order, and the file is rewritten. |
| Planner.TravelPlannerApp.DeleteLastTripFromFile | projekt.py:332-336 | With an empty history it does nothing. Otherwise it removes only the last trip and rewrites the file. |
| Planner.RemoveAtKeepsOrder | projekt.py:207 | Removing position i leaves one trip fewer, with the trips before i unchanged and the trips after it shifted down by one. |
| Wizard.PriceOf | projetk1.py:231-234 | `catalog.get(name, 0)`: the listed price, or 0 for a name the catalog lacks; CatalogPriceBounds states its range. |
| Wizard.CatalogPriceBounds | projetk1.py:100-101 | Every catalog lookup, the default for an unknown or empty name included, gives 0 to 800 for a flight and 0 to 1000 for a hotel. The empty name gives 0. |
| Wizard.IsValidDateFormat | projetk1.py:265-271 | is_valid_date_format holds exactly when strptime accepts the string; its two partner lemmas below state what that admits. |
| Wizard.IsValidDateFormatComplete | projetk1.py:265-271 | Every valid date in its `YYYY-MM-DD` spelling passes the format check. |
| Wizard.IsValidDateFormatSound | projetk1.py:265-271 | Every string that passes the format check denotes a real calendar date. |
| Wizard.FromDict | projetk1.py:54-59 | from_dict never sets a flight or a hotel. |
| Wizard.FromDictDefaults | projetk1.py:54-59 | An empty dictionary gives destination "", budget 0 and no dates. |
| Wizard.FromDictRoundTrip | projetk1.py:54-59 | from_dict keeps the destination, budget and dates it finds, and drops the flight and the hotel. |
| Wizard.PaymentMessage | projetk1.py:12-18 | The message each strategy's pay returns; PaymentMessageReadsBack and PaymentMessagesDiffer state its parts. |
| Wizard.PaymentMessageReadsBack | projetk1.py:12-18 | The message is "Płacę ", then the amount's digits, which read back as the amount, then the method's words. |
| Wizard.PaymentMessagesDiffer | projetk1.py:12-18 | For the same amount, the card message and the cash message differ. |
| Wizard.TravelPlannerApp.constructor | projetk1.py:84-106 | The app starts with a budget of 2000, a trip `Trip("", 2000)`, the two catalogs, an empty form and the first screen. |
| Wizard.TravelPlannerApp.QuotedTotal | projetk1.py:219-224 | The displayed total lies between 0 and 1800. With no airline and no hotel chosen it is 0. |
| Wizard.TravelPlannerApp.ValidateDestination | projetk1.py:133-152 | The step advances to the transport screen exactly when the destination and both dates are present, both dates parse, and the return is not before the departure. The complaints come in that order, and a failure stays on the screen. |
| Wizard.TravelPlannerApp.ValidateTransport | projetk1.py:184-191 | The step advances to the hotel screen exactly when an airline and a seat are chosen. A missing airline is reported before a missing seat. |
| Wizard.TravelPlannerApp.BackToDestination | projetk1.py:176-215 | "Wróć" on the transport screen (line 176) and "Anuluj" on the hotel screen (line 215) lead to the first screen, with the form kept. |
| Wizard.TravelPlannerApp.BackToTransport | projetk1.py:216 | "Wróć" on the hotel screen leads to the transport screen. |
| Wizard.TravelPlannerApp.TakeForm | projetk1.py:227-236 | The trip takes the destination and dates of the form, a flight and a new hotel priced from the catalogs, and the current budget. Its cost equals the displayed total. |
| Wizard.TravelPlannerApp.ConfirmTrip | projetk1.py:226-254 | The trip takes the form, the catalog prices and the current budget, and its cost equals the displayed total. It fails exactly when that total exceeds the budget, leaving the budget, the form and the screen unchanged. On success the budget drops by exactly the cost and never goes below 0, the payment message names the method and the cost, the form is empty, and the first screen follows. |
| Wizard.TravelPlannerApp.ResetAll | projetk1.py:256-263 | The seven form fields are empty. |
| Wizard.FillIn | projetk1.py:133-191 | A filled-in form with dates in order passes both checks and reaches the hotel screen with the budget untouched. |
| Wizard.Book | projetk1.py:226-254 | One pass through the screens pays for the trip exactly when the catalog total fits in the budget, and deducts exactly that total. |
| Wizard.TwoBookings | projetk1.py:226-254 | From a fresh app, LOT with Hotel A is paid by card for 1400 and leaves 600. LOT with Hotel C (1800) is then refused, and 600 remains. |

## Left out

- The tkinter user interface is not modelled: widgets, layout, menus, windows, message boxes and labels. Each error box becomes a `Complaint` or `CancelError` value; the success and information boxes are left out. The cancel window is not modal, so `CancelTrip` and `ConfirmCancel` are two separate operations. Screen changes become the `Screen` enumeration.
- The label texts are not modelled: "Budżet: … zł", "Cena lotu: … zł", "Cena całkowita: … zł", `update_flight_price`, and the list built by `show_my_trips`. They only display values the model already computes.
- The `print` in `projekt.py`'s payment strategies is console output and is not modelled. Only the choice of strategy is modelled (`Domain.SelectPayment`). The messages returned by `projetk1.py`'s strategies are modelled.
- Real file access is replaced by the `file` field. Not modelled:
  - opening, the encoding, and write failures;
  - read errors other than a missing file;
  - the platform's newline translation on writing. Reading with universal newlines turns it back into '\n': `Text.UniversalNewlinesKeeps` covers a platform that writes '\n' unchanged, and `Text.UniversalNewlinesUndoesCrLf` one that writes "\r\n".
- `Transport.travel_time`, the `mode` attribute, `Command`/`AddHotelCommand` and the abstract `TripBuilderTemplate` are not modelled separately, because they carry no logic of their own. `ChooseHotel` assigns the hotel directly, as `AddHotelCommand.execute` does.
- `projekt.py`'s `Trip.from_dict` (lines 73-75) is not modelled, because no caller uses it. `projetk1.py`'s version is modelled.
- The `mainloop` entry points are not modelled.
- Planner.TravelPlannerApp.constructor: a malformed line in `loty.txt` makes `load_trips_from_file` raise `IndexError`, which escapes `__init__` and stops the program. The model ignores the loading outcome, because the history is emptied right after anyway.
- Dates.ParseDate: only ASCII digits are accepted. Python's `\d` in `strptime`'s patterns also matches other Unicode decimal digits, and `int()` converts them. The model refuses such strings.
- Wizard.FromDict: a dictionary is modelled by its four keys, each present or absent, with values of the expected types. A key present with the value `None`, or with a value of another type, is not modelled.
- Domain.Hotel.SetPrice, Domain.TotalCost: prices are integers; the code uses integer literals only.
