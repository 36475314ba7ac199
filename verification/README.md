# Train-ticket booking ledger, modelled in Dafny

This project models the booking ledger of a train-ticket web service.
Users pick a route, a travel date, a coach class and a seat in a 5 × 4 grid.
The server prices the ticket, assigns a PNR (the public booking code) and stores the booking as `confirmed`.
The owner may later cancel it, which sets the status to `cancelled`.
Nothing is ever deleted.

The model covers these parts:

- the shared schema: the booking record, the insert schema and its validation, the five coach classes, and the grid size;
- the storage queries over the booking table, modelled as a sequence of records;
- the POST and DELETE booking endpoints;
- the booking page: its selection state machine, the client fare estimate, the fare summary and the booked-seat keys;
- the seat map;
- the upcoming / past split on the "My Bookings" page.

Money is integer paise.
Rates are multiples of 0.5 and distances are integers, so the fare is always a whole number of paise: `distance × rateTenths × (8 if age ≥ 60 else 10)`.
`Fare.FarePaiseIsExactFare` proves this equals the source's formula over exact reals, scaled by 100.
The two-decimal text the table stores (`toFixed(2)`) is `Fare.FormatFare`, and it reads back exactly.
The storage queries are pure functions of the ledger, so a read such as the booked-seat query cannot change the ledger.
Travel dates are integer day numbers.
On the bookings page, "now" is an instant in milliseconds, because the page compares `new Date("yyyy-mm-dd")` (UTC midnight) against `new Date()`.
The page reads the clock once per booking in each list; the model gives both lists one reading, and `MyBookings.BothListsAcrossMidnight` shows what two readings straddling a midnight do.

Headline invariant (`BookingApi.LedgerInvariant`):

- no two confirmed bookings hold the same (route, date, coach, row, column);
- ids and PNRs are unique;
- every stored fare is the server's fare for its route, coach and passenger age.

Creates and cancels preserve it when requests run one at a time, with the create's coach check corrected as described under "## Findings".
The create as written, `BookingApi.CreateBookingHandlerAsWritten`, keeps the no-double-booking and unique-key parts from any ledger that has them, whatever its fares (`BookingApi.AsWrittenKeepsSeatsAndKeys`); cancels keep no-double-booking on its own (`BookingApi.CancelKeepsNoDoubleBooking`). It does not keep the derived fares (`BookingApi.InheritedCoachCorruptsLedger`).

Behaviour of the endpoints that the model follows:

- The server does not range-check `row` or `column` (`BookingScenarios.SeatOutsideGridAccepted`).
- The checks run schema → route → seat → coach.
- A PNR collision fails the request with 400; there is no retry.
- Cancelling an unknown booking, or another user's booking, reports success.
- `BookingApi.CreateBookingHandler` refuses every coach that is not one of the five table keys; the code as written lets names inherited from `Object.prototype` through (see "## Findings").

Modules: `Wrappers`, `Text`, `Seqs` (helpers); `Schema` (shared/schema.ts); `Fare`; `Storage` (server/storage.ts); `BookingApi` and `BookingScenarios` (server/routes.ts); `SeatMap` (seat-map.tsx); `BookTicket` (book-ticket.tsx); `MyBookings` (my-bookings.tsx).

## Model

| member | source | states |
|---|---|---|
| Schema.CoachOrderIsRateOrder | shared/schema.ts:102-110 | Five coach classes; the order lists each key of the table exactly once; all rates are positive and strictly decrease from Business to Non A/C |
| BookingApi.CoachCheckPassesAsWritten | server/routes.ts:231-234 | `!COACH_CLASSES[coachKey]` lets a name through iff it is one of the five keys or an Object.prototype member name |
| Schema.CoachPropertyAsWritten | server/routes.ts:231-232 | `COACH_CLASSES[key]` yields an own entry exactly for the five keys, with that key's class; other names read as inherited members or undefined |
| Schema.ValidateBooking | shared/schema.ts:71-82 | A body validates iff every field is present, the name is non-empty and the age is in [7, 125]; the result copies the client columns; a failure lists at least one issue |
| Schema.ServerFieldsIgnored | shared/schema.ts:71-78 | Validation yields the same result whether or not the body carries id, pnr, createdAt, status, userId or fare |
| Schema.AnyRowAndColumnValidate | shared/schema.ts:29-30 | Any integer row and column validate; no range is imposed |
| Fare.FarePaise | server/routes.ts:236-239 | For a non-negative distance the fare is never negative and never above the base fare |
| Fare.FarePaiseIsExactFare | server/routes.ts:236-239 | The integer fare in paise is exactly 100 × distance × rate × (1 − 0.2 if age ≥ 60 else 1) |
| Fare.FareIsBaseLessDiscount | server/routes.ts:237-239 | Seniors pay base − 20% of base; everyone else pays the base |
| Fare.FormatFare | server/routes.ts:246 | `toFixed(2)` of the fare: its own contract gives only the shape (digits, a point, two digits); its meaning is stated by `Fare.ParseFormatFare` |
| Fare.ParseFare | client/src/pages/my-bookings.tsx:144 | Reads a stored fare; it yields an amount only for text with a point before two final digits, and a negative amount only after a minus sign, so "NaN" is no amount |
| Fare.DisplayFare | client/src/pages/my-bookings.tsx:144 | `parseFloat(fare).toFixed(2)` on the forms the numeric(10,2) column returns (`-?d+.dd` or "NaN"): the shown text reads back as the same amount as the stored text; text that is no amount shows "NaN". Other forms such as "12.3" are not read |
| Fare.ParseFormatFare | server/routes.ts:246 | The two-decimal fare text reads back as the amount formatted |
| Fare.DisplayShowsStoredFare | client/src/pages/my-bookings.tsx:144 | Re-displaying a stored fare with parseFloat/toFixed(2) shows the stored text unchanged |
| Fare.FareExamples | server/routes.ts:236-246 | 1400 km Economy at 30 is "2800.00"; 575 km Business at 65 is "2300.00" |
| Storage.GetBookedSeats | server/storage.ts:102-123 | A seat is listed iff some booking for that route, date and coach is confirmed and sits there; cancelled bookings contribute nothing |
| Storage.CreateBooking | server/storage.ts:125-128 | The insert succeeds iff the fare fits decimal(10,2) and the id and PNR are unused; it then appends exactly one record with status confirmed and the given fields |
| Storage.CancelBooking | server/storage.ts:130-135 | Only the record whose id and owner both match becomes cancelled; every other record is unchanged; the length is kept |
| Storage.CancelIdempotent | server/storage.ts:130-135 | Cancelling twice equals cancelling once |
| Storage.CancelNotOwnedIsNoOp | server/storage.ts:134 | An unknown id, or one owned by another user, leaves the table unchanged |
| Storage.StorageNeverRemoves | server/storage.ts:125-135 | Insert and cancel keep every existing record in place, changed at most by a confirmed → cancelled flip |
| Storage.InsertKeepsKeysUnique | shared/schema.ts:24-34 | Unique ids and unique PNRs survive every insert the table accepts |
| Storage.CancelKeepsKeysUnique | server/storage.ts:130-135 | Unique ids and unique PNRs survive every cancellation |
| Storage.GetUserBookings | server/storage.ts:68-82 | Exactly the user's bookings, as a permutation of the table's, ordered by travel date |
| Storage.GetBookingByPnr | server/storage.ts:84-100 | Returns a stored booking with that PNR if one exists, otherwise nothing |
| Storage.PnrLookupFindsTheBooking | server/storage.ts:92-99 | With unique PNRs the lookup returns the one booking carrying the PNR |
| BookingApi.FindRoute | server/storage.ts:58-61 | Finds a route with the id, or reports none exists |
| BookingApi.CreateErrorStatus | server/routes.ts:205-261 | A refused create answers 401 exactly when there is no session, else 400 |
| BookingApi.ServerPnr | server/routes.ts:241 | The PNR has the generated code's length, contains no lower-case letter, and matches the code letter by letter up to case |
| BookingApi.CreateBookingHandler | server/routes.ts:204-262 | No session gives 401. The first failing check wins: schema, then route, then seat taken, then coach. A request passing all four is accepted iff the insert succeeds (fare fits, id and PNR unused), and otherwise refused with the insert's error. On success exactly one booking is appended, with the session user, status confirmed, the upper-cased PNR, a known coach, a free seat and the server formula's fare |
| BookingApi.ClientCannotChooseServerFields | server/routes.ts:243-248 | The outcome does not depend on any id, PNR, status, user or fare the client sends |
| BookingApi.PnrCollisionIsRejected | server/routes.ts:250-261 | For a logged-in user, a PNR already stored makes the create fail with status 400, with no retry |
| BookingApi.CreatePreservesInvariant | server/routes.ts:217-250 | A successful create keeps the invariant: no seat is held twice, keys stay unique, fares stay derived |
| BookingApi.AppendFreeSeatKeepsNoDoubleBooking | server/routes.ts:217-250 | Appending a booking on a seat no confirmed booking of that departure holds keeps every seat held at most once |
| BookingApi.AsWrittenKeepsSeatsAndKeys | server/routes.ts:217-250 | From any ledger with no seat held twice and unique ids and PNRs, whatever its fares, a successful create as written keeps all three |
| BookingApi.CancelKeepsNoDoubleBooking | server/storage.ts:130-135 | A cancellation keeps every seat held at most once, from no-double-booking alone |
| BookingApi.CancelPreservesInvariant | server/storage.ts:130-135 | A cancellation keeps the invariant |
| BookingApi.CancelBookingHandler | server/routes.ts:264-287 | Without a session: 401 and no change. Otherwise: the owner-restricted status flip, always answered "Booking cancelled successfully" |
| BookingApi.HandlersPreserveInvariant | server/routes.ts:204-287 | Every create or cancel call, successful or not, leaves a ledger satisfying the invariant |
| BookingApi.FareTextAsWritten | server/routes.ts:231-246 | As written, the stored fare text reads back as the formula's fare for real coach keys and is not a number for inherited member names |
| BookingApi.InheritedCoachNameSlipsThrough | server/routes.ts:231-246 | Coach "constructor" passes the check as written and is priced "NaN", though it is no coach class |
| BookingApi.CoachChecksAgreeOffPrototype | server/routes.ts:231-234 | Except on Object.prototype member names, the as-written check and the corrected check agree |
| BookingApi.CreateBookingHandlerAsWritten | server/routes.ts:204-262 | The create as written: on success it appends one confirmed booking, with the fresh id and PNR, on a free seat whose coach passes `!COACH_CLASSES[coachKey]`, and the stored fare text is the formula's fare for table keys and not a number otherwise |
| BookingApi.CreateAsWrittenAgreesOffPrototype | server/routes.ts:231-246 | Unless the coach names an Object.prototype member, the create as written and the corrected create give the same answer, and the stored text is the corrected fare with two decimals |
| BookingApi.InheritedCoachCorruptsLedger | server/routes.ts:231-250 | From a ledger satisfying the invariant, an Object.prototype coach name on a valid route with a free seat and fresh keys is stored with fare "NaN"; no seat is held twice and keys stay unique, but the fares are no longer derived |
| BookingScenarios.UpperCasedPnr | server/routes.ts:241 | "abcdefghij" becomes PNR "ABCDEFGHIJ" |
| BookingScenarios.FirstBookingStored | server/routes.ts:204-257 | On an empty ledger, 1400 km Economy at 30 stores one confirmed booking with fare 280000 paise |
| BookingScenarios.SecondBookingRefused | server/routes.ts:217-229 | A second user asking for the same seat of the same departure is refused "Seat already booked" |
| BookingScenarios.OnlyOwnerReleasesSeat | server/storage.ts:130-135 | Another user's cancel changes nothing; the owner's cancel flips the status |
| BookingScenarios.ReleasedSeatRebooked | server/storage.ts:102-123 | Once cancelled, the seat can be booked by a third user |
| BookingScenarios.ContestedSeat | server/routes.ts:204-287 | The full book / refuse / cancel / rebook sequence on one seat |
| BookingScenarios.SeatOutsideGridAccepted | shared/schema.ts:29-30 | Row 6, column 9 is accepted by the server |
| BookingScenarios.ConstructorCoachStoredAsWritten | server/routes.ts:231-250 | On an empty ledger, coach "constructor" is refused by the corrected create and stored with fare "NaN" by the create as written |
| BookingScenarios.ChecksRunRouteSeatCoach | server/routes.ts:212-234 | A request failing route, seat and coach is refused for its route; with a valid route, for its seat before its coach |
| SeatMap.SeatKey | client/src/components/booking/seat-map.tsx:11 | `${row}-${col}`: at least three characters, starting with a digit iff the row is non-negative; that the key names one seat is `SeatMap.SeatKeyIdentifiesSeat` |
| SeatMap.IsBooked | client/src/components/booking/seat-map.tsx:12 | No contract of its own: the seat's key is in the booked set; its meaning in terms of booked seats is `SeatMap.KeyLookupMatchesSeats` |
| SeatMap.IsSelected | client/src/components/booking/seat-map.tsx:13-14 | A seat is selected iff the selection is exactly that seat; no seat is selected when there is no selection |
| SeatMap.SeatKeyIdentifiesSeat | client/src/components/booking/seat-map.tsx:11 | The "row-col" key of a seat with non-negative coordinates belongs to that seat only, among all integer seats |
| SeatMap.SeatKeyInjectiveOnGrid | client/src/components/booking/seat-map.tsx:11 | Distinct grid seats never share a key |
| SeatMap.KeyLookupMatchesSeats | client/src/components/booking/seat-map.tsx:12 | A seat's key is in the set built from booked seats iff the seat is among them |
| SeatMap.SeatLettersAgree | client/src/components/booking/seat-map.tsx:46 | chr(65 + (c − 1)) equals chr(64 + c) and lies in A..D for grid columns |
| SeatMap.RenderSeatMap | client/src/components/booking/seat-map.tsx:22-48 | Exactly ROWS × COLUMNS buttons, covering every grid seat exactly once. A button is disabled iff its key is booked, and selected iff it is the selected seat. Its letter is the post-booking letter of its column |
| BookTicket.BookedKeySet | client/src/pages/book-ticket.tsx:84-86 | For grid seats, the key is in the set iff the server listed the seat |
| BookTicket.SeatDisabledIffHeld | client/src/components/booking/seat-map.tsx:29-36 | Fed the server's booked seats, a button is disabled iff a confirmed booking holds the seat |
| BookTicket.ClientFare | client/src/pages/book-ticket.tsx:88-96 | 0 without a route or coach; otherwise exactly the server formula over reals, in paise |
| BookTicket.ClientEstimateMatchesStoredFare | client/src/pages/book-ticket.tsx:88-96 | The page's estimate for a booking's route, coach and age equals the fare the server stored |
| BookTicket.Summary | client/src/pages/book-ticket.tsx:423-438 | The discount line appears iff age ≥ 60 and is a fifth of the base; the total is base − discount, or the base alone, and equals the page's fare |
| BookTicket.SelectRoute | client/src/pages/book-ticket.tsx:102-106 | Selects the route, writes its id into the form, step 2; date, coach and seat are unchanged |
| BookTicket.SelectDate | client/src/pages/book-ticket.tsx:108-114 | An undefined date changes nothing; a date is written into the form, step 3 |
| BookTicket.SelectCoach | client/src/pages/book-ticket.tsx:116-121 | Selects the coach, clears the selected seat, step 4 |
| BookTicket.SelectSeat | client/src/pages/book-ticket.tsx:123-128 | Selects the seat, writes row and column into the form, step 5 |
| BookTicket.InitialIsConsistent | client/src/pages/book-ticket.tsx:33-50 | The initial page state is consistent with its form defaults |
| BookTicket.ApplyPreservesConsistency | client/src/pages/book-ticket.tsx:102-128 | Each handler, fired when the page shows its control, keeps selections and form in agreement, and keeps each step's prerequisites selected |
| BookTicket.Enabled | client/src/pages/book-ticket.tsx:170-296 | No contract of its own: which controls the page shows. Route buttons always; the date picker from step 2 with a route; the coach buttons from step 3 with a date; the seat map from step 4 with a coach, where a grid seat is clickable only if not booked. It is the assumption under which `BookTicket.RunStaysConsistent` holds |
| BookTicket.RunStaysConsistent | client/src/pages/book-ticket.tsx:102-128 | Any sequence of allowed events keeps the page consistent |
| BookTicket.EstimateDefined | client/src/pages/book-ticket.tsx:88-91 | In every consistent state the coach is "" or a table key, so the estimate is defined |
| BookTicket.SubmissionMatchesSelection | client/src/pages/book-ticket.tsx:130-134 | At step 5 the posted body books exactly the selected route, date, coach and grid seat |
| MyBookings.Upcoming | client/src/pages/my-bookings.tsx:49-51 | A booking is upcoming iff it is confirmed and its travel date's start is not before now |
| MyBookings.Past | client/src/pages/my-bookings.tsx:52-54 | A booking is past iff it is cancelled or its travel date started before now |
| MyBookings.ListsPartitionBookings | client/src/pages/my-bookings.tsx:49-54 | Every booking lands in exactly one of the two lists |
| MyBookings.ListsKeepDateOrder | client/src/pages/my-bookings.tsx:49-54 | Both lists keep the server's travel-date order |
| MyBookings.TodayIsPastAfterMidnight | client/src/pages/my-bookings.tsx:50-53 | A confirmed booking for today is upcoming only at UTC midnight exactly |
| MyBookings.BothListsAcrossMidnight | client/src/pages/my-bookings.tsx:49-54 | With the clock read at t1 for the upcoming list and t2 for the past list, a confirmed booking whose day starts in [t1, t2) is in both lists |
| MyBookings.PastBadge | client/src/pages/my-bookings.tsx:224 | A past card is badged Cancelled iff the booking is cancelled, and Completed iff it is confirmed |
| MyBookings.Render | client/src/pages/my-bookings.tsx:72-233 | The empty state appears iff there are no bookings. The i-th upcoming and past cards show the i-th booking of each list, so the cards keep the server's date order. Upcoming cards offer Cancel; past cards do not, and are badged Cancelled exactly for cancelled bookings |
| MyBookings.CancelOfferedOnlyWhenUpcoming | client/src/pages/my-bookings.tsx:93-171 | A booking gets a Cancel action iff it is upcoming |

## Left out

- Concurrency: the gap between the seat check and the insert is a real race, and no database constraint covers seats. Only sequential execution is modelled; no race-freedom is claimed.
- E-mail: confirmation and cancellation mails are I/O through an external library. They are fire-and-forget, and the lookups done only to address them are not modelled.
- Sessions, password hashing, the register/login/logout routes and request logging: the session user is an `Option<string>` parameter.
- Server start-up and route seeding are I/O. The seeded Delhi–Mumbai route is used as a scenario constant.
- PNR generation: the random code from nanoid is a parameter. The server's upper-casing is modelled for ASCII letters only.
- The creation timestamp and the uuid defaults: the new booking's id is a parameter; timestamps are not modelled.
- Joins: `BookingWithDetails` attaches the route and user records to a booking for display. The queries return the bookings alone.
- Floating point: fares are exact integers in paise. Float rounding is not modelled. For distances that fit the 32-bit `distance_km` column the source's `toFixed(2)` result is the same as the exact fare; for distances near 2^53 double rounding would differ.
- Dates: travel dates are day numbers. Parsing the "yyyy-MM-dd" string is not modelled, nor is the database rejecting a malformed date string; the first such rejection comes from the booked-seat query's date comparison, before the insert. Time zones other than UTC are not modelled.
- Non-integer ages: the schema accepts any number in [7, 125], and the integer column would reject a fraction at insert. Ages are modelled as integers.
- 32-bit column limits on row, column, age and distance are not modelled.
- The GET endpoints for routes, seats and the user's bookings, which only forward to the storage queries above; their 400/404/500 answers are not modelled.
- Rendering, styling, toasts and page routing, the date picker's disabling of past days, and the client-side form schema.
- BookingApi.CreateBookingHandler: applies the corrected coach check (own keys of the coach table only). The code as written is `BookingApi.CreateBookingHandlerAsWritten`, and the two differ only on Object.prototype member names.
- BookingApi.CreateBookingHandlerAsWritten: the ledger's fare is an integer, so the row stored with fare text "NaN" carries fare 0 in the ledger; the returned text is what the column holds.
- MyBookings.ListsPartitionBookings: both filters are modelled with one instant. The page reads the clock afresh per booking and per list, so at a UTC midnight a confirmed booking can show in both lists (`MyBookings.BothListsAcrossMidnight`); the partition holds only for one reading.
- SeatMap.IsBooked: a predicate with no contract of its own; `SeatMap.KeyLookupMatchesSeats` states what it means for booked seats.
- BookTicket.Enabled: a predicate with no contract of its own; it is the hypothesis of `BookTicket.ApplyPreservesConsistency` and `BookTicket.RunStaysConsistent`.
- Storage.GetUserBookings: the database leaves the order of bookings with equal travel dates unspecified. The model fixes one order (insertion order); the contract claims only sortedness and the permutation.

## Findings

| source | as written | input that shows it | evidently intended | confidence | as-written member | corrected member |
|---|---|---|---|---|---|---|
| server/routes.ts:231-246 | `!COACH_CLASSES[coachKey]` refuses only keys that read as undefined, so names inherited from Object.prototype pass the coach check; `ratePerKm` is then undefined and the fare text is "NaN" | coach "constructor" (route valid, seat free) | refuse every coach that is not one of the five own keys with "Invalid coach class" | medium, not executed (storing "NaN" in the decimal column relies on PostgreSQL accepting NaN for numeric) | BookingApi.InheritedCoachCorruptsLedger | BookingApi.CreateBookingHandler |
