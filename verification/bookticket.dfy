/**
 * The booking page: the route → date → coach → seat selection as a small
 * state machine over the page state and its form, the set of booked-seat
 * keys handed to the seat map, the client's fare estimate, and the fare
 * summary lines.
 */
module BookTicket {
  import opened Wrappers
  import opened Schema
  import opened Storage
  import opened SeatMap
  import opened Fare
  import opened BookingApi

  /** `bookedSeatsSet`: the keys of the seats the server reported booked. */
  function BookedKeySet(seats: seq<Seat>): (keys: set<string>)
    ensures forall s :: OnGrid(s) ==> (SeatKey(s.row, s.column) in keys <==> s in seats)
  {
    var keys := set s | s in seats :: SeatKey(s.row, s.column);
    forall s | OnGrid(s)
      ensures SeatKey(s.row, s.column) in keys <==> s in seats
    {
      KeyLookupMatchesSeats(seats, s.row, s.column);
    }
    keys
  }

  /**
   * With the booked seats of a departure, a seat button is disabled exactly
   * when a confirmed booking for that departure holds the seat.
   */
  lemma SeatDisabledIffHeld(l: Ledger, routeId: string, travelDate: int, coach: string, selected: Option<Seat>)
    ensures var buttons := RenderSeatMap(BookedKeySet(GetBookedSeats(l, routeId, travelDate, coach)), selected);
      forall i :: 0 <= i < |buttons| ==>
        (buttons[i].disabled <==> SeatTaken(l, routeId, travelDate, coach, buttons[i].SeatOf()))
  {
  }

  /**
   * `calculateFare`: nothing selected gives 0, otherwise the formula the
   * server uses. The page only ever holds "" or a key of the coach table.
   */
  function ClientFare(route: Option<Route>, coach: string, age: int): (paise: int)
    requires coach == "" || IsCoachKey(coach)
    ensures route.None? || coach == "" ==> paise == 0
    ensures route.Some? && coach != "" ==>
      paise as real == 100.0 * FareRupees(route.value.distanceKm, RateTenths(coach), age)
  {
    if route.None? || coach == "" then 0
    else
      FarePaiseIsExactFare(route.value.distanceKm, RateTenths(coach), age);
      FarePaise(route.value.distanceKm, RateTenths(coach), age)
  }

  /** The estimate the page shows for a booking's route, coach and age is the fare the server stores. */
  lemma ClientEstimateMatchesStoredFare(
    l: Ledger, routes: seq<Route>, session: Option<string>, req: BookingRequest, generated: string, newId: string)
    ensures var r := CreateBookingHandler(l, routes, session, req, generated, newId);
      r.Success? ==>
        var b := r.value.1;
        ClientFare(FindRoute(routes, b.routeId), b.coach, b.passengerAge) == b.fare
  {
    var r := CreateBookingHandler(l, routes, session, req, generated, newId);
    if r.Success? {
      var b := r.value.1;
      var route := FindRoute(routes, b.routeId).value;
      var est := ClientFare(Some(route), b.coach, b.passengerAge);
      FarePaiseIsExactFare(route.distanceKm, RateTenths(b.coach), b.passengerAge);
      assert est as real == b.fare as real;
    }
  }

  /** The summary card: base fare, the senior discount line when shown, and the total. */
  datatype FareSummary = FareSummary(base: int, discount: Option<int>, total: int)

  function Summary(route: Route, coach: string, age: int): (s: FareSummary)
    requires IsCoachKey(coach)
    ensures s.discount.Some? <==> age >= SENIOR_AGE
    ensures s.discount.Some? ==> s.total == s.base - s.discount.value && 5 * s.discount.value == s.base
    ensures s.discount.None? ==> s.total == s.base
    ensures s.total == ClientFare(Some(route), coach, age)
  {
    var rate := RateTenths(coach);
    FareIsBaseLessDiscount(route.distanceKm, rate, age);
    FareSummary(
      BasePaise(route.distanceKm, rate),
      if age >= SENIOR_AGE then Some(SeniorDiscountPaise(route.distanceKm, rate)) else None,
      ClientFare(Some(route), coach, age))
  }

  /** The booking form's values; `travelDate` is `None` while the field is "". */
  datatype FormValues = FormValues(
    routeId: string, travelDate: Option<int>, coach: string,
    row: int, column: int, passengerName: string, passengerAge: int)

  /** The page state: current step, the selections, and the form. `coach` is "" when none is selected. */
  datatype PageState = PageState(
    step: int, route: Option<Route>, date: Option<int>, coach: string, seat: Option<Seat>, form: FormValues)

  const Initial: PageState :=
    PageState(1, None, None, "", None, FormValues("", None, "", 0, 0, "", 0))

  /** What the user does on the page. */
  datatype Event =
    | RouteClicked(route: Route)
    | DatePicked(date: Option<int>)
    | CoachClicked(key: string)
    | SeatClicked(row: int, column: int)

  /** `handleRouteSelect`: selects the route, writes its id into the form, moves to step 2. */
  function SelectRoute(st: PageState, route: Route): (st': PageState)
    ensures st'.step == 2 && st'.route == Some(route) && st'.form.routeId == route.id
    ensures st'.date == st.date && st'.coach == st.coach && st'.seat == st.seat
    ensures st'.form == st.form.(routeId := route.id)
  {
    st.(route := Some(route), form := st.form.(routeId := route.id), step := 2)
  }

  /** `handleDateSelect`: an undefined date changes nothing; a date is written and the step is 3. */
  function SelectDate(st: PageState, date: Option<int>): (st': PageState)
    ensures date.None? ==> st' == st
    ensures date.Some? ==> st'.step == 3 && st'.date == date && st'.form == st.form.(travelDate := date)
    ensures st'.route == st.route && st'.coach == st.coach && st'.seat == st.seat
  {
    match date
    case None => st
    case Some(_) => st.(date := date, form := st.form.(travelDate := date), step := 3)
  }

  /** `handleCoachSelect`: selects the coach, clears the seat selection, moves to step 4. */
  function SelectCoach(st: PageState, key: string): (st': PageState)
    ensures st'.step == 4 && st'.coach == key && st'.seat.None?
    ensures st'.form == st.form.(coach := key)
    ensures st'.route == st.route && st'.date == st.date
  {
    st.(coach := key, form := st.form.(coach := key), seat := None, step := 4)
  }

  /** `handleSeatSelect`: selects the seat, writes row and column into the form, moves to step 5. */
  function SelectSeat(st: PageState, row: int, column: int): (st': PageState)
    ensures st'.step == 5 && st'.seat == Some(Seat(row, column))
    ensures st'.form == st.form.(row := row, column := column)
    ensures st'.route == st.route && st'.date == st.date && st'.coach == st.coach
  {
    st.(seat := Some(Seat(row, column)), form := st.form.(row := row, column := column), step := 5)
  }

  function Apply(st: PageState, ev: Event): PageState {
    match ev
    case RouteClicked(r) => SelectRoute(st, r)
    case DatePicked(d) => SelectDate(st, d)
    case CoachClicked(k) => SelectCoach(st, k)
    case SeatClicked(r, c) => SelectSeat(st, r, c)
  }

  /**
   * When the page lets the event happen: the date picker is shown from
   * step 2 with a route, the coach buttons (the keys of `COACH_ORDER`) from
   * step 3 with a date, and the seat map from step 4 with a coach, where
   * booked seats are disabled.
   */
  predicate Enabled(st: PageState, ev: Event, bookedKeys: set<string>) {
    match ev
    case RouteClicked(_) => true
    case DatePicked(_) => st.step >= 2 && st.route.Some?
    case CoachClicked(k) => st.step >= 3 && st.date.Some? && k in COACH_ORDER
    case SeatClicked(r, c) => st.step >= 4 && st.coach != "" && OnGrid(Seat(r, c)) && !IsBooked(bookedKeys, r, c)
  }

  /**
   * The page state agrees with its form, and every step past the first has
   * the selections it needs.
   */
  predicate Consistent(st: PageState) {
    && 1 <= st.step <= 5
    && (st.route.Some? ==> st.form.routeId == st.route.value.id)
    && st.form.travelDate == st.date
    && st.form.coach == st.coach
    && (st.coach == "" || st.coach in COACH_ORDER)
    && (st.seat.Some? ==> st.form.row == st.seat.value.row && st.form.column == st.seat.value.column)
    && (st.seat.Some? ==> OnGrid(st.seat.value))
    && (st.step >= 2 ==> st.route.Some?)
    && (st.step >= 3 ==> st.date.Some?)
    && (st.step >= 4 ==> st.coach != "")
    && (st.step == 5 ==> st.seat.Some?)
  }

  lemma InitialIsConsistent()
    ensures Consistent(Initial)
  {
  }

  /** Every event the page allows keeps the state consistent. */
  lemma ApplyPreservesConsistency(st: PageState, ev: Event, bookedKeys: set<string>)
    requires Consistent(st) && Enabled(st, ev, bookedKeys)
    ensures Consistent(Apply(st, ev))
  {
  }

  /** The state after a sequence of events, each allowed when it happens. */
  function Run(st: PageState, evs: seq<Event>, bookedKeys: set<string>): (r: Option<PageState>)
    decreases |evs|
  {
    if |evs| == 0 then Some(st)
    else if !Enabled(st, evs[0], bookedKeys) then None
    else Run(Apply(st, evs[0]), evs[1..], bookedKeys)
  }

  /** Any run of allowed events from the initial page ends in a consistent state. */
  lemma {:induction false} RunStaysConsistent(st: PageState, evs: seq<Event>, bookedKeys: set<string>)
    requires Consistent(st)
    ensures Run(st, evs, bookedKeys).Some? ==> Consistent(Run(st, evs, bookedKeys).value)
    decreases |evs|
  {
    if |evs| > 0 && Enabled(st, evs[0], bookedKeys) {
      ApplyPreservesConsistency(st, evs[0], bookedKeys);
      RunStaysConsistent(Apply(st, evs[0]), evs[1..], bookedKeys);
    }
  }

  /** In every consistent state the page's fare estimate is defined: the coach is "" or a table key. */
  lemma EstimateDefined(st: PageState)
    requires Consistent(st)
    ensures st.coach == "" || IsCoachKey(st.coach)
  {
    CoachOrderIsRateOrder();
  }

  /** The body the form posts. */
  function SubmittedRequest(form: FormValues): BookingRequest {
    BookingRequest(Some(form.routeId), form.travelDate, Some(form.coach), Some(form.row), Some(form.column),
                   Some(form.passengerName), Some(form.passengerAge), None, None, None, None, None, None)
  }

  /**
   * At step 5 the posted body books exactly the selected route, date, coach
   * and grid seat, and the fare the page shows is defined.
   */
  lemma SubmissionMatchesSelection(st: PageState)
    requires Consistent(st) && st.step == 5
    ensures var req := SubmittedRequest(st.form);
      && req.routeId == Some(st.route.value.id)
      && req.travelDate == st.date
      && req.coach == Some(st.coach) && IsCoachKey(st.coach)
      && req.row == Some(st.seat.value.row) && req.column == Some(st.seat.value.column)
      && OnGrid(st.seat.value)
  {
    CoachOrderIsRateOrder();
  }
}
