/**
 * The shared schema: the booking record, the body a client posts to create
 * one and the validation applied to it, the five coach classes with their
 * per-kilometre rates, and the seat grid dimensions.
 */
module Schema {
  import opened Wrappers

  /** Seat grid of every coach: `ROWS` rows of `COLUMNS` seats. */
  const ROWS: int := 5
  const COLUMNS: int := 4

  /** A coach class; the rate per kilometre is kept in tenths of a rupee (5.0 is 50). */
  datatype CoachClass = CoachClass(name: string, rateTenths: nat)

  /** The keys of the coach table, in the order the booking page lists them. */
  const COACH_ORDER: seq<string> := ["BUSINESS", "FIRST_CLASS", "ECONOMY", "SECOND_CLASS", "NON_AC"]

  /** The coach table looked up by one of its own keys; every other string has no class. */
  function CoachClassOf(key: string): Option<CoachClass> {
    if key == "BUSINESS" then Some(CoachClass("Business", 50))
    else if key == "FIRST_CLASS" then Some(CoachClass("1st Class", 35))
    else if key == "ECONOMY" then Some(CoachClass("Economy", 20))
    else if key == "SECOND_CLASS" then Some(CoachClass("2nd Class", 15))
    else if key == "NON_AC" then Some(CoachClass("Non A/C", 10))
    else None
  }

  predicate IsCoachKey(key: string) {
    CoachClassOf(key).Some?
  }

  function RateTenths(key: string): nat
    requires IsCoachKey(key)
  {
    CoachClassOf(key).value.rateTenths
  }

  /**
   * The coach order lists every class exactly once, every rate is positive,
   * and rates strictly decrease along the order (Business is dearest).
   */
  lemma CoachOrderIsRateOrder()
    ensures |COACH_ORDER| == 5
    ensures forall k :: IsCoachKey(k) <==> k in COACH_ORDER
    ensures forall i, j :: 0 <= i < j < |COACH_ORDER| ==> COACH_ORDER[i] != COACH_ORDER[j]
    ensures forall i, j :: 0 <= i < j < |COACH_ORDER| ==>
      RateTenths(COACH_ORDER[i]) > RateTenths(COACH_ORDER[j]) > 0
  {
    assert RateTenths(COACH_ORDER[0]) == 50;
    assert RateTenths(COACH_ORDER[1]) == 35;
    assert RateTenths(COACH_ORDER[2]) == 20;
    assert RateTenths(COACH_ORDER[3]) == 15;
    assert RateTenths(COACH_ORDER[4]) == 10;
  }

  /**
   * What a JavaScript property read `COACH_CLASSES[key]` yields: an own
   * entry, a member every object inherits from `Object.prototype`, or
   * `undefined`.
   */
  datatype PropertyRead = OwnEntry(coach: CoachClass) | InheritedMember | Undefined

  /** The members every plain JavaScript object inherits from `Object.prototype`. */
  const OBJECT_PROTOTYPE_MEMBERS: set<string> := {
    "constructor", "hasOwnProperty", "isPrototypeOf", "propertyIsEnumerable",
    "toLocaleString", "toString", "valueOf", "__proto__",
    "__defineGetter__", "__defineSetter__", "__lookupGetter__", "__lookupSetter__"
  }

  /** The property read the coach-class check performs, as written. */
  function CoachPropertyAsWritten(key: string): (r: PropertyRead)
    ensures r.OwnEntry? <==> IsCoachKey(key)
    ensures r.OwnEntry? ==> Some(r.coach) == CoachClassOf(key)
  {
    match CoachClassOf(key)
    case Some(c) => OwnEntry(c)
    case None => if key in OBJECT_PROTOTYPE_MEMBERS then InheritedMember else Undefined
  }

  /** Booking status; the table stores it as text and defaults it to "confirmed". */
  datatype Status = Confirmed | Cancelled

  /** A route; `distanceKm` is an integer column. */
  datatype Route = Route(id: string, name: string, fromStation: string, toStation: string, distanceKm: int)

  /** A seat position; rows and columns are plain integers in the table. */
  datatype Seat = Seat(row: int, column: int)

  /** The seat is one of the grid's: rows 1 to `ROWS`, columns 1 to `COLUMNS`. */
  predicate OnGrid(s: Seat) {
    1 <= s.row <= ROWS && 1 <= s.column <= COLUMNS
  }

  /**
   * A stored booking. `travelDate` is a day number, `fare` is in paise
   * (the table keeps rupees with two decimals). The creation timestamp is
   * not modelled.
   */
  datatype Booking = Booking(
    id: string,
    userId: string,
    routeId: string,
    travelDate: int,
    coach: string,
    row: int,
    column: int,
    passengerName: string,
    passengerAge: int,
    fare: int,
    pnr: string,
    status: Status)
  {
    function SeatOf(): Seat {
      Seat(row, column)
    }
  }

  /**
   * The JSON body a client posts to create a booking. A field is `None`
   * when it is absent or of the wrong JSON type. The server-assigned
   * fields are present only so that a client can (try to) send them.
   */
  datatype BookingRequest = BookingRequest(
    routeId: Option<string>,
    travelDate: Option<int>,
    coach: Option<string>,
    row: Option<int>,
    column: Option<int>,
    passengerName: Option<string>,
    passengerAge: Option<int>,
    id: Option<string>,
    pnr: Option<string>,
    createdAt: Option<string>,
    status: Option<string>,
    userId: Option<string>,
    fare: Option<string>)

  /**
   * A body that passed validation: exactly the client-supplied columns.
   * It has no id, PNR, timestamp, status, user or fare: those are assigned
   * by the server.
   */
  datatype InsertBooking = InsertBooking(
    routeId: string,
    travelDate: int,
    coach: string,
    row: int,
    column: int,
    passengerName: string,
    passengerAge: int)

  datatype Field = RouteIdField | TravelDateField | CoachField | RowField | ColumnField
                 | PassengerNameField | PassengerAgeField

  /** One validation complaint; validation reports all of them at once. */
  datatype Issue =
    | Required(field: Field)
    | AgeBelowMinimum   // "Passenger must be at least 7 years old"
    | AgeAboveMaximum   // "Invalid age"
    | NameEmpty         // "Passenger name is required"

  const MIN_PASSENGER_AGE: int := 7
  const MAX_PASSENGER_AGE: int := 125

  function RequiredIssue<T>(v: Option<T>, f: Field): seq<Issue> {
    if v.None? then [Required(f)] else []
  }

  function NameIssues(name: Option<string>): seq<Issue> {
    match name
    case None => [Required(PassengerNameField)]
    case Some(n) => if |n| < 1 then [NameEmpty] else []
  }

  function AgeIssues(age: Option<int>): seq<Issue> {
    match age
    case None => [Required(PassengerAgeField)]
    case Some(a) =>
      if a < MIN_PASSENGER_AGE then [AgeBelowMinimum]
      else if a > MAX_PASSENGER_AGE then [AgeAboveMaximum]
      else []
  }

  /** Every complaint the insert schema raises about a body, in field order. */
  function Issues(req: BookingRequest): seq<Issue> {
    RequiredIssue(req.routeId, RouteIdField)
    + RequiredIssue(req.travelDate, TravelDateField)
    + RequiredIssue(req.coach, CoachField)
    + RequiredIssue(req.row, RowField)
    + RequiredIssue(req.column, ColumnField)
    + NameIssues(req.passengerName)
    + AgeIssues(req.passengerAge)
  }

  /**
   * Parsing a body with the insert schema. Row and column only have to be
   * integers: no range is imposed on them.
   */
  function ValidateBooking(req: BookingRequest): (r: Result<InsertBooking, seq<Issue>>)
    ensures r.Success? <==>
      && req.routeId.Some? && req.travelDate.Some? && req.coach.Some?
      && req.row.Some? && req.column.Some?
      && req.passengerName.Some? && |req.passengerName.value| >= 1
      && req.passengerAge.Some? && 7 <= req.passengerAge.value <= 125
    ensures r.Success? ==>
      && r.value.routeId == req.routeId.value && r.value.travelDate == req.travelDate.value
      && r.value.coach == req.coach.value
      && r.value.row == req.row.value && r.value.column == req.column.value
      && r.value.passengerName == req.passengerName.value
      && r.value.passengerAge == req.passengerAge.value
    ensures r.Failure? ==> |r.error| > 0
  {
    var issues := Issues(req);
    if |issues| > 0 then Failure(issues)
    else Success(InsertBooking(
      req.routeId.value, req.travelDate.value, req.coach.value,
      req.row.value, req.column.value,
      req.passengerName.value, req.passengerAge.value))
  }

  /** The body with every server-assigned field removed. */
  function WithoutServerFields(req: BookingRequest): BookingRequest {
    req.(id := None, pnr := None, createdAt := None, status := None, userId := None, fare := None)
  }

  /** Whatever id, PNR, timestamp, status, user or fare a client sends, validation ignores it. */
  lemma ServerFieldsIgnored(req: BookingRequest)
    ensures ValidateBooking(req) == ValidateBooking(WithoutServerFields(req))
  {
  }

  /** Any integer row and column pass validation, the grid's range included or not. */
  lemma AnyRowAndColumnValidate(req: BookingRequest, row: int, column: int)
    requires ValidateBooking(req).Success?
    ensures ValidateBooking(req.(row := Some(row), column := Some(column))).Success?
  {
  }
}
