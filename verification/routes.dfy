/**
 * The booking endpoints: the decision sequence of POST /api/bookings
 * (authentication, schema validation, route lookup, seat check, coach
 * check, fare and PNR assignment, insert) and DELETE /api/bookings/:id,
 * with the ledger invariants they keep when requests run one at a time.
 */
module BookingApi {
  import opened Wrappers
  import opened Text
  import opened Schema
  import opened Storage
  import Fare

  /** The first route with the given id. */
  function FindRoute(routes: seq<Route>, id: string): (r: Option<Route>)
    ensures r.Some? ==> r.value in routes && r.value.id == id
    ensures r.None? <==> forall i :: 0 <= i < |routes| ==> routes[i].id != id
  {
    if |routes| == 0 then None
    else if routes[0].id == id then Some(routes[0])
    else
      var r := FindRoute(routes[1..], id);
      assert forall i :: 1 <= i < |routes| ==> routes[i] == routes[1..][i - 1];
      r
  }

  /** Why a create request is refused. */
  datatype CreateError =
    | NotAuthenticated
    | InvalidBody(issues: seq<Issue>)
    | InvalidRoute
    | SeatAlreadyBooked
    | InvalidCoachClass
    | InsertRejected(reason: InsertError)

  /** The HTTP status of a refusal: 401 without a session, 400 for everything else. */
  function CreateErrorStatus(e: CreateError): (code: int)
    ensures code == 401 <==> e.NotAuthenticated?
    ensures code == 400 || code == 401
  {
    if e.NotAuthenticated? then 401 else 400
  }

  /**
   * The PNR the server stores: the generated code, upper-cased. It agrees
   * with the code letter by letter up to case.
   */
  function ServerPnr(generated: string): (pnr: string)
    ensures |pnr| == |generated|
    ensures forall i :: 0 <= i < |pnr| ==> !('a' <= pnr[i] <= 'z')
    ensures forall i :: 0 <= i < |pnr| ==> LowerChar(pnr[i]) == LowerChar(generated[i])
  {
    ToUpper(generated)
  }

  /**
   * POST /api/bookings. `session` is the logged-in user, `generated` the
   * random code the PNR is made from, `newId` the id the table would
   * assign. Row and column are not range-checked; the checks run route,
   * then seat, then coach; the first failure wins and nothing is stored.
   */
  function CreateBookingHandler(
    l: Ledger, routes: seq<Route>, session: Option<string>, req: BookingRequest,
    generated: string, newId: string): (r: Result<(Ledger, Booking), CreateError>)
    ensures session.None? ==> r == Failure(NotAuthenticated)
    ensures session.Some? && ValidateBooking(req).Failure? ==> r == Failure(InvalidBody(ValidateBooking(req).error))
    ensures session.Some? && ValidateBooking(req).Success? ==>
      var d := ValidateBooking(req).value;
      && (FindRoute(routes, d.routeId).None? ==> r == Failure(InvalidRoute))
      && (FindRoute(routes, d.routeId).Some? ==>
            var taken := SeatTaken(l, d.routeId, d.travelDate, d.coach, Seat(d.row, d.column));
            && (taken ==> r == Failure(SeatAlreadyBooked))
            && (!taken && !IsCoachKey(d.coach) ==> r == Failure(InvalidCoachClass)))
    ensures session.Some? && ValidateBooking(req).Success? ==>
      var d := ValidateBooking(req).value;
      var route := FindRoute(routes, d.routeId);
      route.Some? && !SeatTaken(l, d.routeId, d.travelDate, d.coach, Seat(d.row, d.column)) && IsCoachKey(d.coach) ==>
        var fare := Fare.FarePaise(route.value.distanceKm, RateTenths(d.coach), d.passengerAge);
        && (r.Success? <==> Fare.FareFits(fare) && !HasId(l, newId) && !HasPnr(l, ServerPnr(generated)))
        && (r.Failure? ==> r.error.InsertRejected?)
    ensures r.Success? ==>
      var (l', b) := r.value;
      var d := ValidateBooking(req).value;
      && session.Some? && ValidateBooking(req).Success?
      && l' == l + [b]
      && b.userId == session.value && b.status == Confirmed && b.id == newId
      && b.pnr == ServerPnr(generated)
      && b.routeId == d.routeId && b.travelDate == d.travelDate && b.coach == d.coach
      && b.row == d.row && b.column == d.column
      && b.passengerName == d.passengerName && b.passengerAge == d.passengerAge
      && IsCoachKey(b.coach)
      && FindRoute(routes, b.routeId).Some?
      && !SeatTaken(l, b.routeId, b.travelDate, b.coach, b.SeatOf())
      && b.fare == Fare.FarePaise(FindRoute(routes, b.routeId).value.distanceKm, RateTenths(b.coach), b.passengerAge)
  {
    if session.None? then Failure(NotAuthenticated)
    else
      match ValidateBooking(req)
      case Failure(issues) => Failure(InvalidBody(issues))
      case Success(d) =>
        match FindRoute(routes, d.routeId)
        case None => Failure(InvalidRoute)
        case Some(route) =>
          var booked := GetBookedSeats(l, d.routeId, d.travelDate, d.coach);
          if Seat(d.row, d.column) in booked then Failure(SeatAlreadyBooked)
          else if !IsCoachKey(d.coach) then Failure(InvalidCoachClass)
          else
            var fare := Fare.FarePaise(route.distanceKm, RateTenths(d.coach), d.passengerAge);
            match CreateBooking(l, d, newId, session.value, fare, ServerPnr(generated))
            case Failure(e) => Failure(InsertRejected(e))
            case Success(res) => Success(res)
  }

  /** Whatever id, PNR, status, user or fare the client puts in the body, the outcome is the same. */
  lemma ClientCannotChooseServerFields(
    l: Ledger, routes: seq<Route>, session: Option<string>, req: BookingRequest, generated: string, newId: string)
    ensures CreateBookingHandler(l, routes, session, req, generated, newId)
         == CreateBookingHandler(l, routes, session, WithoutServerFields(req), generated, newId)
  {
    ServerFieldsIgnored(req);
  }

  /** A PNR that collides with a stored one makes the insert fail, reported as 400, with no retry. */
  lemma PnrCollisionIsRejected(
    l: Ledger, routes: seq<Route>, session: Option<string>, req: BookingRequest, generated: string, newId: string)
    requires session.Some?
    requires HasPnr(l, ServerPnr(generated))
    ensures var r := CreateBookingHandler(l, routes, session, req, generated, newId);
      r.Failure? && CreateErrorStatus(r.error) == 400
  {
  }

  /** No two confirmed bookings hold the same seat of the same departure. */
  predicate NoDoubleBooking(l: Ledger) {
    forall i, j :: 0 <= i < j < |l| && Holds(l[i], l[j].routeId, l[j].travelDate, l[j].coach) && l[j].status == Confirmed
      ==> l[i].SeatOf() != l[j].SeatOf()
  }

  /** Every stored fare is the server's fare for the booking's route, coach and passenger age. */
  predicate FaresDerived(l: Ledger, routes: seq<Route>) {
    forall i :: 0 <= i < |l| ==>
      && IsCoachKey(l[i].coach)
      && FindRoute(routes, l[i].routeId).Some?
      && l[i].fare == Fare.FarePaise(FindRoute(routes, l[i].routeId).value.distanceKm, RateTenths(l[i].coach), l[i].passengerAge)
  }

  /** The invariant the ledger keeps under sequential creates and cancels. */
  predicate LedgerInvariant(l: Ledger, routes: seq<Route>) {
    NoDoubleBooking(l) && UniqueIds(l) && UniquePnrs(l) && FaresDerived(l, routes)
  }

  /** A successful create keeps the invariant: in particular no seat is then held twice. */
  lemma CreatePreservesInvariant(
    l: Ledger, routes: seq<Route>, session: Option<string>, req: BookingRequest, generated: string, newId: string)
    requires LedgerInvariant(l, routes)
    ensures var r := CreateBookingHandler(l, routes, session, req, generated, newId);
      r.Success? ==> LedgerInvariant(r.value.0, routes)
  {
    var r := CreateBookingHandler(l, routes, session, req, generated, newId);
    if r.Success? {
      var (l', b) := r.value;
      var d := ValidateBooking(req).value;
      InsertKeepsKeysUnique(l, d, newId, session.value, b.fare, b.pnr);
      assert CreateBooking(l, d, newId, session.value, b.fare, b.pnr) == Success((l', b));
      forall i, j | 0 <= i < j < |l'| && Holds(l'[i], l'[j].routeId, l'[j].travelDate, l'[j].coach) && l'[j].status == Confirmed
        ensures l'[i].SeatOf() != l'[j].SeatOf()
      {
        if j == |l| {
          assert l'[i] == l[i];
        } else {
          assert l'[i] == l[i] && l'[j] == l[j];
        }
      }
      forall i | 0 <= i < |l'|
        ensures IsCoachKey(l'[i].coach) && FindRoute(routes, l'[i].routeId).Some?
        ensures l'[i].fare == Fare.FarePaise(FindRoute(routes, l'[i].routeId).value.distanceKm, RateTenths(l'[i].coach), l'[i].passengerAge)
      {
        if i < |l| {
          assert l'[i] == l[i];
        }
      }
    }
  }

  /** A cancellation keeps the invariant: it only releases seats. */
  lemma CancelPreservesInvariant(l: Ledger, routes: seq<Route>, id: string, userId: string)
    requires LedgerInvariant(l, routes)
    ensures LedgerInvariant(CancelBooking(l, id, userId), routes)
  {
    var l' := CancelBooking(l, id, userId);
    CancelKeepsKeysUnique(l, id, userId);
    CancelKeepsNoDoubleBooking(l, id, userId);
    forall i | 0 <= i < |l'|
      ensures IsCoachKey(l'[i].coach) && FindRoute(routes, l'[i].routeId).Some?
      ensures l'[i].fare == Fare.FarePaise(FindRoute(routes, l'[i].routeId).value.distanceKm, RateTenths(l'[i].coach), l'[i].passengerAge)
    {
      assert l'[i].coach == l[i].coach && l'[i].routeId == l[i].routeId;
      assert l'[i].fare == l[i].fare && l'[i].passengerAge == l[i].passengerAge;
    }
  }

  /** A cancellation holds no seat it did not hold before, so no seat becomes held twice. */
  lemma CancelKeepsNoDoubleBooking(l: Ledger, id: string, userId: string)
    requires NoDoubleBooking(l)
    ensures NoDoubleBooking(CancelBooking(l, id, userId))
  {
    var l' := CancelBooking(l, id, userId);
    forall i, j | 0 <= i < j < |l'| && Holds(l'[i], l'[j].routeId, l'[j].travelDate, l'[j].coach) && l'[j].status == Confirmed
      ensures l'[i].SeatOf() != l'[j].SeatOf()
    {
      assert l'[i] == l[i] && l'[j] == l[j];
    }
  }

  /** The answer to DELETE /api/bookings/:id. */
  datatype CancelResponse = CancelUnauthenticated | CancelOk(message: string)

  function CancelResponseStatus(r: CancelResponse): int {
    if r.CancelUnauthenticated? then 401 else 200
  }

  /**
   * DELETE /api/bookings/:id: without a session, 401 and no change;
   * otherwise the owner-restricted cancellation, reported as a success
   * whether or not any booking changed.
   */
  function CancelBookingHandler(l: Ledger, session: Option<string>, id: string): (r: (Ledger, CancelResponse))
    ensures session.None? ==> r.0 == l && CancelResponseStatus(r.1) == 401
    ensures session.Some? ==> r.1 == CancelOk("Booking cancelled successfully") && CancelResponseStatus(r.1) == 200
    ensures session.Some? ==> |r.0| == |l| && forall i :: 0 <= i < |l| ==>
      r.0[i] == (if l[i].id == id && l[i].userId == session.value then l[i].(status := Cancelled) else l[i])
  {
    match session
    case None => (l, CancelUnauthenticated)
    case Some(u) => (CancelBooking(l, id, u), CancelOk("Booking cancelled successfully"))
  }

  /** Every handler call, successful or not, keeps the ledger invariant. */
  lemma HandlersPreserveInvariant(
    l: Ledger, routes: seq<Route>, session: Option<string>, req: BookingRequest,
    generated: string, newId: string, id: string)
    requires LedgerInvariant(l, routes)
    ensures LedgerInvariant(CancelBookingHandler(l, session, id).0, routes)
    ensures var r := CreateBookingHandler(l, routes, session, req, generated, newId);
      LedgerInvariant(if r.Success? then r.value.0 else l, routes)
  {
    CreatePreservesInvariant(l, routes, session, req, generated, newId);
    if session.Some? {
      CancelPreservesInvariant(l, routes, id, session.value);
    }
  }

  /**
   * The coach-class check as written: `!COACH_CLASSES[coachKey]` refuses
   * only keys that read as `undefined`, so a member inherited from
   * `Object.prototype` passes it.
   */
  predicate CoachCheckPassesAsWritten(key: string)
    ensures CoachCheckPassesAsWritten(key) <==> IsCoachKey(key) || key in OBJECT_PROTOTYPE_MEMBERS
  {
    !CoachPropertyAsWritten(key).Undefined?
  }

  /**
   * The fare text stored as written: for an inherited member, `ratePerKm`
   * is `undefined`, the product is NaN, and `toFixed(2)` gives "NaN".
   */
  function FareTextAsWritten(distanceKm: int, key: string, age: int): (s: string)
    requires CoachCheckPassesAsWritten(key)
    ensures IsCoachKey(key) ==> Fare.ParseFare(s) == Some(Fare.FarePaise(distanceKm, RateTenths(key), age))
    ensures !IsCoachKey(key) ==> Fare.ParseFare(s).None?
  {
    match CoachPropertyAsWritten(key)
    case OwnEntry(c) =>
      Fare.ParseFormatFare(Fare.FarePaise(distanceKm, c.rateTenths, age));
      Fare.FormatFare(Fare.FarePaise(distanceKm, c.rateTenths, age))
    case InheritedMember => "NaN"
  }

  /**
   * A coach named "constructor" passes the check as written and is priced
   * at "NaN", though it is no coach class; the corrected check refuses it.
   */
  lemma InheritedCoachNameSlipsThrough()
    ensures CoachCheckPassesAsWritten("constructor")
    ensures FareTextAsWritten(1400, "constructor", 30) == "NaN"
    ensures !IsCoachKey("constructor")
  {
  }

  /**
   * POST /api/bookings as written: the coach check lets inherited
   * `Object.prototype` names through, and the fare column then receives
   * the text "NaN", which the decimal column accepts. The third component
   * is the fare column's text. The ledger's fare is an integer and has no
   * NaN, so a row whose text is not a number is appended with fare 0.
   */
  function CreateBookingHandlerAsWritten(
    l: Ledger, routes: seq<Route>, session: Option<string>, req: BookingRequest,
    generated: string, newId: string): (r: Result<(Ledger, Booking, string), CreateError>)
    ensures session.None? ==> r == Failure(NotAuthenticated)
    ensures r.Success? ==>
      var (l', b, text) := r.value;
      && session.Some? && ValidateBooking(req).Success?
      && l' == l + [b]
      && b.userId == session.value && b.status == Confirmed && b.pnr == ServerPnr(generated)
      && b.id == newId && !HasId(l, newId) && !HasPnr(l, b.pnr)
      && CoachCheckPassesAsWritten(b.coach)
      && FindRoute(routes, b.routeId).Some?
      && !SeatTaken(l, b.routeId, b.travelDate, b.coach, b.SeatOf())
      && text == FareTextAsWritten(FindRoute(routes, b.routeId).value.distanceKm, b.coach, b.passengerAge)
      && (if IsCoachKey(b.coach) then Fare.ParseFare(text) == Some(b.fare) else Fare.ParseFare(text).None? && b.fare == 0)
  {
    if session.None? then Failure(NotAuthenticated)
    else
      match ValidateBooking(req)
      case Failure(issues) => Failure(InvalidBody(issues))
      case Success(d) =>
        match FindRoute(routes, d.routeId)
        case None => Failure(InvalidRoute)
        case Some(route) =>
          var booked := GetBookedSeats(l, d.routeId, d.travelDate, d.coach);
          if Seat(d.row, d.column) in booked then Failure(SeatAlreadyBooked)
          else if !CoachCheckPassesAsWritten(d.coach) then Failure(InvalidCoachClass)
          else
            var text := FareTextAsWritten(route.distanceKm, d.coach, d.passengerAge);
            var fare := match Fare.ParseFare(text) case Some(p) => p case None => 0;
            match CreateBooking(l, d, newId, session.value, fare, ServerPnr(generated))
            case Failure(e) => Failure(InsertRejected(e))
            case Success(res) => Success((res.0, res.1, text))
  }

  /**
   * Unless the coach names an `Object.prototype` member, the create as
   * written and the corrected create give the same answer, and the stored
   * fare text is the corrected fare formatted with two decimals.
   */
  lemma CreateAsWrittenAgreesOffPrototype(
    l: Ledger, routes: seq<Route>, session: Option<string>, req: BookingRequest, generated: string, newId: string)
    requires ValidateBooking(req).Success? ==> ValidateBooking(req).value.coach !in OBJECT_PROTOTYPE_MEMBERS
    ensures var w := CreateBookingHandlerAsWritten(l, routes, session, req, generated, newId);
      var c := CreateBookingHandler(l, routes, session, req, generated, newId);
      && (w.Success? <==> c.Success?)
      && (w.Failure? ==> w.error == c.error)
      && (w.Success? ==> w.value.0 == c.value.0 && w.value.1 == c.value.1 && w.value.2 == Fare.FormatFare(c.value.1.fare))
  {
    if session.Some? && ValidateBooking(req).Success? {
      var d := ValidateBooking(req).value;
      CoachChecksAgreeOffPrototype(d.coach);
      var route := FindRoute(routes, d.routeId);
      if route.Some? && IsCoachKey(d.coach) {
        var fare := Fare.FarePaise(route.value.distanceKm, RateTenths(d.coach), d.passengerAge);
        Fare.ParseFormatFare(fare);
        assert FareTextAsWritten(route.value.distanceKm, d.coach, d.passengerAge) == Fare.FormatFare(fare);
      }
    }
  }

  /**
   * The create as written breaks the ledger invariant: a coach named after
   * an `Object.prototype` member, on a valid route with a free seat and
   * fresh keys, is stored with fare text "NaN". No seat is then held twice
   * and the keys stay unique, but the new row has no coach class, so the
   * fares are no longer derived from the coach table.
   */
  lemma InheritedCoachCorruptsLedger(
    l: Ledger, routes: seq<Route>, session: Option<string>, req: BookingRequest, generated: string, newId: string)
    requires LedgerInvariant(l, routes)
    requires session.Some? && ValidateBooking(req).Success?
    requires ValidateBooking(req).value.coach in OBJECT_PROTOTYPE_MEMBERS
    requires FindRoute(routes, ValidateBooking(req).value.routeId).Some?
    requires var d := ValidateBooking(req).value;
      !SeatTaken(l, d.routeId, d.travelDate, d.coach, Seat(d.row, d.column))
    requires !HasId(l, newId) && !HasPnr(l, ServerPnr(generated))
    ensures var w := CreateBookingHandlerAsWritten(l, routes, session, req, generated, newId);
      && w.Success?
      && w.value.2 == "NaN"
      && NoDoubleBooking(w.value.0) && UniqueIds(w.value.0) && UniquePnrs(w.value.0)
      && !FaresDerived(w.value.0, routes)
  {
    var d := ValidateBooking(req).value;
    InheritedCoachIsStored(l, routes, session, req, generated, newId);
    var w := CreateBookingHandlerAsWritten(l, routes, session, req, generated, newId);
    var (l', b, text) := w.value;
    InsertKeepsKeysUnique(l, d, newId, session.value, 0, ServerPnr(generated));
    AppendFreeSeatKeepsNoDoubleBooking(l, b);
    assert l'[|l|] == b;
  }

  /**
   * Whatever fares the ledger holds, a create as written keeps every seat
   * held at most once and the ids and PNRs unique: those parts of the
   * invariant do not depend on the fares, so they survive "NaN" rows.
   */
  lemma AsWrittenKeepsSeatsAndKeys(
    l: Ledger, routes: seq<Route>, session: Option<string>, req: BookingRequest, generated: string, newId: string)
    requires NoDoubleBooking(l) && UniqueIds(l) && UniquePnrs(l)
    ensures var w := CreateBookingHandlerAsWritten(l, routes, session, req, generated, newId);
      w.Success? ==> NoDoubleBooking(w.value.0) && UniqueIds(w.value.0) && UniquePnrs(w.value.0)
  {
    var w := CreateBookingHandlerAsWritten(l, routes, session, req, generated, newId);
    if w.Success? {
      var (l', b, text) := w.value;
      var d := ValidateBooking(req).value;
      AppendFreeSeatKeepsNoDoubleBooking(l, b);
      InsertKeepsKeysUnique(l, d, newId, session.value, b.fare, b.pnr);
      assert CreateBooking(l, d, newId, session.value, b.fare, b.pnr) == Success((l', b));
    }
  }

  /** The create as written stores an `Object.prototype` coach name as the insert of fare 0 with text "NaN". */
  lemma InheritedCoachIsStored(
    l: Ledger, routes: seq<Route>, session: Option<string>, req: BookingRequest, generated: string, newId: string)
    requires session.Some? && ValidateBooking(req).Success?
    requires ValidateBooking(req).value.coach in OBJECT_PROTOTYPE_MEMBERS
    requires FindRoute(routes, ValidateBooking(req).value.routeId).Some?
    requires var d := ValidateBooking(req).value;
      !SeatTaken(l, d.routeId, d.travelDate, d.coach, Seat(d.row, d.column))
    requires !HasId(l, newId) && !HasPnr(l, ServerPnr(generated))
    ensures var w := CreateBookingHandlerAsWritten(l, routes, session, req, generated, newId);
      && w.Success? && w.value.2 == "NaN" && !IsCoachKey(w.value.1.coach)
      && CreateBooking(l, ValidateBooking(req).value, newId, session.value, 0, ServerPnr(generated))
           == Success((w.value.0, w.value.1))
  {
    var d := ValidateBooking(req).value;
    assert !IsCoachKey(d.coach);
    assert CoachPropertyAsWritten(d.coach) == InheritedMember;
    assert Fare.ParseFare("NaN").None?;
  }

  /** Appending a booking on a seat no confirmed booking holds keeps every seat held at most once. */
  lemma AppendFreeSeatKeepsNoDoubleBooking(l: Ledger, b: Booking)
    requires NoDoubleBooking(l)
    requires !SeatTaken(l, b.routeId, b.travelDate, b.coach, b.SeatOf())
    ensures NoDoubleBooking(l + [b])
  {
    var l' := l + [b];
    forall i, j | 0 <= i < j < |l'| && Holds(l'[i], l'[j].routeId, l'[j].travelDate, l'[j].coach) && l'[j].status == Confirmed
      ensures l'[i].SeatOf() != l'[j].SeatOf()
    {
      if j < |l| {
        assert l'[i] == l[i] && l'[j] == l[j];
      }
    }
  }

  /** On every string that is not an `Object.prototype` member, the check as written and the corrected one agree. */
  lemma CoachChecksAgreeOffPrototype(key: string)
    requires key !in OBJECT_PROTOTYPE_MEMBERS
    ensures CoachCheckPassesAsWritten(key) <==> IsCoachKey(key)
  {
  }
}
