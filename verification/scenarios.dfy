/**
 * Concrete runs of the booking endpoints on the seeded Delhi–Mumbai route:
 * a seat contested by three users, and a seat outside the 5 × 4 grid.
 */
module BookingScenarios {
  import opened Wrappers
  import opened Schema
  import opened Storage
  import opened BookingApi
  import Fare

  const DelhiMumbai: Route := Route("r1", "Delhi to Mumbai Express", "Delhi", "Mumbai", 1400)

  /** A body for an Economy seat on route r1, day 20000. */
  function EconomyRequest(row: int, column: int, age: int): BookingRequest {
    BookingRequest(Some("r1"), Some(20000), Some("ECONOMY"), Some(row), Some(column),
                   Some("Asha"), Some(age), None, None, None, None, None, None)
  }

  /** The code nanoid might return, and the PNR the server makes of it. */
  lemma UpperCasedPnr()
    ensures ServerPnr("abcdefghij") == "ABCDEFGHIJ"
  {
    var u := ServerPnr("abcdefghij");
    assert forall i :: 0 <= i < 10 ==> u[i] == "ABCDEFGHIJ"[i];
  }

  const B1: Booking := Booking("b1", "u1", "r1", 20000, "ECONOMY", 1, 1, "Asha", 30, 280000, "ABCDEFGHIJ", Confirmed)

  /** The first user books seat 1-1 in Economy for 1400 km at age 30: fare 2800.00, PNR upper-cased. */
  lemma FirstBookingStored()
    ensures CreateBookingHandler([], [DelhiMumbai], Some("u1"), EconomyRequest(1, 1, 30), "abcdefghij", "b1")
         == Success(([B1], B1))
  {
    UpperCasedPnr();
    assert FindRoute([DelhiMumbai], "r1") == Some(DelhiMumbai);
    assert !HasPnr([], "ABCDEFGHIJ") && !HasId([], "b1");
  }

  /** A second user asking for the same seat of the same departure is refused. */
  lemma SecondBookingRefused()
    ensures CreateBookingHandler([B1], [DelhiMumbai], Some("u2"), EconomyRequest(1, 1, 45), "klmnopqrst", "b2")
         == Failure(SeatAlreadyBooked)
  {
    assert FindRoute([DelhiMumbai], "r1") == Some(DelhiMumbai);
    assert [B1][0] == B1;
    assert SeatTaken([B1], "r1", 20000, "ECONOMY", Seat(1, 1));
  }

  /** Only the owner's cancellation changes the booking. */
  lemma OnlyOwnerReleasesSeat()
    ensures CancelBookingHandler([B1], Some("u3"), "b1").0 == [B1]
    ensures CancelBookingHandler([B1], Some("u1"), "b1").0 == [B1.(status := Cancelled)]
  {
  }

  /** Once cancelled, the seat can be booked by a third user. */
  lemma ReleasedSeatRebooked()
    ensures CreateBookingHandler([B1.(status := Cancelled)], [DelhiMumbai], Some("u3"), EconomyRequest(1, 1, 65), "uvwxyzabcd", "b3")
      .Success?
  {
    var l := [B1.(status := Cancelled)];
    var req := EconomyRequest(1, 1, 65);
    var d := InsertBooking("r1", 20000, "ECONOMY", 1, 1, "Asha", 65);
    assert ValidateBooking(req) == Success(d);
    assert FindRoute([DelhiMumbai], "r1") == Some(DelhiMumbai);
    assert !SeatTaken(l, "r1", 20000, "ECONOMY", Seat(1, 1)) by {
      assert !Holds(l[0], "r1", 20000, "ECONOMY");
    }
    assert IsCoachKey("ECONOMY") && RateTenths("ECONOMY") == 20;
    assert Fare.FarePaise(1400, 20, 65) == 224000;
    var pnr := ServerPnr("uvwxyzabcd");
    assert pnr[0] == 'U';
    assert !HasPnr(l, pnr) && !HasId(l, "b3");
  }

  /**
   * The first user gets seat 1-1; a second user is refused it; a third
   * user cannot release it, but once its owner cancels, the third user
   * gets it.
   */
  lemma ContestedSeat()
    ensures
      var routes := [DelhiMumbai];
      var first := CreateBookingHandler([], routes, Some("u1"), EconomyRequest(1, 1, 30), "abcdefghij", "b1");
      && first.Success?
      && var l1 := first.value.0;
      && CreateBookingHandler(l1, routes, Some("u2"), EconomyRequest(1, 1, 45), "klmnopqrst", "b2")
           == Failure(SeatAlreadyBooked)
      && CancelBookingHandler(l1, Some("u3"), "b1").0 == l1
      && var l2 := CancelBookingHandler(l1, Some("u1"), "b1").0;
      && CreateBookingHandler(l2, routes, Some("u3"), EconomyRequest(1, 1, 65), "uvwxyzabcd", "b3").Success?
  {
    FirstBookingStored();
    SecondBookingRefused();
    OnlyOwnerReleasesSeat();
    ReleasedSeatRebooked();
  }

  /** The server accepts row 6 and column 9, outside the 5 × 4 grid the seat map draws. */
  lemma SeatOutsideGridAccepted()
    ensures CreateBookingHandler([], [DelhiMumbai], Some("u1"), EconomyRequest(6, 9, 30), "abcdefghij", "b1").Success?
  {
    assert FindRoute([DelhiMumbai], "r1") == Some(DelhiMumbai);
  }

  /**
   * The checks run route, then seat, then coach: a request that fails all
   * three is refused for its route; one whose route exists is refused for
   * its seat before its coach is looked at.
   */
  lemma ChecksRunRouteSeatCoach()
    ensures
      var taken := Booking("b1", "u1", "r1", 20000, "LUXURY", 1, 1, "Asha", 30, 0, "P1", Confirmed);
      var bad := EconomyRequest(1, 1, 30).(coach := Some("LUXURY"));
      && CreateBookingHandler([taken], [DelhiMumbai], Some("u2"), bad.(routeId := Some("r9")), "q", "b2")
           == Failure(InvalidRoute)
      && CreateBookingHandler([taken], [DelhiMumbai], Some("u2"), bad, "q", "b2") == Failure(SeatAlreadyBooked)
      && CreateBookingHandler([], [DelhiMumbai], Some("u2"), bad, "q", "b2") == Failure(InvalidCoachClass)
  {
    var taken := Booking("b1", "u1", "r1", 20000, "LUXURY", 1, 1, "Asha", 30, 0, "P1", Confirmed);
    assert FindRoute([DelhiMumbai], "r1") == Some(DelhiMumbai);
    assert FindRoute([DelhiMumbai], "r9") == None;
    assert [taken][0] == taken;
    assert SeatTaken([taken], "r1", 20000, "LUXURY", Seat(1, 1));
  }

  /**
   * Coach "constructor" on an empty ledger: the corrected create refuses
   * it, the create as written stores it with fare text "NaN", and the
   * stored row breaks the derived-fare part of the invariant.
   */
  lemma ConstructorCoachStoredAsWritten()
    ensures
      var req := EconomyRequest(1, 1, 30).(coach := Some("constructor"));
      var w := CreateBookingHandlerAsWritten([], [DelhiMumbai], Some("u1"), req, "abcdefghij", "b1");
      && CreateBookingHandler([], [DelhiMumbai], Some("u1"), req, "abcdefghij", "b1") == Failure(InvalidCoachClass)
      && w.Success? && w.value.2 == "NaN" && !FaresDerived(w.value.0, [DelhiMumbai])
  {
    var req := EconomyRequest(1, 1, 30).(coach := Some("constructor"));
    assert FindRoute([DelhiMumbai], "r1") == Some(DelhiMumbai);
    assert !IsCoachKey("constructor");
    InheritedCoachCorruptsLedger([], [DelhiMumbai], Some("u1"), req, "abcdefghij", "b1");
  }
}
