/**
 * The booking table as a sequence of records in insertion order, with the
 * storage operations the booking flow uses: the occupied-seat query, the
 * insert, the owner-restricted cancellation, and the two read queries.
 */
module Storage {
  import opened Wrappers
  import opened Schema
  import opened Seqs
  import Fare

  type Ledger = seq<Booking>

  /** `b` is a booking for the departure (route, date, coach). */
  predicate OnDeparture(b: Booking, routeId: string, travelDate: int, coach: string) {
    b.routeId == routeId && b.travelDate == travelDate && b.coach == coach
  }

  /** `b` holds its seat on the departure: it is for it and still confirmed. */
  predicate Holds(b: Booking, routeId: string, travelDate: int, coach: string) {
    OnDeparture(b, routeId, travelDate, coach) && b.status == Confirmed
  }

  /** The seats of confirmed bookings for a departure, one entry per booking, in table order. */
  function GetBookedSeats(l: Ledger, routeId: string, travelDate: int, coach: string): (seats: seq<Seat>)
    ensures |seats| <= |l|
    ensures forall s :: s in seats <==>
      exists i :: 0 <= i < |l| && Holds(l[i], routeId, travelDate, coach) && l[i].SeatOf() == s
  {
    if |l| == 0 then []
    else
      var rest := GetBookedSeats(l[1..], routeId, travelDate, coach);
      assert forall s :: s in rest <==>
        exists i :: 1 <= i < |l| && Holds(l[i], routeId, travelDate, coach) && l[i].SeatOf() == s
      by {
        forall s | s in rest
          ensures exists i :: 1 <= i < |l| && Holds(l[i], routeId, travelDate, coach) && l[i].SeatOf() == s
        {
          var k :| 0 <= k < |l[1..]| && Holds(l[1..][k], routeId, travelDate, coach) && l[1..][k].SeatOf() == s;
          assert l[k + 1] == l[1..][k];
        }
        forall s, i | 1 <= i < |l| && Holds(l[i], routeId, travelDate, coach) && l[i].SeatOf() == s
          ensures s in rest
        {
          assert l[1..][i - 1] == l[i];
        }
      }
      if Holds(l[0], routeId, travelDate, coach) then [l[0].SeatOf()] + rest else rest
  }

  /** The seat `seat` is taken on the departure. */
  predicate SeatTaken(l: Ledger, routeId: string, travelDate: int, coach: string, seat: Seat) {
    exists i :: 0 <= i < |l| && Holds(l[i], routeId, travelDate, coach) && l[i].SeatOf() == seat
  }

  predicate HasId(l: Ledger, id: string) {
    exists i :: 0 <= i < |l| && l[i].id == id
  }

  predicate HasPnr(l: Ledger, pnr: string) {
    exists i :: 0 <= i < |l| && l[i].pnr == pnr
  }

  /** Why the table refuses an insert: the fare overflows its column, or a key is already used. */
  datatype InsertError = FareOutOfRange | DuplicateId | DuplicatePnr

  /**
   * Inserting a booking. Its status takes the column default, "confirmed".
   * The table's primary key (id) and the unique PNR column are enforced;
   * nothing constrains seats.
   */
  function CreateBooking(l: Ledger, data: InsertBooking, id: string, userId: string, fare: int, pnr: string)
    : (r: Result<(Ledger, Booking), InsertError>)
    ensures r.Success? <==> Fare.FareFits(fare) && !HasId(l, id) && !HasPnr(l, pnr)
    ensures r.Success? ==>
      var (l', b) := r.value;
      && |l'| == |l| + 1 && l'[..|l|] == l && l'[|l|] == b
      && b.status == Confirmed
      && b.id == id && b.userId == userId && b.fare == fare && b.pnr == pnr
      && b.routeId == data.routeId && b.travelDate == data.travelDate && b.coach == data.coach
      && b.row == data.row && b.column == data.column
      && b.passengerName == data.passengerName && b.passengerAge == data.passengerAge
  {
    if !Fare.FareFits(fare) then Failure(FareOutOfRange)
    else if HasId(l, id) then Failure(DuplicateId)
    else if HasPnr(l, pnr) then Failure(DuplicatePnr)
    else
      var b := Booking(id, userId, data.routeId, data.travelDate, data.coach, data.row, data.column,
                       data.passengerName, data.passengerAge, fare, pnr, Confirmed);
      Success((l + [b], b))
  }

  /** The update cancellation applies to one record. */
  function CancelIfOwned(b: Booking, id: string, userId: string): Booking {
    if b.id == id && b.userId == userId then b.(status := Cancelled) else b
  }

  /**
   * Cancellation: an update setting status "cancelled" where both the id
   * and the owner match. It never fails and never removes a record.
   */
  function CancelBooking(l: Ledger, id: string, userId: string): (l': Ledger)
    ensures |l'| == |l|
    ensures forall i :: 0 <= i < |l| && l[i].id == id && l[i].userId == userId ==>
      l'[i] == l[i].(status := Cancelled)
    ensures forall i :: 0 <= i < |l| && !(l[i].id == id && l[i].userId == userId) ==> l'[i] == l[i]
  {
    if |l| == 0 then []
    else [CancelIfOwned(l[0], id, userId)] + CancelBooking(l[1..], id, userId)
  }

  /** Cancelling twice is the same as cancelling once. */
  lemma CancelIdempotent(l: Ledger, id: string, userId: string)
    ensures CancelBooking(CancelBooking(l, id, userId), id, userId) == CancelBooking(l, id, userId)
  {
  }

  /** An unknown id, or an id owned by someone else, leaves the table unchanged. */
  lemma CancelNotOwnedIsNoOp(l: Ledger, id: string, userId: string)
    requires forall i :: 0 <= i < |l| ==> l[i].id != id || l[i].userId != userId
    ensures CancelBooking(l, id, userId) == l
  {
  }

  /**
   * `l'` keeps every record of `l`, in place, changed at most by a
   * confirmed → cancelled status flip.
   */
  predicate Retains(l: Ledger, l': Ledger) {
    && |l| <= |l'|
    && forall i :: 0 <= i < |l| ==>
         l'[i] == l[i] || (l[i].status == Confirmed && l'[i] == l[i].(status := Cancelled))
  }

  /** No storage operation removes a booking; insertion adds exactly one. */
  lemma StorageNeverRemoves(l: Ledger, data: InsertBooking, id: string, userId: string, fare: int, pnr: string)
    ensures Retains(l, CancelBooking(l, id, userId))
    ensures CreateBooking(l, data, id, userId, fare, pnr).Success? ==>
      Retains(l, CreateBooking(l, data, id, userId, fare, pnr).value.0)
  {
  }

  /** No two records share an id (the primary key). */
  predicate UniqueIds(l: Ledger) {
    forall i, j :: 0 <= i < j < |l| ==> l[i].id != l[j].id
  }

  /** No two records share a PNR (the unique PNR column). */
  predicate UniquePnrs(l: Ledger) {
    forall i, j :: 0 <= i < j < |l| ==> l[i].pnr != l[j].pnr
  }

  /** The table's key constraints survive every cancellation: it changes no id and no PNR. */
  lemma CancelKeepsKeysUnique(l: Ledger, id: string, userId: string)
    requires UniqueIds(l) && UniquePnrs(l)
    ensures var l' := CancelBooking(l, id, userId); UniqueIds(l') && UniquePnrs(l')
  {
    var l' := CancelBooking(l, id, userId);
    forall i, j | 0 <= i < j < |l'|
      ensures l'[i].id != l'[j].id && l'[i].pnr != l'[j].pnr
    {
      assert l'[i].id == l[i].id && l'[i].pnr == l[i].pnr;
      assert l'[j].id == l[j].id && l'[j].pnr == l[j].pnr;
    }
  }

  /** The table's key constraints survive every insert it accepts. */
  lemma InsertKeepsKeysUnique(l: Ledger, data: InsertBooking, id: string, userId: string, fare: int, pnr: string)
    requires UniqueIds(l) && UniquePnrs(l)
    ensures var r := CreateBooking(l, data, id, userId, fare, pnr);
      r.Success? ==> UniqueIds(r.value.0) && UniquePnrs(r.value.0)
  {
    var r := CreateBooking(l, data, id, userId, fare, pnr);
    if r.Success? {
      var l' := r.value.0;
      forall i, j | 0 <= i < j < |l'|
        ensures l'[i].id != l'[j].id && l'[i].pnr != l'[j].pnr
      {
        if j == |l| {
          assert l'[i] == l[i];
        } else {
          assert l'[i] == l[i] && l'[j] == l[j];
        }
      }
    }
  }

  function TravelDateOf(b: Booking): int {
    b.travelDate
  }

  /** Ordered by travel date, as `ORDER BY travel_date` returns rows. */
  predicate SortedByDate(s: seq<Booking>) {
    SortedBy(s, TravelDateOf)
  }

  /** Inserts `b` into a date-ordered sequence, before the first later-or-equal date. */
  function InsertByDate(b: Booking, s: seq<Booking>): (r: seq<Booking>)
    requires SortedByDate(s)
    ensures SortedByDate(r)
    ensures multiset(r) == multiset(s) + multiset{b}
    ensures forall x :: x in r <==> x == b || x in s
  {
    if |s| == 0 then [b]
    else if b.travelDate <= s[0].travelDate then
      ConsKeepsDateOrder(b, s);
      [b] + s
    else
      assert s == [s[0]] + s[1..];
      var rest := InsertByDate(b, s[1..]);
      assert forall x :: x in rest ==> s[0].travelDate <= x.travelDate;
      ConsKeepsDateOrder(s[0], rest);
      [s[0]] + rest
  }

  /** Putting a booking no later than all of `s` in front of it keeps the date order. */
  lemma ConsKeepsDateOrder(b: Booking, s: seq<Booking>)
    requires SortedByDate(s)
    requires forall x :: x in s ==> b.travelDate <= x.travelDate
    ensures SortedByDate([b] + s)
  {
    var r := [b] + s;
    forall i, j | 0 <= i < j < |r|
      ensures TravelDateOf(r[i]) <= TravelDateOf(r[j])
    {
      assert r[j] == s[j - 1];
      if i > 0 {
        assert r[i] == s[i - 1];
      }
    }
  }

  /** The rows ordered by travel date (`ORDER BY travel_date`). */
  function SortByDate(s: seq<Booking>): (r: seq<Booking>)
    ensures SortedByDate(r)
    ensures multiset(r) == multiset(s)
  {
    if |s| == 0 then []
    else
      assert s == [s[0]] + s[1..];
      InsertByDate(s[0], SortByDate(s[1..]))
  }

  /** A user's bookings, all statuses included, ordered by travel date. */
  function GetUserBookings(l: Ledger, userId: string): (r: seq<Booking>)
    ensures SortedByDate(r)
    ensures multiset(r) == multiset(Filter(l, (b: Booking) => b.userId == userId))
    ensures forall b :: b in r <==> b in l && b.userId == userId
  {
    var mine := Filter(l, (b: Booking) => b.userId == userId);
    var r := SortByDate(mine);
    assert forall b :: b in r <==> b in multiset(r);
    r
  }

  /** The first booking with PNR `pnr`, if there is one. */
  function GetBookingByPnr(l: Ledger, pnr: string): (r: Option<Booking>)
    ensures r.Some? ==> r.value in l && r.value.pnr == pnr
    ensures r.None? <==> !HasPnr(l, pnr)
  {
    if |l| == 0 then None
    else if l[0].pnr == pnr then Some(l[0])
    else
      var r := GetBookingByPnr(l[1..], pnr);
      assert HasPnr(l[1..], pnr) ==> HasPnr(l, pnr) by {
        if HasPnr(l[1..], pnr) {
          var k :| 0 <= k < |l[1..]| && l[1..][k].pnr == pnr;
          assert l[k + 1].pnr == pnr;
        }
      }
      assert HasPnr(l, pnr) ==> HasPnr(l[1..], pnr) by {
        if HasPnr(l, pnr) {
          var k :| 0 <= k < |l| && l[k].pnr == pnr;
          assert k > 0 && l[1..][k - 1] == l[k];
        }
      }
      r
  }

  /** With unique PNRs, the lookup finds the one booking that carries the PNR. */
  lemma PnrLookupFindsTheBooking(l: Ledger, i: int)
    requires UniquePnrs(l) && 0 <= i < |l|
    ensures GetBookingByPnr(l, l[i].pnr) == Some(l[i])
  {
    var r := GetBookingByPnr(l, l[i].pnr);
    assert HasPnr(l, l[i].pnr);
    var k :| 0 <= k < |l| && l[k] == r.value;
  }
}
