/**
 * The "My Bookings" page: the user's bookings split into upcoming and
 * past/cancelled lists, the cards drawn for each, and the empty state.
 * Travel dates are day numbers whose start is midnight UTC, which is what
 * `new Date("yyyy-mm-dd")` gives; "now" is an instant in milliseconds.
 */
module MyBookings {
  import opened Schema
  import opened Seqs
  import opened Storage

  const MS_PER_DAY: int := 86_400_000

  /** The instant a travel date denotes: its midnight, UTC. */
  function DayStart(day: int): int {
    day * MS_PER_DAY
  }

  predicate IsUpcoming(now: int, b: Booking) {
    b.status == Confirmed && DayStart(b.travelDate) >= now
  }

  predicate IsPast(now: int, b: Booking) {
    b.status == Cancelled || DayStart(b.travelDate) < now
  }

  /** `upcomingBookings`: confirmed bookings whose travel date has not started before now. */
  function Upcoming(bookings: seq<Booking>, now: int): (r: seq<Booking>)
    ensures forall b :: b in r <==> b in bookings && b.status == Confirmed && DayStart(b.travelDate) >= now
  {
    Filter(bookings, (b: Booking) => IsUpcoming(now, b))
  }

  /** `pastBookings`: cancelled bookings, and bookings whose travel date started before now. */
  function Past(bookings: seq<Booking>, now: int): (r: seq<Booking>)
    ensures forall b :: b in r <==> b in bookings && (b.status == Cancelled || DayStart(b.travelDate) < now)
  {
    Filter(bookings, (b: Booking) => IsPast(now, b))
  }

  /**
   * The page reads the clock afresh for each booking and each list, the
   * upcoming filter first. A confirmed booking whose day starts between the
   * two reads is then in both lists.
   */
  lemma BothListsAcrossMidnight(b: Booking, upcomingRead: int, pastRead: int)
    requires b.status == Confirmed
    requires upcomingRead <= DayStart(b.travelDate) < pastRead
    ensures IsUpcoming(upcomingRead, b) && IsPast(pastRead, b)
    ensures b in Upcoming([b], upcomingRead) && b in Past([b], pastRead)
  {
  }

  /** With one reading of the clock, every booking lands in exactly one of the two lists, as often as it occurs. */
  lemma ListsPartitionBookings(bookings: seq<Booking>, now: int)
    ensures multiset(Upcoming(bookings, now)) + multiset(Past(bookings, now)) == multiset(bookings)
    ensures forall b :: b in bookings ==> (b in Upcoming(bookings, now) <==> b !in Past(bookings, now))
  {
    FilterPartition(bookings, (b: Booking) => IsUpcoming(now, b), (b: Booking) => IsPast(now, b));
  }

  /** Both lists keep the server's travel-date order. */
  lemma ListsKeepDateOrder(bookings: seq<Booking>, now: int)
    requires SortedByDate(bookings)
    ensures SortedByDate(Upcoming(bookings, now)) && SortedByDate(Past(bookings, now))
  {
    FilterKeepsSorted(bookings, (b: Booking) => IsUpcoming(now, b), TravelDateOf);
    FilterKeepsSorted(bookings, (b: Booking) => IsPast(now, b), TravelDateOf);
  }

  /**
   * A booking for today counts as past as soon as today has begun (UTC):
   * only at midnight exactly is it still upcoming.
   */
  lemma TodayIsPastAfterMidnight(b: Booking, now: int)
    requires b.status == Confirmed && b.travelDate == now / MS_PER_DAY
    ensures IsUpcoming(now, b) <==> now % MS_PER_DAY == 0
  {
  }

  /** The badge on a past card. */
  datatype Badge = CancelledBadge | CompletedBadge

  /** A card on the page: upcoming cards offer Cancel, past cards carry a badge. */
  datatype Card = UpcomingCard(booking: Booking) | PastCard(booking: Booking, badge: Badge) {
    predicate OffersCancel() {
      UpcomingCard?
    }
  }

  /** "Cancelled" for a cancelled booking; any other past booking is "Completed". */
  function PastBadge(b: Booking): (badge: Badge)
    ensures badge == CancelledBadge <==> b.status == Cancelled
    ensures badge == CompletedBadge <==> b.status.Confirmed?
  {
    if b.status == Cancelled then CancelledBadge else CompletedBadge
  }

  /** What the page draws: the empty state, or the upcoming cards followed by the past cards. */
  datatype View = NoBookingsYet | Lists(upcoming: seq<Card>, past: seq<Card>)

  function Render(bookings: seq<Booking>, now: int): (v: View)
    ensures v.NoBookingsYet? <==> |bookings| == 0
    ensures v.Lists? ==>
      && |v.upcoming| == |Upcoming(bookings, now)| && |v.past| == |Past(bookings, now)|
      && (forall i :: 0 <= i < |v.upcoming| ==>
            v.upcoming[i].booking == Upcoming(bookings, now)[i]
            && v.upcoming[i].OffersCancel() && IsUpcoming(now, v.upcoming[i].booking))
      && (forall i :: 0 <= i < |v.past| ==>
            v.past[i].booking == Past(bookings, now)[i]
            && !v.past[i].OffersCancel() && !IsUpcoming(now, v.past[i].booking)
            && (v.past[i].badge == CancelledBadge <==> v.past[i].booking.status == Cancelled))
  {
    var up := Upcoming(bookings, now);
    var past := Past(bookings, now);
    ListsPartitionBookings(bookings, now);
    if |up| == 0 && |past| == 0 then
      assert multiset(bookings) == multiset{};
      NoBookingsYet
    else
      assert |bookings| != 0;
      Lists(seq(|up|, i requires 0 <= i < |up| => UpcomingCard(up[i])),
            seq(|past|, i requires 0 <= i < |past| => PastCard(past[i], PastBadge(past[i]))))
  }

  /** Cancel is offered for a booking exactly when it is upcoming. */
  lemma CancelOfferedOnlyWhenUpcoming(bookings: seq<Booking>, now: int, b: Booking)
    requires b in bookings
    ensures var v := Render(bookings, now);
      v.Lists? && (exists i :: 0 <= i < |v.upcoming| && v.upcoming[i].booking == b) <==> IsUpcoming(now, b)
  {
    var v := Render(bookings, now);
    var up := Upcoming(bookings, now);
    if IsUpcoming(now, b) {
      assert b in up;
      var k :| 0 <= k < |up| && up[k] == b;
      assert v.upcoming[k].booking == b;
    }
  }
}
