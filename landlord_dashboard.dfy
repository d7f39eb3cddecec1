/** `src/app/dashboard/landlord/page.tsx`: the landlord's properties and
    bookings, the approve/reject action and the summary counts. The network
    answers are parameters. */
module LandlordDashboard {
  import opened Domain
  import opened Lists

  function WithStatus(status: BookingStatus): Booking -> Booking
  {
    (b: Booking) => b.(status := status)
  }

  /** The page's state. */
  class Page {
    var properties: seq<Property>
    var bookings: seq<Booking>
    var loading: bool
    var updatingBooking: Option<int>

    constructor()
      ensures properties == [] && bookings == [] && loading && updatingBooking.None?
    {
      properties := [];
      bookings := [];
      loading := true;
      updatingBooking := None;
    }

    /** `fetchDashboard`: the two requests run together (`Promise.all`);
        if either fails, both lists are emptied. */
    method FetchDashboard(propertiesRes: Option<seq<Property>>, bookingsRes: Option<seq<Booking>>)
      modifies this
      ensures propertiesRes.Some? && bookingsRes.Some? ==>
                properties == propertiesRes.value && bookings == bookingsRes.value
      ensures propertiesRes.None? || bookingsRes.None? ==> properties == [] && bookings == []
      ensures !loading && updatingBooking == old(updatingBooking)
    {
      loading := true;
      if propertiesRes.Some? && bookingsRes.Some? {
        properties := propertiesRes.value;
        bookings := bookingsRes.value;
      } else {
        properties := [];
        bookings := [];
      }
      loading := false;
    }

    /** `handleBookingAction`: `ok` is whether the `PUT` succeeded. Only the
        booking with that id takes the new status; a failure changes no
        booking; the busy marker is cleared either way. */
    method BookingAction(bookingId: int, status: BookingStatus, ok: bool)
      requires status == BookingStatus.Approved || status == BookingStatus.Rejected
      modifies this
      ensures !ok ==> bookings == old(bookings)
      ensures ok ==> |bookings| == |old(bookings)| &&
                     forall i :: 0 <= i < |bookings| ==>
                       bookings[i] == if old(bookings)[i].id == bookingId then old(bookings)[i].(status := status)
                                      else old(bookings)[i]
      ensures properties == old(properties) && loading == old(loading) && updatingBooking.None?
    {
      updatingBooking := Some(bookingId);
      if ok {
        bookings := MapWhere(bookings, BookingIdIs(bookingId), WithStatus(status));
      }
      updatingBooking := None;
    }
  }

  /** The counts on the summary cards. */
  datatype Counts = Counts(totalProperties: nat, pendingProperties: nat, approvedProperties: nat,
                           totalBookings: nat, pendingBookings: nat, approvedBookings: nat)

  /** The counts: per approval state and per booking status; the pending
      and approved counts never exceed their totals together. */
  function Summary(properties: seq<Property>, bookings: seq<Booking>): (c: Counts)
    ensures c.totalProperties == |properties| && c.totalBookings == |bookings|
    ensures c.pendingProperties == |Filter(properties, PropertyIs(PropertyStatus.Pending))|
    ensures c.approvedProperties == |Filter(properties, PropertyIs(PropertyStatus.Approved))|
    ensures c.pendingBookings == |Filter(bookings, BookingIs(BookingStatus.Pending))|
    ensures c.approvedBookings == |Filter(bookings, BookingIs(BookingStatus.Approved))|
    ensures c.pendingProperties + c.approvedProperties <= c.totalProperties
    ensures c.pendingBookings + c.approvedBookings <= c.totalBookings
  {
    DisjointFiltersBound(properties, PropertyIs(PropertyStatus.Pending), PropertyIs(PropertyStatus.Approved));
    DisjointFiltersBound(bookings, BookingIs(BookingStatus.Pending), BookingIs(BookingStatus.Approved));
    Counts(|properties|,
           |Filter(properties, PropertyIs(PropertyStatus.Pending))|,
           |Filter(properties, PropertyIs(PropertyStatus.Approved))|,
           |bookings|,
           |Filter(bookings, BookingIs(BookingStatus.Pending))|,
           |Filter(bookings, BookingIs(BookingStatus.Approved))|)
  }

  /** Approving a pending booking moves it from the pending count to the
      approved count when its id is unique. */
  lemma {:induction false} ApprovingMovesOneCount(bookings: seq<Booking>, i: nat)
    requires i < |bookings| && bookings[i].status == BookingStatus.Pending
    requires forall j, k :: 0 <= j < k < |bookings| ==> bookings[j].id != bookings[k].id
    ensures var after := MapWhere(bookings, BookingIdIs(bookings[i].id), WithStatus(BookingStatus.Approved));
            |Filter(after, BookingIs(BookingStatus.Pending))| + 1 == |Filter(bookings, BookingIs(BookingStatus.Pending))| &&
            |Filter(after, BookingIs(BookingStatus.Approved))| == |Filter(bookings, BookingIs(BookingStatus.Approved))| + 1
  {
    var after := MapWhere(bookings, BookingIdIs(bookings[i].id), WithStatus(BookingStatus.Approved));
    assert after == bookings[i := after[i]];
    FilterCountReplace(bookings, i, after[i], BookingIs(BookingStatus.Pending));
    FilterCountReplace(bookings, i, after[i], BookingIs(BookingStatus.Approved));
  }
}
