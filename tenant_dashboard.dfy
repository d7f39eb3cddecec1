/** `src/app/dashboard/tenant/page.tsx`: the tenant's booking list, the
    pending sub-list, cancellation and the status counts. The network
    answers are parameters. */
module TenantDashboard {
  import opened Domain
  import opened Lists

  const LoadFailed := "Failed to load your bookings"

  function Cancel(b: Booking): Booking
  {
    b.(status := BookingStatus.Cancelled)
  }

  /** The page's state. */
  class Page {
    var bookings: seq<Booking>
    var pendingBookings: seq<Booking>
    var loading: bool
    var error: Option<string>
    var updating: Option<int>

    /** The pending list is exactly the pending bookings, in their order. */
    ghost predicate Consistent()
      reads this
    {
      pendingBookings == Filter(bookings, BookingIs(BookingStatus.Pending))
    }

    constructor()
      ensures bookings == [] && pendingBookings == [] && loading && error.None? && updating.None?
      ensures Consistent()
    {
      bookings := [];
      pendingBookings := [];
      loading := true;
      error := None;
      updating := None;
    }

    /** `fetchBookings`; `response` is the list `GET /api/bookings` returned,
        `None` when the request failed. */
    method FetchBookings(response: Option<seq<Booking>>)
      modifies this
      ensures response.Some? ==> bookings == response.value && error.None? &&
                                 pendingBookings == Filter(response.value, BookingIs(BookingStatus.Pending))
      ensures response.None? ==> bookings == [] && pendingBookings == [] && error == Some(LoadFailed)
      ensures !loading && updating == old(updating)
      ensures Consistent()
    {
      loading := true;
      error := None;
      if response.Some? {
        var data := response.value;
        bookings := data;
        pendingBookings := Filter(data, BookingIs(BookingStatus.Pending));
      } else {
        error := Some(LoadFailed);
        bookings := [];
        pendingBookings := [];
      }
      loading := false;
    }

    /** `handleCancelBooking`: `confirmed` is the answer to the confirm
        dialog and `ok` whether the `PUT` succeeded. Only the booking with
        that id becomes CANCELLED and only it leaves the pending list; a
        declined or failed cancel changes neither list. */
    method CancelBooking(bookingId: int, confirmed: bool, ok: bool)
      modifies this
      ensures !confirmed ==> bookings == old(bookings) && pendingBookings == old(pendingBookings) &&
                             updating == old(updating)
      ensures confirmed ==> updating.None?
      ensures confirmed && !ok ==> bookings == old(bookings) && pendingBookings == old(pendingBookings)
      ensures confirmed && ok ==>
                |bookings| == |old(bookings)| &&
                (forall i :: 0 <= i < |bookings| ==>
                   bookings[i] == if old(bookings)[i].id == bookingId then Cancel(old(bookings)[i]) else old(bookings)[i]) &&
                pendingBookings == Filter(old(pendingBookings), BookingIdIsNot(bookingId))
      ensures loading == old(loading) && error == old(error)
      ensures old(Consistent()) ==> Consistent()
    {
      if !confirmed {
        return;
      }
      updating := Some(bookingId);
      if ok {
        ghost var before := bookings;
        bookings := MapWhere(bookings, BookingIdIs(bookingId), Cancel);
        pendingBookings := Filter(pendingBookings, BookingIdIsNot(bookingId));
        FilterAfterMapWhere(before, BookingIs(BookingStatus.Pending), BookingIdIs(bookingId),
                            BookingIdIsNot(bookingId), Cancel);
      }
      updating := None;
    }
  }

  /** With ids unique in the pending list, cancelling the booking at
      position `i` removes exactly that position. */
  lemma CancelDropsOnePending(pending: seq<Booking>, i: nat)
    requires i < |pending|
    requires forall j, k :: 0 <= j < k < |pending| ==> pending[j].id != pending[k].id
    ensures Filter(pending, BookingIdIsNot(pending[i].id)) == pending[..i] + pending[i + 1..]
  {
    FilterDropsOne(pending, BookingIdIsNot(pending[i].id), i);
  }

  /** The figures on the summary cards. */
  datatype BookingStats = BookingStats(total: nat, pending: nat, approved: nat, rejected: nat,
                                       cancelled: nat, completed: nat)

  /** Every booking is in exactly one of the five states. */
  lemma {:induction false} StatusCountsSum(s: seq<Booking>)
    ensures |Filter(s, BookingIs(BookingStatus.Pending))| + |Filter(s, BookingIs(BookingStatus.Approved))| +
            |Filter(s, BookingIs(BookingStatus.Rejected))| + |Filter(s, BookingIs(BookingStatus.Cancelled))| +
            |Filter(s, BookingIs(BookingStatus.Completed))| == |s|
  {
    if s != [] {
      StatusCountsSum(s[1..]);
    }
  }

  /** `stats`: one count per status; the five add up to the total. */
  function Stats(bookings: seq<Booking>): (s: BookingStats)
    ensures s.total == |bookings|
    ensures s.pending == |Filter(bookings, BookingIs(BookingStatus.Pending))|
    ensures s.approved == |Filter(bookings, BookingIs(BookingStatus.Approved))|
    ensures s.rejected == |Filter(bookings, BookingIs(BookingStatus.Rejected))|
    ensures s.cancelled == |Filter(bookings, BookingIs(BookingStatus.Cancelled))|
    ensures s.completed == |Filter(bookings, BookingIs(BookingStatus.Completed))|
    ensures s.pending + s.approved + s.rejected + s.cancelled + s.completed == s.total
  {
    StatusCountsSum(bookings);
    BookingStats(|bookings|,
                 |Filter(bookings, BookingIs(BookingStatus.Pending))|,
                 |Filter(bookings, BookingIs(BookingStatus.Approved))|,
                 |Filter(bookings, BookingIs(BookingStatus.Rejected))|,
                 |Filter(bookings, BookingIs(BookingStatus.Cancelled))|,
                 |Filter(bookings, BookingIs(BookingStatus.Completed))|)
  }
}
