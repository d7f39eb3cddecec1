/** The booking engine of `src/app/api/bookings/route.ts`: the auto-completion
    sweep and the role-scoped listing of `GET`, and the guard chain, overlap
    query and insert of `POST`. The session, the clock ("now") and the
    property catalogue are parameters; the booking table is a
    `Store.BookingTable` that the handlers update in place. */
module BookingsRoute {
  import opened Domain
  import opened Lists
  import opened Sorting
  import Store

  const Unauthorized := Failure(401, "Unauthorized")
  const OnlyTenants := Failure(403, "Only tenants can create bookings.")
  const DuplicatePending := Failure(409, "You already have a pending booking for this property.")
  const PropertyNotFound := Failure(404, "Property not found")
  const NotBookable := Failure(400, "Property is not available for booking")
  const AlreadyBooked := Failure(409, "Property is already booked for the selected dates")

  // ---------------------------------------------------------------------
  // Auto-completion sweep

  /** The `updateMany` filter: approved and ended strictly before `now`. */
  predicate Expired(b: Booking, now: int)
  {
    b.status == BookingStatus.Approved && b.endDate < now
  }

  function ExpiredAt(now: int): Booking -> bool
  {
    (b: Booking) => Expired(b, now)
  }

  function MarkCompleted(b: Booking): Booking
  {
    b.(status := BookingStatus.Completed)
  }

  /** The booking table after the sweep at time `now`. */
  function Swept(rows: seq<Booking>, now: int): (r: seq<Booking>)
    ensures |r| == |rows|
    ensures forall i :: 0 <= i < |rows| ==> (r[i] != rows[i] <==> Expired(rows[i], now))
    ensures forall i :: 0 <= i < |rows| && Expired(rows[i], now) ==>
              r[i] == rows[i].(status := BookingStatus.Completed)
    ensures forall i :: 0 <= i < |r| ==> !Expired(r[i], now)
  {
    MapWhere(rows, ExpiredAt(now), MarkCompleted)
  }

  /** A second sweep at the same instant changes nothing. */
  lemma SweepIdempotent(rows: seq<Booking>, now: int)
    ensures Swept(Swept(rows, now), now) == Swept(rows, now)
  {
    var once := Swept(rows, now);
    assert forall i :: 0 <= i < |once| ==> Swept(once, now)[i] == once[i];
  }

  /** A booking that ends exactly at `now` is left as it is. */
  lemma SweepSparesEndingNow(rows: seq<Booking>, now: int, i: nat)
    requires i < |rows| && rows[i].endDate == now
    ensures Swept(rows, now)[i] == rows[i]
  {
  }

  /** The sweep, row by row, on the stored table. */
  method CompleteExpired(t: Store.BookingTable, now: int)
    requires t.Valid()
    modifies t
    ensures t.Valid() && t.nextId == old(t.nextId)
    ensures t.rows == Swept(old(t.rows), now)
  {
    ghost var target := Swept(t.rows, now);
    var i := 0;
    while i < |t.rows|
      invariant 0 <= i <= |t.rows| == |old(t.rows)| == |target|
      invariant t.nextId == old(t.nextId)
      invariant forall k :: 0 <= k < i ==> t.rows[k] == target[k]
      invariant forall k :: i <= k < |t.rows| ==> t.rows[k] == old(t.rows)[k]
    {
      if Expired(t.rows[i], now) {
        t.rows := t.rows[i := MarkCompleted(t.rows[i])];
      }
      i := i + 1;
    }
    assert t.rows == target;
    assert forall k :: 0 <= k < |t.rows| ==> t.rows[k].id == old(t.rows)[k].id;
  }

  // ---------------------------------------------------------------------
  // Role-scoped listing

  /** The relation filter `property: { landlordId }`: the booking's
      property, the row with its id, belongs to `landlordId`. */
  predicate OnPropertyOf(b: Booking, properties: seq<Property>, landlordId: int)
  {
    var i := Store.IndexOf(properties, PropertyIdOf, b.propertyId);
    i.Some? && properties[i.value].landlordId == landlordId
  }

  /** A landlord sees the bookings on their properties; every other role
      (an admin too) sees the bookings it made. */
  predicate VisibleTo(b: Booking, properties: seq<Property>, caller: Identity)
  {
    if caller.role == Role.Landlord then OnPropertyOf(b, properties, caller.id)
    else b.tenantId == caller.id
  }

  /** `...(status ? { status } : {})`. */
  predicate StatusMatches(b: Booking, status: Option<BookingStatus>)
  {
    status.None? || b.status == status.value
  }

  function ListFilter(properties: seq<Property>, caller: Identity, status: Option<BookingStatus>): Booking -> bool
  {
    (b: Booking) => VisibleTo(b, properties, caller) && StatusMatches(b, status)
  }

  function CreatedAt(b: Booking): int
  {
    b.createdAt
  }

  /** The list `GET` answers: the visible bookings, newest first. */
  function Listing(rows: seq<Booking>, properties: seq<Property>, caller: Identity,
                   status: Option<BookingStatus>): (r: seq<Booking>)
    ensures caller.role == Role.Landlord ==>
              forall b :: b in r <==> b in rows && OnPropertyOf(b, properties, caller.id) && StatusMatches(b, status)
    ensures caller.role != Role.Landlord ==>
              forall b :: b in r <==> b in rows && b.tenantId == caller.id && StatusMatches(b, status)
    ensures multiset(r) == multiset(Filter(rows, ListFilter(properties, caller, status)))
    ensures SortedDesc(r, CreatedAt)
  {
    var selected := Filter(rows, ListFilter(properties, caller, status));
    var r := OrderByDesc(selected, CreatedAt);
    PermutationSameElements(r, selected);
    assert forall b :: b in selected <==> b in rows && ListFilter(properties, caller, status)(b);
    r
  }

  /** `GET /api/bookings`: the sweep runs first, before the session check,
      so even an unauthenticated request completes expired bookings. */
  method List(t: Store.BookingTable, properties: seq<Property>, session: Session,
              status: Option<BookingStatus>, now: int) returns (r: Result<seq<Booking>>)
    requires t.Valid()
    modifies t
    ensures t.Valid() && t.nextId == old(t.nextId)
    ensures t.rows == Swept(old(t.rows), now)
    ensures session.None? ==> r == Err(Unauthorized)
    ensures session.Some? ==> r == Ok(Listing(t.rows, properties, session.value, status))
  {
    CompleteExpired(t, now);
    if session.None? {
      return Err(Unauthorized);
    }
    r := Ok(Listing(t.rows, properties, session.value, status));
  }

  // ---------------------------------------------------------------------
  // Creation

  /** The request body of `POST /api/bookings`. */
  datatype BookingRequest = BookingRequest(propertyId: int, startDate: int, endDate: int, message: Option<string>)

  /** The three OR'd clauses of the overlap query against booking `b`:
      `b` contains the requested start, `b` contains the requested end, or
      `b` lies inside the requested range. All bounds are inclusive. */
  predicate OverlapClauses(b: Booking, start: int, end: int)
  {
    || (b.startDate <= start && b.endDate >= start)
    || (b.startDate <= end && b.endDate >= end)
    || (b.startDate >= start && b.endDate <= end)
  }

  /** Closed intervals [s1, e1] and [s2, e2] share a point. */
  predicate Intersect(s1: int, e1: int, s2: int, e2: int)
  {
    s1 <= e2 && s2 <= e1
  }

  /** For well-formed ranges the three clauses are exactly closed-interval
      intersection. */
  lemma OverlapIsIntersection(b: Booking, start: int, end: int)
    requires b.startDate <= b.endDate && start <= end
    ensures OverlapClauses(b, start, end) <==> Intersect(b.startDate, b.endDate, start, end)
  {
  }

  /** Bounds are inclusive: a request that starts on the day an existing
      booking ends overlaps it. */
  lemma StartOnEndDateOverlaps(b: Booking, end: int)
    requires b.startDate <= b.endDate
    ensures OverlapClauses(b, b.endDate, end)
  {
  }

  /** Statuses that take part in the overlap query. */
  predicate BlockingStatus(s: BookingStatus)
  {
    s == BookingStatus.Approved || s == BookingStatus.Completed
  }

  /** The overlap query: same property, blocking status, overlapping dates. */
  predicate Blocks(b: Booking, req: BookingRequest)
  {
    b.propertyId == req.propertyId && BlockingStatus(b.status) &&
    OverlapClauses(b, req.startDate, req.endDate)
  }

  function BlocksRequest(req: BookingRequest): Booking -> bool
  {
    (b: Booking) => Blocks(b, req)
  }

  /** The first query: the same tenant's pending booking on the property. */
  predicate PendingOf(b: Booking, propertyId: int, tenantId: int)
  {
    b.propertyId == propertyId && b.tenantId == tenantId && b.status == BookingStatus.Pending
  }

  function PendingRequestOf(propertyId: int, tenantId: int): Booking -> bool
  {
    (b: Booking) => PendingOf(b, propertyId, tenantId)
  }

  /** A property can be booked only while available and approved. */
  predicate Bookable(p: Property)
  {
    p.available && p.approved == PropertyStatus.Approved
  }

  /** Whether some stored booking blocks the request. */
  predicate HasConflict(rows: seq<Booking>, req: BookingRequest)
  {
    exists i :: 0 <= i < |rows| && Blocks(rows[i], req)
  }

  /** Only approved and completed bookings can cause a date conflict:
      keeping just those rows decides the overlap check the same way. */
  lemma {:induction false} ConflictsComeFromBlockingRows(rows: seq<Booking>, req: BookingRequest)
    ensures HasConflict(rows, req) <==> HasConflict(Filter(rows, (b: Booking) => BlockingStatus(b.status)), req)
  {
    var kept := Filter(rows, (b: Booking) => BlockingStatus(b.status));
    if HasConflict(rows, req) {
      var i :| 0 <= i < |rows| && Blocks(rows[i], req);
      assert rows[i] in kept;
      var j :| 0 <= j < |kept| && kept[j] == rows[i];
      assert Blocks(kept[j], req);
    }
    if HasConflict(kept, req) {
      var j :| 0 <= j < |kept| && Blocks(kept[j], req);
      assert kept[j] in rows;
      var i :| 0 <= i < |rows| && rows[i] == kept[j];
      assert Blocks(rows[i], req);
    }
  }

  /** Adding a pending, rejected or cancelled booking never makes a request
      conflict. */
  lemma NonBlockingRowAddsNoConflict(rows: seq<Booking>, b: Booking, req: BookingRequest)
    requires !BlockingStatus(b.status)
    ensures HasConflict(rows + [b], req) == HasConflict(rows, req)
  {
    if HasConflict(rows + [b], req) {
      var i :| 0 <= i < |rows + [b]| && Blocks((rows + [b])[i], req);
      assert i < |rows| && Blocks(rows[i], req);
    }
    if HasConflict(rows, req) {
      var i :| 0 <= i < |rows| && Blocks(rows[i], req);
      assert Blocks((rows + [b])[i], req);
    }
  }

  /** The guard chain of `POST`, in the order the handler checks it; the
      first failing guard decides the answer. `None` means every guard
      passed. */
  function Refusal(rows: seq<Booking>, properties: seq<Property>, session: Session,
                   req: BookingRequest): (r: Option<Failure>)
    ensures r.None? ==> session.Some? && session.value.role == Role.Tenant &&
                        (forall i :: 0 <= i < |rows| ==> !PendingOf(rows[i], req.propertyId, session.value.id)) &&
                        (exists i :: 0 <= i < |properties| && properties[i].id == req.propertyId &&
                                     Bookable(properties[i])) &&
                        !HasConflict(rows, req)
    ensures r.Some? ==> r.value in {Unauthorized, OnlyTenants, DuplicatePending, PropertyNotFound, NotBookable,
                                    AlreadyBooked}
  {
    if session.None? then Some(Unauthorized)
    else if session.value.role != Role.Tenant then Some(OnlyTenants)
    else if exists i :: 0 <= i < |rows| && PendingOf(rows[i], req.propertyId, session.value.id) then
      Some(DuplicatePending)
    else
      match FindFirst(properties, PropertyIdIs(req.propertyId))
      case None => Some(PropertyNotFound)
      case Some(p) =>
        if !Bookable(p) then Some(NotBookable)
        else if HasConflict(rows, req) then Some(AlreadyBooked)
        else None
  }

  /** The row an accepted request inserts (its id is assigned on insert). */
  function Requested(tenantId: int, req: BookingRequest, now: int): (b: Booking)
    ensures b.status == BookingStatus.Pending && b.tenantId == tenantId
    ensures b.propertyId == req.propertyId && b.startDate == req.startDate && b.endDate == req.endDate
    ensures b.message.None? <==> req.message.None? || req.message == Some("")
  {
    Booking(0, req.propertyId, tenantId, req.startDate, req.endDate, BookingStatus.Pending,
            NullIfEmpty(req.message), now)
  }

  /** What the duplicate-pending guard keeps: no two stored bookings are
      both PENDING for the same tenant and property. */
  ghost predicate OnePending(rows: seq<Booking>)
  {
    forall i, j :: 0 <= i < j < |rows| && rows[i].status == BookingStatus.Pending &&
                   rows[j].status == BookingStatus.Pending ==>
                     rows[i].tenantId != rows[j].tenantId || rows[i].propertyId != rows[j].propertyId
  }

  /** An accepted request keeps at most one pending booking per tenant and
      property, whatever id the new row gets. */
  lemma AcceptedKeepsOnePending(rows: seq<Booking>, properties: seq<Property>, session: Session,
                                req: BookingRequest, now: int, id: int)
    requires OnePending(rows)
    requires Refusal(rows, properties, session, req).None?
    ensures OnePending(rows + [Requested(session.value.id, req, now).(id := id)])
  {
    var b := Requested(session.value.id, req, now).(id := id);
    var s := rows + [b];
    assert forall i :: 0 <= i < |rows| ==> s[i] == rows[i];
    assert s[|rows|] == b;
  }

  /** The sweep only turns APPROVED bookings into COMPLETED ones, so it
      keeps at most one pending booking per tenant and property. */
  lemma SweepKeepsOnePending(rows: seq<Booking>, now: int)
    requires OnePending(rows)
    ensures OnePending(Swept(rows, now))
  {
  }

  /** `POST /api/bookings`: the guards run in order and a refused request
      writes nothing; an accepted one adds exactly one pending booking. */
  method Create(t: Store.BookingTable, properties: seq<Property>, session: Session,
                req: BookingRequest, now: int) returns (r: Result<Booking>)
    requires t.Valid()
    modifies t
    ensures t.Valid()
    ensures r.Err? <==> Refusal(old(t.rows), properties, session, req).Some?
    ensures r.Err? ==> r.failure == Refusal(old(t.rows), properties, session, req).value
    ensures r.Err? ==> t.rows == old(t.rows) && t.nextId == old(t.nextId)
    ensures r.Ok? ==> r.value == Requested(session.value.id, req, now).(id := old(t.nextId))
    ensures r.Ok? ==> t.rows == old(t.rows) + [r.value]
    ensures OnePending(old(t.rows)) ==> OnePending(t.rows)
  {
    if session.None? {
      return Err(Unauthorized);
    }
    var caller := session.value;
    if caller.role != Role.Tenant {
      return Err(OnlyTenants);
    }
    var existingPending := FindFirst(t.rows, PendingRequestOf(req.propertyId, caller.id));
    if existingPending.Some? {
      return Err(DuplicatePending);
    }
    var property := FindFirst(properties, PropertyIdIs(req.propertyId));
    if property.None? {
      return Err(PropertyNotFound);
    }
    if !property.value.available || property.value.approved != PropertyStatus.Approved {
      return Err(NotBookable);
    }
    var overlapping := FindFirst(t.rows, BlocksRequest(req));
    if overlapping.Some? {
      return Err(AlreadyBooked);
    }
    var booking := t.Insert(Requested(caller.id, req, now));
    if OnePending(old(t.rows)) {
      AcceptedKeepsOnePending(old(t.rows), properties, session, req, now, booking.id);
    }
    return Ok(booking);
  }

  // ---------------------------------------------------------------------
  // Scenarios

  /** Tenant 2 asks for days 15..20 of property 7 while tenant 1's approved
      booking covers days 10..15: the shared day 15 makes it a conflict. */
  lemma TouchingApprovedBookingIsRefused()
    ensures
      var p := Property(7, 3, "t", "d", "l", 1000, 1, 1, None, "HOUSE", None, 0, true,
                        PropertyStatus.Approved, 0, []);
      var a := Booking(1, 7, 1, 10, 15, BookingStatus.Approved, None, 0);
      Refusal([a], [p], Some(Identity(2, Role.Tenant)), BookingRequest(7, 15, 20, None)) == Some(AlreadyBooked)
  {
    var a := Booking(1, 7, 1, 10, 15, BookingStatus.Approved, None, 0);
    assert Blocks([a][0], BookingRequest(7, 15, 20, None));
  }

  /** The same request is accepted while tenant 1's booking is only pending. */
  lemma PendingBookingDoesNotBlock()
    ensures
      var p := Property(7, 3, "t", "d", "l", 1000, 1, 1, None, "HOUSE", None, 0, true,
                        PropertyStatus.Approved, 0, []);
      var a := Booking(1, 7, 1, 10, 15, BookingStatus.Pending, None, 0);
      Refusal([a], [p], Some(Identity(2, Role.Tenant)), BookingRequest(7, 15, 20, None)) == None
  {
  }

  /** The handler does not check that a request's start precedes its end: a
      reversed range that no clause catches is accepted. */
  lemma ReversedRangeIsNotRejected()
    ensures
      var p := Property(7, 3, "t", "d", "l", 1000, 1, 1, None, "HOUSE", None, 0, true,
                        PropertyStatus.Approved, 0, []);
      var a := Booking(1, 7, 1, 5, 10, BookingStatus.Approved, None, 0);
      Refusal([a], [p], Some(Identity(2, Role.Tenant)), BookingRequest(7, 20, 1, None)) == None
  {
  }
}
