/** `src/app/api/landlord/summary/route.ts`: the landlord's dashboard
    figures, three counts and a rent fold over the approved bookings. */
module LandlordSummary {
  import opened Domain
  import opened Lists
  import BookingsRoute
  import Store

  const Unauthorized := Failure(401, "Unauthorized")

  datatype Summary = Summary(totalProperties: nat, approvedProperties: nat, pendingBookings: nat, revenue: int)

  function OwnedBy(landlordId: int): Property -> bool
  {
    (p: Property) => p.landlordId == landlordId
  }

  function ApprovedOwnedBy(landlordId: int): Property -> bool
  {
    (p: Property) => p.landlordId == landlordId && p.approved == PropertyStatus.Approved
  }

  /** `where: { property: { landlordId }, status }`. */
  function OnOwnPropertyWith(properties: seq<Property>, landlordId: int, status: BookingStatus): Booking -> bool
  {
    (b: Booking) => b.status == status && BookingsRoute.OnPropertyOf(b, properties, landlordId)
  }

  /** `b.property?.rent || 0`: the rent of the booked property. */
  function RentOf(properties: seq<Property>): Booking -> int
  {
    (b: Booking) =>
      var i := Store.IndexOf(properties, PropertyIdOf, b.propertyId);
      if i.Some? then properties[i.value].rent else 0
  }

  /** The sum of the monthly rents over the caller's APPROVED bookings; it
      counts each booking's rent once, so it is never negative when no rent
      is. */
  function Revenue(properties: seq<Property>, bookings: seq<Booking>, landlordId: int): (r: int)
    ensures (forall i :: 0 <= i < |properties| ==> properties[i].rent >= 0) ==> r >= 0
  {
    var approved := Filter(bookings, OnOwnPropertyWith(properties, landlordId, BookingStatus.Approved));
    if forall i :: 0 <= i < |properties| ==> properties[i].rent >= 0 then
      SumNonNegative(approved, RentOf(properties));
      Sum(approved, RentOf(properties))
    else
      Sum(approved, RentOf(properties))
  }

  /** `GET /api/landlord/summary`: any signed-in caller (no role check) gets
      the figures scoped to their own id. */
  function Figures(properties: seq<Property>, bookings: seq<Booking>, session: Session): (r: Result<Summary>)
    ensures r.Err? <==> session.None?
    ensures r.Err? ==> r.failure == Unauthorized
    ensures r.Ok? ==> r.value.totalProperties == |Filter(properties, OwnedBy(session.value.id))|
    ensures r.Ok? ==> r.value.approvedProperties == |Filter(properties, ApprovedOwnedBy(session.value.id))|
    ensures r.Ok? ==> r.value.approvedProperties <= r.value.totalProperties <= |properties|
    ensures r.Ok? ==> r.value.pendingBookings ==
                      |Filter(bookings, OnOwnPropertyWith(properties, session.value.id, BookingStatus.Pending))|
    ensures r.Ok? ==> r.value.revenue == Revenue(properties, bookings, session.value.id)
  {
    if session.None? then Err(Unauthorized)
    else
      var id := session.value.id;
      FilterMonotone(properties, ApprovedOwnedBy(id), OwnedBy(id));
      Ok(Summary(|Filter(properties, OwnedBy(id))|,
                 |Filter(properties, ApprovedOwnedBy(id))|,
                 |Filter(bookings, OnOwnPropertyWith(properties, id, BookingStatus.Pending))|,
                 Revenue(properties, bookings, id)))
  }

  /** Adding a booking adds its property's rent to the revenue exactly when
      it is APPROVED and on one of the caller's properties; a booking in any
      other state, COMPLETED included, adds nothing. */
  lemma RevenueOfAppended(properties: seq<Property>, bookings: seq<Booking>, b: Booking, landlordId: int)
    ensures Revenue(properties, bookings + [b], landlordId) ==
            Revenue(properties, bookings, landlordId) +
            (if b.status == BookingStatus.Approved && BookingsRoute.OnPropertyOf(b, properties, landlordId)
             then RentOf(properties)(b) else 0)
  {
    var p := OnOwnPropertyWith(properties, landlordId, BookingStatus.Approved);
    FilterAppend(bookings, [b], p);
    SumAppend(Filter(bookings, p), Filter([b], p), RentOf(properties));
    assert Filter([b], p) == if p(b) then [b] else [];
  }

  /** The sweep that completes ended bookings takes their rent out of the
      revenue: it never raises it when no rent is negative. */
  lemma {:induction false} SweepNeverRaisesRevenue(properties: seq<Property>, bookings: seq<Booking>,
                                                   landlordId: int, now: int)
    requires forall i :: 0 <= i < |properties| ==> properties[i].rent >= 0
    ensures Revenue(properties, BookingsRoute.Swept(bookings, now), landlordId) <=
            Revenue(properties, bookings, landlordId)
    decreases |bookings|
  {
    if bookings != [] {
      var init := bookings[..|bookings| - 1];
      var last := bookings[|bookings| - 1];
      var swept := BookingsRoute.Swept(bookings, now);
      assert bookings == init + [last];
      SweepNeverRaisesRevenue(properties, init, landlordId, now);
      assert swept == BookingsRoute.Swept(init, now) + [swept[|bookings| - 1]];
      RevenueOfAppended(properties, init, last, landlordId);
      RevenueOfAppended(properties, BookingsRoute.Swept(init, now), swept[|bookings| - 1], landlordId);
    }
  }
}
