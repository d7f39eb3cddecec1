/** Entities shared by the request handlers and the dashboards of the rental
    marketplace: roles, the closed status enums, the stored records and the
    shape of a handler's answer. */
module Domain {

  datatype Option<+T> = None | Some(value: T)

  /** The role a user row and a session carry. */
  datatype Role = Admin | Landlord | Tenant

  /** Booking lifecycle states (src/types/booking.ts:5). */
  datatype BookingStatus = Pending | Approved | Rejected | Cancelled | Completed

  /** Property moderation states (src/types/property.ts:52). */
  datatype PropertyStatus = Pending | Approved | Rejected

  /** The identity a session resolves to; no session is `None`. */
  datatype Identity = Identity(id: int, role: Role)
  type Session = Option<Identity>

  /** A booking row. Dates and timestamps are integers (days or instants). */
  datatype Booking = Booking(
    id: int,
    propertyId: int,
    tenantId: int,
    startDate: int,
    endDate: int,
    status: BookingStatus,
    message: Option<string>,
    createdAt: int)

  /** One stored image of a property. */
  datatype Image = Image(url: string, alt: string)

  /** An image as a form or a request body gives it; `alt` may be absent. */
  datatype ImageInput = ImageInput(url: string, alt: Option<string>)

  /** A property row. */
  datatype Property = Property(
    id: int,
    landlordId: int,
    title: string,
    description: string,
    location: string,
    rent: int,
    bedrooms: int,
    bathrooms: int,
    area: Option<int>,
    propertyType: string,
    amenities: Option<string>,
    availableDate: int,
    available: bool,
    approved: PropertyStatus,
    createdAt: int,
    images: seq<Image>)

  /** A review row; at most one per (tenantId, propertyId). */
  datatype Review = Review(
    id: int,
    propertyId: int,
    tenantId: int,
    rating: int,
    comment: Option<string>,
    approved: bool,
    createdAt: int)

  /** A user row. */
  datatype User = User(
    id: int,
    name: string,
    email: string,
    role: Role,
    blocked: bool,
    createdAt: int)

  /** The HTTP status and error text of a refused request. */
  datatype Failure = Failure(status: int, message: string)

  /** What a handler answers: a value (200/201) or a failure. */
  datatype Result<+T> = Ok(value: T) | Err(failure: Failure)

  /** A session that belongs to an admin. */
  predicate IsAdmin(session: Session)
  {
    session.Some? && session.value.role == Role.Admin
  }

  /** The primary keys of the tables that are looked up by id. */
  function PropertyIdOf(p: Property): int
  {
    p.id
  }

  function UserIdOf(u: User): int
  {
    u.id
  }

  /** Selectors the handlers and pages filter and map with. */
  function BookingIs(status: BookingStatus): Booking -> bool
  {
    (b: Booking) => b.status == status
  }

  function BookingIdIs(id: int): Booking -> bool
  {
    (b: Booking) => b.id == id
  }

  function BookingIdIsNot(id: int): Booking -> bool
  {
    (b: Booking) => b.id != id
  }

  function PropertyIs(status: PropertyStatus): Property -> bool
  {
    (p: Property) => p.approved == status
  }

  function PropertyIdIs(id: int): Property -> bool
  {
    (p: Property) => p.id == id
  }

  function PropertyIdIsNot(id: int): Property -> bool
  {
    (p: Property) => p.id != id
  }

  function UserIs(role: Role): User -> bool
  {
    (u: User) => u.role == role
  }

  /** `x || null` on an optional string: an empty string is stored as null. */
  function NullIfEmpty(s: Option<string>): (r: Option<string>)
    ensures r.Some? <==> s.Some? && s.value != ""
    ensures r.Some? ==> r == s
  {
    if s.Some? && s.value != "" then s else None
  }
}
