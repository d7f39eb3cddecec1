/** `src/app/api/reviews/route.ts`: listing the approved reviews of a
    property, and creating a review behind a role check, a rating range
    check, a prior-booking check and a one-review-per-property check. */
module ReviewsRoute {
  import opened Domain
  import opened Lists
  import opened Sorting
  import Store

  const PropertyIdRequired := Failure(400, "Property ID is required")
  const OnlyLandlordOrTenant := Failure(401, "Unauthorized - Only landlord or tenant access allowed")
  const RatingOutOfRange := Failure(400, "Rating must be between 1 and 5")
  const NotRented := Failure(403, "You can only review properties you have rented")
  const AlreadyReviewed := Failure(409, "You have already reviewed this property")

  function ApprovedReviewOf(propertyId: int): Review -> bool
  {
    (r: Review) => r.propertyId == propertyId && r.approved
  }

  function ReviewCreatedAt(r: Review): int
  {
    r.createdAt
  }

  /** `GET /api/reviews?propertyId=…`; a missing or empty id is `None`. */
  function ListReviews(rows: seq<Review>, propertyId: Option<int>): (r: Result<seq<Review>>)
    ensures r.Err? <==> propertyId.None?
    ensures r.Err? ==> r.failure == PropertyIdRequired
    ensures r.Ok? ==> forall x :: x in r.value <==> x in rows && x.propertyId == propertyId.value && x.approved
    ensures r.Ok? ==> multiset(r.value) == multiset(Filter(rows, ApprovedReviewOf(propertyId.value)))
    ensures r.Ok? ==> SortedDesc(r.value, ReviewCreatedAt)
  {
    if propertyId.None? then Err(PropertyIdRequired)
    else
      var selected := Filter(rows, ApprovedReviewOf(propertyId.value));
      var ordered := OrderByDesc(selected, ReviewCreatedAt);
      PermutationSameElements(ordered, selected);
      assert forall x :: x in selected <==> x in rows && ApprovedReviewOf(propertyId.value)(x);
      Ok(ordered)
  }

  /** The request body of `POST /api/reviews`; a rating that is absent is
      `None`. */
  datatype ReviewRequest = ReviewRequest(propertyId: int, rating: Option<real>, comment: Option<string>)

  /** `!rating || rating < 1 || rating > 5` refuses the rating. */
  predicate RatingAccepted(rating: Option<real>)
  {
    !(rating.None? || rating.value == 0.0 || rating.value < 1.0 || rating.value > 5.0)
  }

  /** The accepted ratings are exactly the numbers from 1 to 5 inclusive. */
  lemma RatingAcceptedRange(rating: Option<real>)
    ensures RatingAccepted(rating) <==> rating.Some? && 1.0 <= rating.value <= 5.0
  {
  }

  /** `parseInt(rating)` of an accepted rating: the integer part. */
  function StoredRating(x: real): (r: int)
    requires 1.0 <= x <= 5.0
    ensures 1 <= r <= 5
    ensures r as real <= x < r as real + 1.0
  {
    x.Floor
  }

  /** The caller has a booking on the property, whatever its status. */
  predicate HasBooked(bookings: seq<Booking>, tenantId: int, propertyId: int)
  {
    exists i :: 0 <= i < |bookings| && bookings[i].tenantId == tenantId && bookings[i].propertyId == propertyId
  }

  /** The caller has already reviewed the property. */
  predicate HasReviewed(reviews: seq<Review>, tenantId: int, propertyId: int)
  {
    exists i :: 0 <= i < |reviews| && reviews[i].tenantId == tenantId && reviews[i].propertyId == propertyId
  }

  /** The database's unique (tenantId, propertyId) constraint. */
  ghost predicate OneReviewPerTenantAndProperty(reviews: seq<Review>)
  {
    forall i, j :: 0 <= i < j < |reviews| ==>
      !(reviews[i].tenantId == reviews[j].tenantId && reviews[i].propertyId == reviews[j].propertyId)
  }

  /** The guards of `POST`, in order; `None` when all pass. The rating is
      checked before any lookup. */
  function Refusal(bookings: seq<Booking>, reviews: seq<Review>, session: Session,
                   req: ReviewRequest): (r: Option<Failure>)
    ensures r.None? ==> session.Some? && session.value.role != Role.Admin &&
                        req.rating.Some? && 1.0 <= req.rating.value <= 5.0 &&
                        HasBooked(bookings, session.value.id, req.propertyId) &&
                        !HasReviewed(reviews, session.value.id, req.propertyId)
    ensures r.Some? ==> r.value in {OnlyLandlordOrTenant, RatingOutOfRange, NotRented, AlreadyReviewed}
    ensures IsAdmin(session) ==> r == Some(OnlyLandlordOrTenant)
  {
    if session.None? || (session.value.role != Role.Landlord && session.value.role != Role.Tenant) then
      Some(OnlyLandlordOrTenant)
    else if !RatingAccepted(req.rating) then Some(RatingOutOfRange)
    else if !HasBooked(bookings, session.value.id, req.propertyId) then Some(NotRented)
    else if HasReviewed(reviews, session.value.id, req.propertyId) then Some(AlreadyReviewed)
    else None
  }

  /** An admin is refused with 401, whatever else the request holds. */
  lemma AdminCannotReview(bookings: seq<Booking>, reviews: seq<Review>, id: int, req: ReviewRequest)
    ensures Refusal(bookings, reviews, Some(Identity(id, Role.Admin)), req) == Some(OnlyLandlordOrTenant)
  {
  }

  function BookingOf(tenantId: int, propertyId: int): Booking -> bool
  {
    (b: Booking) => b.tenantId == tenantId && b.propertyId == propertyId
  }

  function ReviewOf(tenantId: int, propertyId: int): Review -> bool
  {
    (r: Review) => r.tenantId == tenantId && r.propertyId == propertyId
  }

  /** `POST /api/reviews`: a refused request stores nothing; an accepted one
      stores one review with the truncated rating and a null empty comment.
      The one-review-per-property constraint is kept. */
  method Create(bookings: Store.BookingTable, reviews: Store.ReviewTable, session: Session,
                req: ReviewRequest, now: int) returns (r: Result<Review>)
    requires reviews.Valid()
    modifies reviews
    ensures reviews.Valid()
    ensures r.Err? <==> Refusal(bookings.rows, old(reviews.rows), session, req).Some?
    ensures r.Err? ==> r.failure == Refusal(bookings.rows, old(reviews.rows), session, req).value
    ensures r.Err? ==> reviews.rows == old(reviews.rows) && reviews.nextId == old(reviews.nextId)
    ensures r.Ok? ==> reviews.rows == old(reviews.rows) + [r.value]
    ensures r.Ok? ==> r.value == Review(old(reviews.nextId), req.propertyId, session.value.id,
                                        StoredRating(req.rating.value), NullIfEmpty(req.comment),
                                        reviews.approvedByDefault, now)
    ensures OneReviewPerTenantAndProperty(old(reviews.rows)) ==> OneReviewPerTenantAndProperty(reviews.rows)
  {
    if session.None? || (session.value.role != Role.Landlord && session.value.role != Role.Tenant) {
      return Err(OnlyLandlordOrTenant);
    }
    var caller := session.value;
    if req.rating.None? || req.rating.value == 0.0 || req.rating.value < 1.0 || req.rating.value > 5.0 {
      return Err(RatingOutOfRange);
    }
    var completedBooking := FindFirst(bookings.rows, BookingOf(caller.id, req.propertyId));
    if completedBooking.None? {
      return Err(NotRented);
    }
    var existingReview := FindFirst(reviews.rows, ReviewOf(caller.id, req.propertyId));
    if existingReview.Some? {
      assert HasReviewed(reviews.rows, caller.id, req.propertyId);
      return Err(AlreadyReviewed);
    }
    var review := reviews.Insert(Review(0, req.propertyId, caller.id, StoredRating(req.rating.value),
                                        NullIfEmpty(req.comment), reviews.approvedByDefault, now));
    r := Ok(review);
  }
}
