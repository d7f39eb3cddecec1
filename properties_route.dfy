/** `src/app/api/properties/route.ts`: the public property search, whose
    `where` object is built step by step from the query string, with the
    review count and average attached to every result; and property creation
    by a landlord. */
module PropertiesRoute {
  import opened Domain
  import opened Lists
  import opened Sorting
  import opened Text
  import Store

  const FetchFailed := Failure(500, "Failed to fetch properties")
  const LandlordRequired := Failure(401, "Unauthorized - Landlord access required")

  /** The query string of `GET`. Text parameters are "" when absent; the
      numeric ones are `None` when absent (their parsing is not modelled). */
  datatype PropertyQuery = PropertyQuery(
    search: string,
    location: string,
    minPrice: Option<int>,
    maxPrice: Option<int>,
    propertyType: Option<string>,
    bedrooms: Option<int>,
    bathrooms: Option<int>,
    sortBy: string,
    sortOrder: string,
    status: Option<PropertyStatus>)

  /** The `rent: { gte, lte }` condition. */
  datatype RentRange = RentRange(gte: Option<int>, lte: Option<int>)

  /** The `where` object handed to the database. */
  datatype Where = Where(
    approved: PropertyStatus,
    available: bool,
    anyOf: Option<string>,
    location: Option<string>,
    rent: Option<RentRange>,
    propertyType: Option<string>,
    bedrooms: Option<int>,
    bathrooms: Option<int>)

  /** How the database evaluates a `where` object on one row. */
  predicate Matches(w: Where, p: Property)
  {
    && p.approved == w.approved
    && p.available == w.available
    && (w.anyOf.None? ||
        Contains(p.title, w.anyOf.value) || Contains(p.description, w.anyOf.value) ||
        Contains(p.location, w.anyOf.value))
    && (w.location.None? || Contains(p.location, w.location.value))
    && (w.rent.None? ||
        ((w.rent.value.gte.None? || p.rent >= w.rent.value.gte.value) &&
         (w.rent.value.lte.None? || p.rent <= w.rent.value.lte.value)))
    && (w.propertyType.None? || p.propertyType == w.propertyType.value)
    && (w.bedrooms.None? || p.bedrooms == w.bedrooms.value)
    && (w.bathrooms.None? || p.bathrooms == w.bathrooms.value)
  }

  /** Which properties a query asks for, filter by filter: the requested
      approval state (APPROVED by default), available only, the search text
      in the title, description or location, the location text, inclusive
      price bounds, and exact type, bedroom and bathroom counts where those
      are given and non-zero. */
  predicate Admits(q: PropertyQuery, p: Property)
  {
    && p.approved == (if q.status.Some? then q.status.value else PropertyStatus.Approved)
    && p.available
    && (q.search == "" || Contains(p.title, q.search) || Contains(p.description, q.search) ||
        Contains(p.location, q.search))
    && (q.location == "" || Contains(p.location, q.location))
    && (q.minPrice.None? || q.minPrice.value <= p.rent)
    && (q.maxPrice.None? || p.rent <= q.maxPrice.value)
    && (q.propertyType.None? || q.propertyType.value == "" || p.propertyType == q.propertyType.value)
    && (q.bedrooms.None? || q.bedrooms.value == 0 || p.bedrooms == q.bedrooms.value)
    && (q.bathrooms.None? || q.bathrooms.value == 0 || p.bathrooms == q.bathrooms.value)
  }

  /** The value of each field of the `where` object the handler builds for
      a query. */
  ghost predicate BuiltFrom(w: Where, q: PropertyQuery)
  {
    && w.approved == (if q.status.Some? then q.status.value else PropertyStatus.Approved)
    && w.available
    && w.anyOf == (if q.search == "" then None else Some(q.search))
    && w.location == (if q.location == "" then None else Some(q.location))
    && w.rent == (if q.minPrice.None? && q.maxPrice.None? then None else Some(RentRange(q.minPrice, q.maxPrice)))
    && w.propertyType == (if q.propertyType.Some? && q.propertyType.value != "" then q.propertyType else None)
    && w.bedrooms == (if q.bedrooms.Some? && q.bedrooms.value != 0 then q.bedrooms else None)
    && w.bathrooms == (if q.bathrooms.Some? && q.bathrooms.value != 0 then q.bathrooms else None)
  }

  /** A `where` object built from a query selects what the query admits. */
  lemma BuiltWhereAgrees(w: Where, q: PropertyQuery, p: Property)
    requires BuiltFrom(w, q)
    ensures Matches(w, p) <==> Admits(q, p)
  {
  }

  /** Builds the `where` object by conditional assignments, as the handler
      does; the object selects exactly the properties the query admits. */
  method BuildWhere(q: PropertyQuery) returns (w: Where)
    ensures w.available
    ensures forall p :: Matches(w, p) <==> Admits(q, p)
  {
    w := Where(if q.status.Some? then q.status.value else PropertyStatus.Approved, true,
               None, None, None, None, None, None);
    if q.search != "" {
      w := w.(anyOf := Some(q.search));
    }
    if q.location != "" {
      w := w.(location := Some(q.location));
    }
    if q.minPrice.Some? || q.maxPrice.Some? {
      var range := RentRange(None, None);
      if q.minPrice.Some? {
        range := range.(gte := q.minPrice);
      }
      if q.maxPrice.Some? {
        range := range.(lte := q.maxPrice);
      }
      w := w.(rent := Some(range));
    }
    if q.propertyType.Some? && q.propertyType.value != "" {
      w := w.(propertyType := q.propertyType);
    }
    if q.bedrooms.Some? && q.bedrooms.value != 0 {
      w := w.(bedrooms := q.bedrooms);
    }
    if q.bathrooms.Some? && q.bathrooms.value != 0 {
      w := w.(bathrooms := q.bathrooms);
    }
    assert BuiltFrom(w, q);
    forall p {
      BuiltWhereAgrees(w, q, p);
    }
  }

  /** Without a status parameter only approved properties are listed. */
  lemma DefaultQueryListsApprovedOnly(q: PropertyQuery, p: Property)
    requires q.status.None? && Admits(q, p)
    ensures p.approved == PropertyStatus.Approved && p.available
  {
  }

  /** An empty search text filters nothing out. */
  lemma EmptySearchKeepsAll(q: PropertyQuery, p: Property)
    requires q.search == "" && q.location == "" && q.minPrice.None? && q.maxPrice.None?
    requires q.propertyType.None? && q.bedrooms.None? && q.bathrooms.None?
    ensures Admits(q, p) <==> p.available && p.approved == (if q.status.Some? then q.status.value else PropertyStatus.Approved)
  {
  }

  /** The non-null integer columns a listing can be ordered by. */
  datatype SortColumn = Id | LandlordId | CreatedAt | Rent | Bedrooms | Bathrooms | AvailableDate

  /** `sortBy || "createdAt"`. A name that is not one of these columns is
      `None`: for a name the table does not have the query fails, and the
      text, boolean and nullable columns are not ordered by here. */
  function ParseSortColumn(sortBy: string): (c: Option<SortColumn>)
    ensures sortBy == "" ==> c == Some(CreatedAt)
  {
    if sortBy == "" || sortBy == "createdAt" then Some(CreatedAt)
    else if sortBy == "id" then Some(Id)
    else if sortBy == "landlordId" then Some(LandlordId)
    else if sortBy == "rent" then Some(Rent)
    else if sortBy == "bedrooms" then Some(Bedrooms)
    else if sortBy == "bathrooms" then Some(Bathrooms)
    else if sortBy == "availableDate" then Some(AvailableDate)
    else None
  }

  function ColumnValue(c: SortColumn, p: Property): int
  {
    match c
    case Id => p.id
    case LandlordId => p.landlordId
    case CreatedAt => p.createdAt
    case Rent => p.rent
    case Bedrooms => p.bedrooms
    case Bathrooms => p.bathrooms
    case AvailableDate => p.availableDate
  }

  /** `sortOrder === "desc" ? "desc" : "asc"`. */
  predicate Descending(sortOrder: string)
  {
    sortOrder == "desc"
  }

  /** The ordering key: the column, negated for ascending order. */
  function SortKey(c: SortColumn, sortOrder: string): (key: Property -> int)
    ensures Descending(sortOrder) ==> forall p :: key(p) == ColumnValue(c, p)
    ensures !Descending(sortOrder) ==> forall p :: key(p) == -ColumnValue(c, p)
  {
    if Descending(sortOrder) then (p: Property) => ColumnValue(c, p)
    else (p: Property) => -ColumnValue(c, p)
  }

  /** Only the literal "desc" orders descending; anything else, "DESC"
      included, orders ascending. */
  lemma OnlyLiteralDescIsDescending(sortOrder: string)
    ensures Descending(sortOrder) <==> sortOrder == "desc"
    ensures !Descending("DESC") && !Descending("")
  {
  }

  /** One search result with its review statistics. */
  datatype RatedProperty = RatedProperty(property: Property, averageRating: real, totalReviews: nat)

  function Rating(r: Review): int
  {
    r.rating
  }

  function ReviewsOf(propertyId: int): Review -> bool
  {
    (r: Review) => r.propertyId == propertyId
  }

  /** The review count and the average rating over every review of the
      property; the average is 0 when there are none. */
  function WithRating(p: Property, reviews: seq<Review>): (r: RatedProperty)
    ensures r.property == p
    ensures r.totalReviews == |Filter(reviews, ReviewsOf(p.id))|
    ensures r.totalReviews == 0 ==> r.averageRating == 0.0
    ensures r.totalReviews > 0 ==>
              r.averageRating == Mean(Sum(Filter(reviews, ReviewsOf(p.id)), Rating), r.totalReviews)
  {
    var own := Filter(reviews, ReviewsOf(p.id));
    if |own| > 0 then RatedProperty(p, Mean(Sum(own, Rating), |own|), |own|)
    else RatedProperty(p, 0.0, 0)
  }

  /** The mean of `n` numbers adding up to `total`. */
  function Mean(total: int, n: nat): (m: real)
    requires n > 0
    ensures m * (n as real) == total as real
  {
    (total as real) / (n as real)
  }

  function WithRatings(ps: seq<Property>, reviews: seq<Review>): (r: seq<RatedProperty>)
    ensures |r| == |ps|
    ensures forall i :: 0 <= i < |ps| ==> r[i] == WithRating(ps[i], reviews)
  {
    if ps == [] then [] else [WithRating(ps[0], reviews)] + WithRatings(ps[1..], reviews)
  }

  function MatchesWhere(w: Where): Property -> bool
  {
    (p: Property) => Matches(w, p)
  }

  function AdmittedBy(q: PropertyQuery): Property -> bool
  {
    (p: Property) => Admits(q, p)
  }

  /** The properties of a list of results, in order. */
  function Listed(r: seq<RatedProperty>): (ps: seq<Property>)
    ensures |ps| == |r|
    ensures forall i :: 0 <= i < |r| ==> ps[i] == r[i].property
  {
    if r == [] then [] else [r[0].property] + Listed(r[1..])
  }

  /** Attaching the statistics keeps the properties and their order. */
  lemma {:induction false} ListedWithRatings(ps: seq<Property>, reviews: seq<Review>)
    ensures Listed(WithRatings(ps, reviews)) == ps
  {
    var r := WithRatings(ps, reviews);
    assert forall i :: 0 <= i < |ps| ==> Listed(r)[i] == ps[i];
  }

  /** `GET /api/properties`: the properties the query admits, each once,
      ordered by the requested column and direction, each with its review
      statistics; an unknown sort column fails. */
  method Search(rows: seq<Property>, reviews: seq<Review>, q: PropertyQuery) returns (r: Result<seq<RatedProperty>>)
    ensures r.Err? <==> ParseSortColumn(q.sortBy).None?
    ensures r.Err? ==> r.failure == FetchFailed
    ensures r.Ok? ==> multiset(Listed(r.value)) == multiset(Filter(rows, AdmittedBy(q)))
    ensures r.Ok? ==> SortedDesc(Listed(r.value), SortKey(ParseSortColumn(q.sortBy).value, q.sortOrder))
    ensures r.Ok? ==> forall i :: 0 <= i < |r.value| ==> r.value[i] == WithRating(r.value[i].property, reviews)
  {
    var w := BuildWhere(q);
    var column := ParseSortColumn(q.sortBy);
    if column.None? {
      return Err(FetchFailed);
    }
    var key := SortKey(column.value, q.sortOrder);
    FilterEquivalent(rows, MatchesWhere(w), AdmittedBy(q));
    var ordered := OrderByDesc(Filter(rows, MatchesWhere(w)), key);
    var rated := WithRatings(ordered, reviews);
    ListedWithRatings(ordered, reviews);
    r := Ok(rated);
  }

  /** Every listed property is one the query admits, and every admitted
      property is listed. */
  lemma SearchListsExactlyAdmitted(rows: seq<Property>, q: PropertyQuery, listed: seq<Property>, p: Property)
    requires multiset(listed) == multiset(Filter(rows, AdmittedBy(q)))
    ensures p in listed <==> p in rows && Admits(q, p)
  {
    PermutationSameElements(listed, Filter(rows, AdmittedBy(q)));
    if p in rows && Admits(q, p) {
      var k :| 0 <= k < |rows| && rows[k] == p;
      assert AdmittedBy(q)(rows[k]);
    }
  }

  /** The body of `POST /api/properties` (number parsing not modelled). */
  datatype NewProperty = NewProperty(
    title: string,
    description: string,
    location: string,
    rent: int,
    bedrooms: int,
    bathrooms: int,
    area: Option<int>,
    propertyType: string,
    amenities: Option<string>,
    availableDate: int,
    images: Option<seq<ImageInput>>)

  /** One image as stored: a missing alt text becomes "". */
  function StoredImage(img: ImageInput): Image
  {
    Image(img.url, if img.alt.Some? then img.alt.value else "")
  }

  function StoredImageList(images: seq<ImageInput>): (r: seq<Image>)
    ensures |r| == |images|
    ensures forall i :: 0 <= i < |r| ==> r[i] == StoredImage(images[i])
  {
    if images == [] then [] else [StoredImage(images[0])] + StoredImageList(images[1..])
  }

  /** `images?.map(img => ({ url, alt: img.alt || "" })) || []`: every
      given image in order with its url, and no image when none are given. */
  function StoredImages(images: Option<seq<ImageInput>>): (r: seq<Image>)
    ensures images.None? ==> r == []
    ensures images.Some? ==> |r| == |images.value|
    ensures images.Some? ==> forall i :: 0 <= i < |r| ==>
              r[i].url == images.value[i].url &&
              r[i].alt == (if images.value[i].alt.Some? then images.value[i].alt.value else "")
  {
    if images.None? then [] else StoredImageList(images.value)
  }

  /** `area ? parseFloat(area) : null` for a body that carries the area as
      a number: an absent or zero area is stored as null. The add-property
      form sends the area as text, and the non-empty text "0" is truthy,
      so from the form a zero area is stored as 0; text parsing is not
      modelled. */
  function StoredArea(area: Option<int>): (r: Option<int>)
    ensures r.Some? <==> area.Some? && area.value != 0
    ensures r.Some? ==> r == area
  {
    if area.Some? && area.value != 0 then area else None
  }

  /** `POST /api/properties`: a landlord's new property is PENDING, owned by
      the caller and takes the table's default availability. */
  method Create(t: Store.PropertyTable, session: Session, req: NewProperty, now: int) returns (r: Result<Property>)
    requires t.Valid()
    modifies t
    ensures t.Valid()
    ensures r.Err? <==> session.None? || session.value.role != Role.Landlord
    ensures r.Err? ==> r.failure == LandlordRequired && t.rows == old(t.rows) && t.nextId == old(t.nextId)
    ensures r.Ok? ==> t.rows == old(t.rows) + [r.value] && r.value.id == old(t.nextId)
    ensures r.Ok? ==> r.value.approved == PropertyStatus.Pending && r.value.landlordId == session.value.id
    ensures r.Ok? ==> r.value.available == t.availableByDefault && r.value.createdAt == now
    ensures r.Ok? ==> r.value.images == StoredImages(req.images)
    ensures r.Ok? ==> r.value.title == req.title && r.value.description == req.description &&
                      r.value.location == req.location && r.value.rent == req.rent &&
                      r.value.bedrooms == req.bedrooms && r.value.bathrooms == req.bathrooms &&
                      r.value.area == StoredArea(req.area) && r.value.propertyType == req.propertyType &&
                      r.value.amenities == req.amenities && r.value.availableDate == req.availableDate
  {
    if session.None? || session.value.role != Role.Landlord {
      return Err(LandlordRequired);
    }
    var property := t.Insert(Property(0, session.value.id, req.title, req.description, req.location,
                                      req.rent, req.bedrooms, req.bathrooms, StoredArea(req.area), req.propertyType,
                                      req.amenities, req.availableDate, t.availableByDefault,
                                      PropertyStatus.Pending, now, StoredImages(req.images)));
    r := Ok(property);
  }
}
