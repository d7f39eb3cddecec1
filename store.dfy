/** The persistence layer as four in-memory tables. Each table keeps its rows
    in insertion order and hands out auto-incremented ids, so ids are unique
    (the primary-key invariant `Valid`). Columns whose default lives in the
    database schema (a new property's `available`, a new review's `approved`)
    are a constant of the table, fixed when it is created. */
module Store {
  import opened Domain

  class BookingTable {
    var rows: seq<Booking>
    var nextId: int

    ghost predicate Valid()
      reads this
    {
      && (forall i :: 0 <= i < |rows| ==> rows[i].id < nextId)
      && (forall i, j :: 0 <= i < j < |rows| ==> rows[i].id != rows[j].id)
    }

    constructor ()
      ensures Valid() && rows == [] && nextId == 1
    {
      rows, nextId := [], 1;
    }

    /** `booking.create`: stores `row` under the next id. */
    method Insert(row: Booking) returns (stored: Booking)
      requires Valid()
      modifies this
      ensures Valid()
      ensures stored == row.(id := old(nextId))
      ensures rows == old(rows) + [stored] && nextId == old(nextId) + 1
    {
      stored := row.(id := nextId);
      rows, nextId := rows + [stored], nextId + 1;
    }
  }

  class PropertyTable {
    var rows: seq<Property>
    var nextId: int
    const availableByDefault: bool

    ghost predicate Valid()
      reads this
    {
      && (forall i :: 0 <= i < |rows| ==> rows[i].id < nextId)
      && (forall i, j :: 0 <= i < j < |rows| ==> rows[i].id != rows[j].id)
    }

    constructor (availableByDefault: bool)
      ensures Valid() && rows == [] && nextId == 1
      ensures this.availableByDefault == availableByDefault
    {
      rows, nextId := [], 1;
      this.availableByDefault := availableByDefault;
    }

    /** `property.create`: stores `row` under the next id. */
    method Insert(row: Property) returns (stored: Property)
      requires Valid()
      modifies this
      ensures Valid()
      ensures stored == row.(id := old(nextId))
      ensures rows == old(rows) + [stored] && nextId == old(nextId) + 1
    {
      stored := row.(id := nextId);
      rows, nextId := rows + [stored], nextId + 1;
    }
  }

  class ReviewTable {
    var rows: seq<Review>
    var nextId: int
    const approvedByDefault: bool

    ghost predicate Valid()
      reads this
    {
      && (forall i :: 0 <= i < |rows| ==> rows[i].id < nextId)
      && (forall i, j :: 0 <= i < j < |rows| ==> rows[i].id != rows[j].id)
    }

    constructor (approvedByDefault: bool)
      ensures Valid() && rows == [] && nextId == 1
      ensures this.approvedByDefault == approvedByDefault
    {
      rows, nextId := [], 1;
      this.approvedByDefault := approvedByDefault;
    }

    /** `review.create`: stores `row` under the next id. */
    method Insert(row: Review) returns (stored: Review)
      requires Valid()
      modifies this
      ensures Valid()
      ensures stored == row.(id := old(nextId))
      ensures rows == old(rows) + [stored] && nextId == old(nextId) + 1
    {
      stored := row.(id := nextId);
      rows, nextId := rows + [stored], nextId + 1;
    }
  }

  class UserTable {
    var rows: seq<User>

    ghost predicate Valid()
      reads this
    {
      forall i, j :: 0 <= i < j < |rows| ==> rows[i].id != rows[j].id
    }

    constructor (rows: seq<User>)
      requires forall i, j :: 0 <= i < j < |rows| ==> rows[i].id != rows[j].id
      ensures Valid() && this.rows == rows
    {
      this.rows := rows;
    }
  }

  /** The position of the first row whose key `idOf` is `id`
      (`findUnique`), if any. */
  function IndexOf<T>(rows: seq<T>, idOf: T -> int, id: int): (r: Option<nat>)
    ensures r.None? <==> forall i :: 0 <= i < |rows| ==> idOf(rows[i]) != id
    ensures r.Some? ==> r.value < |rows| && idOf(rows[r.value]) == id
    ensures r.Some? ==> forall k :: 0 <= k < r.value ==> idOf(rows[k]) != id
  {
    if rows == [] then None
    else if idOf(rows[0]) == id then Some(0)
    else
      match IndexOf(rows[1..], idOf, id)
      case None => None
      case Some(k) => Some(k + 1)
  }
}
