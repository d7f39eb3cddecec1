/** `src/app/properties/page.tsx`: the public listing page. The fetched
    properties become cards carrying a city, a review count and a rounded
    rating; a case-insensitive search keeps some of them, and the chosen
    sort mode orders the copy in place. */
module PropertiesPage {
  import opened Domain
  import opened Lists
  import opened Sorting
  import opened Text

  /** One entry of `GET /api/properties`: the property and the ratings of
      its reviews. */
  datatype Listing = Listing(property: Property, ratings: seq<int>)

  /** One card on the page. */
  datatype Card = Card(property: Property, city: string, rating: int, reviews: nat)

  /** A rating counts as itself in the sum of ratings. */
  function RatingValue(rating: int): int
  {
    rating
  }

  /** `Math.round`: the nearest integer, halves rounded up. */
  function Round(x: real): (n: int)
    ensures n as real - 0.5 <= x < n as real + 0.5
  {
    (x + 0.5).Floor
  }

  /** The mapping of one fetched entry: `city` is the location, `reviews`
      the number of reviews, and `rating` the average rounded to the
      nearest integer, 0 without reviews. */
  function ToCard(l: Listing): (c: Card)
    ensures c.property == l.property && c.city == l.property.location
    ensures c.reviews == |l.ratings|
    ensures c.reviews == 0 ==> c.rating == 0
    ensures c.reviews > 0 ==>
              c.rating as real - 0.5 <= (Sum(l.ratings, RatingValue) as real) / (|l.ratings| as real) < c.rating as real + 0.5
  {
    var total := |l.ratings|;
    var rating := if total > 0 then Round((Sum(l.ratings, RatingValue) as real) / (total as real)) else 0;
    Card(l.property, l.property.location, rating, total)
  }

  lemma {:induction false} SumBetween(ratings: seq<int>)
    requires forall i :: 0 <= i < |ratings| ==> 1 <= ratings[i] <= 5
    ensures |ratings| <= Sum(ratings, RatingValue) <= 5 * |ratings|
  {
    if ratings != [] {
      SumBetween(ratings[1..]);
    }
  }

  /** An average of numbers from 1 to 5 lies between 1 and 5. */
  lemma AverageBetween(total: real, n: real)
    requires n > 0.0 && n <= total <= 5.0 * n
    ensures 1.0 <= total / n <= 5.0
  {
    assert total / n * n == total;
  }

  /** With ratings from 1 to 5, a reviewed property's card shows 1 to 5
      stars. */
  lemma CardRatingInRange(l: Listing)
    requires |l.ratings| > 0
    requires forall i :: 0 <= i < |l.ratings| ==> 1 <= l.ratings[i] <= 5
    ensures 1 <= ToCard(l).rating <= 5
  {
    SumBetween(l.ratings);
    var avg := (Sum(l.ratings, RatingValue) as real) / (|l.ratings| as real);
    AverageBetween(Sum(l.ratings, RatingValue) as real, |l.ratings| as real);
    var c := ToCard(l);
    assert c.rating as real - 0.5 <= avg < c.rating as real + 0.5;
  }

  function ToCards(data: seq<Listing>): (r: seq<Card>)
    ensures |r| == |data|
    ensures forall i :: 0 <= i < |data| ==> r[i] == ToCard(data[i])
  {
    if data == [] then [] else [ToCard(data[0])] + ToCards(data[1..])
  }

  /** The search box test: the lowered title or city contains the lowered
      search text. */
  predicate Found(c: Card, search: string)
  {
    Contains(Lower(c.property.title), Lower(search)) || Contains(Lower(c.city), Lower(search))
  }

  function FoundBy(search: string): Card -> bool
  {
    (c: Card) => Found(c, search)
  }

  /** An empty search keeps every card. */
  lemma EmptySearchKeepsAll(cards: seq<Card>)
    ensures Filter(cards, FoundBy("")) == cards
  {
    forall i | 0 <= i < |cards|
      ensures FoundBy("")(cards[i])
    {
      ContainsEmpty(Lower(cards[i].property.title));
    }
    FilterKeepsAll(cards, FoundBy(""));
  }

  /** The search ignores the case of ASCII letters in the search text. */
  lemma SearchIgnoresCase(c: Card, search: string)
    ensures Found(c, Lower(search)) <==> Found(c, search)
  {
    LowerIdempotent(search);
  }

  /** The sort modes, as keys for a descending sort: the comparators of
      "oldest" and "priceLow" order ascending, so their keys are negated. */
  function NewestFirst(c: Card): int { c.property.createdAt }
  function OldestFirst(c: Card): int { -c.property.createdAt }
  function CheapestFirst(c: Card): int { -c.property.rent }
  function DearestFirst(c: Card): int { c.property.rent }
  function BestRatedFirst(c: Card): int { c.rating }

  function SortKey(sort: string): Option<Card -> int>
  {
    if sort == "newest" then Some(NewestFirst)
    else if sort == "oldest" then Some(OldestFirst)
    else if sort == "priceLow" then Some(CheapestFirst)
    else if sort == "priceHigh" then Some(DearestFirst)
    else if sort == "rating" then Some(BestRatedFirst)
    else None
  }

  /** What the page shows for a card list, a search text and a sort mode:
      the found cards, each kept once, ordered as the mode says; an unknown
      mode keeps the found cards in their order. */
  ghost predicate Shows(shown: seq<Card>, cards: seq<Card>, search: string, sort: string)
  {
    && multiset(shown) == multiset(Filter(cards, FoundBy(search)))
    && (sort == "newest" ==>
          forall i, j :: 0 <= i < j < |shown| ==> shown[i].property.createdAt >= shown[j].property.createdAt)
    && (sort == "oldest" ==>
          forall i, j :: 0 <= i < j < |shown| ==> shown[i].property.createdAt <= shown[j].property.createdAt)
    && (sort == "priceLow" ==>
          forall i, j :: 0 <= i < j < |shown| ==> shown[i].property.rent <= shown[j].property.rent)
    && (sort == "priceHigh" ==>
          forall i, j :: 0 <= i < j < |shown| ==> shown[i].property.rent >= shown[j].property.rent)
    && (sort == "rating" ==>
          forall i, j :: 0 <= i < j < |shown| ==> shown[i].rating >= shown[j].rating)
    && (SortKey(sort).None? ==> shown == Filter(cards, FoundBy(search)))
  }

  /** A permutation of the found cards shows them when it is ordered by the
      mode's key, or when it is the found list itself for an unknown mode. */
  lemma SortedByKeyShows(shown: seq<Card>, cards: seq<Card>, search: string, sort: string)
    requires multiset(shown) == multiset(Filter(cards, FoundBy(search)))
    requires SortKey(sort).Some? ==> SortedDesc(shown, SortKey(sort).value)
    requires SortKey(sort).None? ==> shown == Filter(cards, FoundBy(search))
    ensures Shows(shown, cards, search, sort)
  {
  }

  /** The options of the sort menu. */
  datatype SortOption = SortOption(value: string, title: string)

  const SortOptions := [SortOption("newest", "Newest"), SortOption("oldest", "Oldest"),
                        SortOption("priceLow", "Price: Low to High"), SortOption("priceHigh", "Price: High to Low"),
                        SortOption("rating", "Top Rated")]

  function HasValue(sort: string): SortOption -> bool
  {
    (o: SortOption) => o.value == sort
  }

  /** `sortOptions.find(o => o.value === sort) || sortOptions[0]`. */
  function SelectedOption(sort: string): (o: SortOption)
    ensures o in SortOptions
    ensures (exists i :: 0 <= i < |SortOptions| && SortOptions[i].value == sort) ==> o.value == sort
    ensures (forall i :: 0 <= i < |SortOptions| ==> SortOptions[i].value != sort) ==> o == SortOptions[0]
  {
    var found := FindFirst(SortOptions, HasValue(sort));
    if found.Some? then found.value else SortOptions[0]
  }

  /** The known sort modes are exactly the menu's values. */
  lemma SortModesAreMenuValues(sort: string)
    ensures SortKey(sort).Some? <==> exists i :: 0 <= i < |SortOptions| && SortOptions[i].value == sort
  {
    if SortKey(sort).Some? {
      if sort == "newest" { assert SortOptions[0].value == sort; }
      else if sort == "oldest" { assert SortOptions[1].value == sort; }
      else if sort == "priceLow" { assert SortOptions[2].value == sort; }
      else if sort == "priceHigh" { assert SortOptions[3].value == sort; }
      else { assert SortOptions[4].value == sort; }
    }
  }

  /** The page's state. */
  class Page {
    var properties: seq<Card>
    var search: string
    var sort: string
    var filtered: seq<Card>
    var loading: bool

    constructor()
      ensures properties == [] && search == "" && sort == "newest" && filtered == [] && loading
    {
      properties := [];
      search := "";
      sort := "newest";
      filtered := [];
      loading := true;
    }

    /** The effect that runs whenever the search, the sort or the
        properties change: filter, copy into a buffer, sort it in place
        with the mode's comparator, and show the buffer. */
    method Recompute()
      modifies this
      ensures Shows(filtered, properties, search, sort)
      ensures properties == old(properties) && search == old(search) && sort == old(sort)
      ensures loading == old(loading)
    {
      var filteredList := Filter(properties, FoundBy(search));
      var buffer := new Card[|filteredList|](i requires 0 <= i < |filteredList| => filteredList[i]);
      assert buffer[..] == filteredList;
      var key := SortKey(sort);
      if key.Some? {
        SortInPlace(buffer, key.value);
      }
      SortedByKeyShows(buffer[..], properties, search, sort);
      filtered := buffer[..];
    }

    /** `fetchProperties` followed by the effect. `response` is the parsed
        list, `None` when the request or `res.json()` fails or the body is
        not a list; the handler has no `catch` or `finally`, so a failure
        leaves `loading` set and the cards as they were. */
    method FetchProperties(response: Option<seq<Listing>>)
      modifies this
      ensures search == old(search) && sort == old(sort)
      ensures response.Some? ==> properties == ToCards(response.value) && !loading &&
                                 Shows(filtered, properties, search, sort)
      ensures response.None? ==> loading && properties == old(properties) && filtered == old(filtered)
    {
      loading := true;
      if response.None? {
        return;
      }
      properties := ToCards(response.value);
      loading := false;
      Recompute();
    }

    /** Typing in the search box, followed by the effect. */
    method SetSearch(text: string)
      modifies this
      ensures search == text && properties == old(properties) && sort == old(sort) && loading == old(loading)
      ensures Shows(filtered, properties, search, sort)
    {
      search := text;
      Recompute();
    }

    /** Choosing a sort mode, followed by the effect. */
    method SetSort(mode: string)
      modifies this
      ensures sort == mode && properties == old(properties) && search == old(search) && loading == old(loading)
      ensures Shows(filtered, properties, search, sort)
    {
      sort := mode;
      Recompute();
    }
  }
}
