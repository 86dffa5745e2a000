/** The Airbnb script: which listings are recommendable, how amenities are grouped,
    and which listings lie near exactly one cluster of amenities. */
module Airbnb {
  import opened Frames
  import opened Amenities
  import opened BoundingBoxes

  const MinAirbnbPrice: real := 0.0
  const MaxAirbnbPrice: real := 100000.0
  /** Half side, in kilometres, of the box drawn around each cluster centre. */
  const MaxDistanceFromAmenities: real := 5.0

  const BasicAmenities: seq<string> :=
    ["restaurant", "fast_food", "fuel", "atm", "bank", "pharmacy", "clinic", "cinema", "bar"]
  /** The extra entry of the amenity grouping that holds every basic amenity. */
  const AllAmenitiesKey: string := "all"

  /** Keys of the user's price filter, as the listing filter reads them. */
  const MinPriceKey: string := "min_price"
  const MaxPriceKey: string := "max_price"
  /** The key under which the user's minimum is actually stored. */
  const MinPriceKeyAsWritten: string := "mix_price"

  /** A listing row: the columns the analysis reads, plus the id and name that make
      distinct listings distinct rows. A missing price or review score is `None`. */
  datatype Listing = Listing(
    id: int,
    name: string,
    hostIdentityVerified: string,
    lat: real,
    lon: real,
    price: Option<real>,
    numReviews: int,
    reviewScore: Option<real>)

  // ----------------------------------------------------------------------------
  // Grouping amenities by category

  function OfCategory(category: string): Amenity -> bool {
    (a: Amenity) => a.amenity == category
  }

  function InCategories(categories: seq<string>): Amenity -> bool {
    (a: Amenity) => a.amenity in categories
  }

  /** `filter_amenities`: one entry per basic category, plus "all". */
  method FilterAmenities(locations: seq<Amenity>) returns (types: map<string, seq<Amenity>>)
    ensures types.Keys == (set c | c in BasicAmenities) + {AllAmenitiesKey}
    ensures forall c :: c in BasicAmenities ==> types[c] == Filter(locations, OfCategory(c))
    ensures forall c, a :: c in BasicAmenities ==> (a in types[c] <==> a in locations && a.amenity == c)
    ensures forall a :: a in types[AllAmenitiesKey] <==> a in locations && a.amenity in BasicAmenities
    ensures types[AllAmenitiesKey] == Filter(locations, InCategories(BasicAmenities))
  {
    types := map[];
    for i := 0 to |BasicAmenities|
      invariant types.Keys == set j | 0 <= j < i :: BasicAmenities[j]
      invariant forall j :: 0 <= j < i ==> types[BasicAmenities[j]] == Filter(locations, OfCategory(BasicAmenities[j]))
    {
      var amenity := BasicAmenities[i];
      types := types[amenity := Filter(locations, OfCategory(amenity))];
    }
    assert AllAmenitiesKey !in BasicAmenities;
    types := types[AllAmenitiesKey := Filter(locations, InCategories(BasicAmenities))];
  }

  /** The sizes of the per-category entries for `categories`, added up. */
  function CategorySizes(locations: seq<Amenity>, categories: seq<string>): nat {
    if categories == [] then 0
    else |Filter(locations, OfCategory(categories[0]))| + CategorySizes(locations, categories[1..])
  }

  /** With no category listed twice, the category entries together hold exactly the
      rows of the combined entry. */
  lemma {:induction false} CategorySizesSum(locations: seq<Amenity>, categories: seq<string>)
    requires Distinct(categories)
    ensures CategorySizes(locations, categories) == |Filter(locations, InCategories(categories))|
  {
    if categories == [] {
      FilterNone(locations, InCategories(categories));
    } else {
      var rest := categories[1..];
      assert Distinct(rest) by {
        forall i, j | 0 <= i < j < |rest| ensures rest[i] != rest[j] {
          assert rest[i] == categories[i + 1] && rest[j] == categories[j + 1];
        }
      }
      assert categories[0] !in rest by {
        forall j | 0 <= j < |rest| ensures rest[j] != categories[0] {
          assert rest[j] == categories[j + 1];
        }
      }
      assert categories == [categories[0]] + rest;
      CategorySizesSum(locations, rest);
      FilterDisjointUnion(locations, OfCategory(categories[0]), InCategories(rest), InCategories(categories));
    }
  }

  /** The nine basic categories are distinct, so their entries add up to "all". */
  lemma BasicCategorySizes(locations: seq<Amenity>)
    ensures CategorySizes(locations, BasicAmenities) == |Filter(locations, InCategories(BasicAmenities))|
  {
    assert Distinct(BasicAmenities);
    CategorySizesSum(locations, BasicAmenities);
  }

  // ----------------------------------------------------------------------------
  // Filtering listings

  predicate HasReviewScore(l: Listing) {
    l.reviewScore.Some?
  }

  /** `num_reviews > 10 & review_score > 75`; a missing score compares false. */
  predicate ManyGoodReviews(l: Listing) {
    l.numReviews > 10 && l.reviewScore.Some? && l.reviewScore.value > 75.0
  }

  predicate VerifiedHost(l: Listing) {
    l.hostIdentityVerified == "t"
  }

  /** `min <= price & price <= max`; a missing price compares false on both sides. */
  predicate PriceWithin(price: Option<real>, bounds: (real, real)) {
    price.Some? && bounds.0 <= price.value <= bounds.1
  }

  /** The bounds the filter reads, falling back to 0 and 100000 for missing keys. */
  function PriceBounds(userFilter: map<string, real>): (real, real) {
    ( if MinPriceKey in userFilter then userFilter[MinPriceKey] else MinAirbnbPrice,
      if MaxPriceKey in userFilter then userFilter[MaxPriceKey] else MaxAirbnbPrice )
  }

  /** A listing worth recommending: a review score above 75 from more than ten
      reviews, a verified host, and, when the user gave any price, a known price
      within the user's range. */
  predicate Recommendable(l: Listing, userFilter: map<string, real>) {
    && l.reviewScore.Some?
    && l.numReviews > 10
    && l.reviewScore.value > 75.0
    && l.hostIdentityVerified == "t"
    && (userFilter != map[] ==> PriceWithin(l.price, PriceBounds(userFilter)))
  }

  function Admits(userFilter: map<string, real>): Listing -> bool {
    (l: Listing) => Recommendable(l, userFilter)
  }

  /** `filter_listings`: the masks applied one after another. */
  function FilterListings(listings: seq<Listing>, userFilter: map<string, real>): (r: seq<Listing>)
    ensures forall l :: l in r <==> l in listings && Recommendable(l, userFilter)
  {
    var reviewed := Filter(listings, HasReviewScore);
    var popular := Filter(reviewed, ManyGoodReviews);
    var verified := Filter(popular, VerifiedHost);
    if userFilter != map[] then
      var bounds := PriceBounds(userFilter);
      Filter(verified, (l: Listing) => PriceWithin(l.price, bounds))
    else
      verified
  }

  /** The chain of masks is one mask. */
  lemma {:induction false} FilterListingsIsOneMask(listings: seq<Listing>, userFilter: map<string, real>)
    ensures FilterListings(listings, userFilter) == Filter(listings, Admits(userFilter))
  {
    var reviewedWell := (l: Listing) => HasReviewScore(l) && ManyGoodReviews(l);
    var verified := (l: Listing) => reviewedWell(l) && VerifiedHost(l);
    FilterFilter(listings, HasReviewScore, ManyGoodReviews, reviewedWell);
    FilterFilter(listings, reviewedWell, VerifiedHost, verified);
    if userFilter != map[] {
      var bounds := PriceBounds(userFilter);
      FilterFilter(listings, verified, (l: Listing) => PriceWithin(l.price, bounds), Admits(userFilter));
    } else {
      FilterCongruent(listings, verified, Admits(userFilter));
    }
  }

  /** The filtered listings keep their original order. */
  lemma FilterListingsKeepsOrder(listings: seq<Listing>, userFilter: map<string, real>)
    ensures IsSubsequence(FilterListings(listings, userFilter), listings)
  {
    FilterListingsIsOneMask(listings, userFilter);
    FilterIsSubsequence(listings, Admits(userFilter));
  }

  /** Filtering the filtered listings again changes nothing. */
  lemma FilterListingsIdempotent(listings: seq<Listing>, userFilter: map<string, real>)
    ensures FilterListings(FilterListings(listings, userFilter), userFilter) == FilterListings(listings, userFilter)
  {
    var once := FilterListings(listings, userFilter);
    FilterListingsIsOneMask(once, userFilter);
    FilterAll(once, Admits(userFilter));
  }

  // ----------------------------------------------------------------------------
  // The user's price range

  /** The dictionary `get_user_input` builds from two answers, with the minimum
      stored under `minKey`; `None` stands for an empty answer. */
  ghost predicate StoresPrices(userFilter: map<string, real>, minKey: string, minPrice: Option<real>, maxPrice: Option<real>) {
    && userFilter.Keys == (if minPrice.Some? then {minKey} else {}) + (if maxPrice.Some? then {MaxPriceKey} else {})
    && (minPrice.Some? ==> userFilter[minKey] == minPrice.value)
    && (maxPrice.Some? ==> userFilter[MaxPriceKey] == maxPrice.value)
  }

  /** `get_user_input` as written: a given minimum goes under "mix_price". */
  method GetUserInput(minPrice: Option<real>, maxPrice: Option<real>) returns (inputVal: map<string, real>)
    ensures StoresPrices(inputVal, MinPriceKeyAsWritten, minPrice, maxPrice)
  {
    inputVal := map[];
    if minPrice.Some? {
      inputVal := inputVal[MinPriceKeyAsWritten := minPrice.value];
    }
    if maxPrice.Some? {
      inputVal := inputVal[MaxPriceKey := maxPrice.value];
    }
  }

  /** `get_user_input` with the minimum stored under the key the filter reads. */
  method GetUserInputCorrected(minPrice: Option<real>, maxPrice: Option<real>) returns (inputVal: map<string, real>)
    ensures StoresPrices(inputVal, MinPriceKey, minPrice, maxPrice)
  {
    inputVal := map[];
    if minPrice.Some? {
      inputVal := inputVal[MinPriceKey := minPrice.value];
    }
    if maxPrice.Some? {
      inputVal := inputVal[MaxPriceKey := maxPrice.value];
    }
  }

  /** As written, any answer switches the price filter on, but the lower bound is
      always 0: only a user maximum takes effect. */
  lemma UserMinimumNeverApplies(userFilter: map<string, real>, minPrice: Option<real>, maxPrice: Option<real>)
    requires StoresPrices(userFilter, MinPriceKeyAsWritten, minPrice, maxPrice)
    ensures userFilter != map[] <==> minPrice.Some? || maxPrice.Some?
    ensures PriceBounds(userFilter) == (MinAirbnbPrice, maxPrice.GetOr(MaxAirbnbPrice))
  {
  }

  /** With the corrected key, both of the user's bounds take effect. */
  lemma UserBoundsApply(userFilter: map<string, real>, minPrice: Option<real>, maxPrice: Option<real>)
    requires StoresPrices(userFilter, MinPriceKey, minPrice, maxPrice)
    ensures userFilter != map[] <==> minPrice.Some? || maxPrice.Some?
    ensures PriceBounds(userFilter) == (minPrice.GetOr(MinAirbnbPrice), maxPrice.GetOr(MaxAirbnbPrice))
  {
  }

  /** A well-reviewed listing priced 10 passes a minimum of 50 as written, and is
      dropped once the minimum is stored under the key the filter reads. */
  lemma CheapListingPassesMinimum()
    ensures var cheap := Listing(1, "room", "t", 49.25, -123.1, Some(10.0), 20, Some(90.0));
            && StoresPrices(map[MinPriceKeyAsWritten := 50.0], MinPriceKeyAsWritten, Some(50.0), None)
            && cheap in FilterListings([cheap], map[MinPriceKeyAsWritten := 50.0])
            && StoresPrices(map[MinPriceKey := 50.0], MinPriceKey, Some(50.0), None)
            && cheap !in FilterListings([cheap], map[MinPriceKey := 50.0])
  {
  }

  // ----------------------------------------------------------------------------
  // Ideal listings: near exactly one cluster of amenities

  /** A k-means cluster centre, latitude and longitude in degrees. */
  datatype Centre = Centre(lat: real, lon: real)

  /** What `get_ideal_listings` raises: a failed assertion in `get_bounding_box`, or
      `pd.concat` given no frames at all. */
  datatype IdealError = InvalidCentre(reason: BoxError) | NoObjectsToConcatenate

  /** The box drawn around one centre. */
  function CentreBox(centre: Centre, distance: real, cos: real -> real): Result<BoundingBox, BoxError>
    requires IsLatitudeCosine(cos)
  {
    GetBoundingBox(centre.lat, centre.lon, distance, cos(Radians(centre.lat)))
  }

  /** With the script's 5 km half side, the boxes exist exactly when every centre
      lies in the valid latitude and longitude ranges. */
  lemma ScriptDistanceBoxes(centres: seq<Centre>, cos: real -> real)
    requires IsLatitudeCosine(cos)
    ensures BoxesAround(centres, MaxDistanceFromAmenities, cos).Success? <==>
              forall i :: 0 <= i < |centres| ==> ValidLatitude(centres[i].lat) && ValidLongitude(centres[i].lon)
  {
  }

  /** The list comprehension of boxes, one per centre, in order; it raises at the
      first centre whose box fails. */
  function BoxesAround(centres: seq<Centre>, distance: real, cos: real -> real): (r: Result<seq<BoundingBox>, BoxError>)
    requires IsLatitudeCosine(cos)
    ensures r.Success? <==> forall i :: 0 <= i < |centres| ==> CentreBox(centres[i], distance, cos).Success?
    ensures r.Success? ==>
              && |r.value| == |centres|
              && forall i :: 0 <= i < |centres| ==> CentreBox(centres[i], distance, cos) == Success(r.value[i])
  {
    if centres == [] then Success([])
    else
      match CentreBox(centres[0], distance, cos)
      case Failure(e) => Failure(e)
      case Success(box) =>
        match BoxesAround(centres[1..], distance, cos)
        case Failure(e) => Failure(e)
        case Success(boxes) => Success([box] + boxes)
  }

  /** When the comprehension raises, it raises the error of the first centre whose
      box fails; every centre before it has a box. */
  lemma {:induction false} BoxesAroundFirstFailure(centres: seq<Centre>, distance: real, cos: real -> real)
    requires IsLatitudeCosine(cos)
    requires BoxesAround(centres, distance, cos).Failure?
    ensures exists i :: && 0 <= i < |centres|
                        && CentreBox(centres[i], distance, cos) == Failure(BoxesAround(centres, distance, cos).error)
                        && forall j :: 0 <= j < i ==> CentreBox(centres[j], distance, cos).Success?
  {
    if CentreBox(centres[0], distance, cos).Success? {
      BoxesAroundFirstFailure(centres[1..], distance, cos);
      var i :| && 0 <= i < |centres[1..]|
               && CentreBox(centres[1..][i], distance, cos) == Failure(BoxesAround(centres[1..], distance, cos).error)
               && forall j :: 0 <= j < i ==> CentreBox(centres[1..][j], distance, cos).Success?;
      assert centres[i + 1] == centres[1..][i];
      forall j | 0 <= j < i + 1
        ensures CentreBox(centres[j], distance, cos).Success?
      {
        if j > 0 {
          assert centres[j] == centres[1..][j - 1];
        }
      }
    }
  }

  /** Strictly inside: a listing on a bound is outside. */
  predicate InsideBox(box: BoundingBox, l: Listing) {
    box.latMin < l.lat < box.latMax && box.lonMin < l.lon < box.lonMax
  }

  /** First mask of one loop iteration: above both minimums. */
  function AboveMinimums(box: BoundingBox): Listing -> bool {
    (l: Listing) => l.lat > box.latMin && l.lon > box.lonMin
  }

  /** Second mask of one loop iteration: below both maximums. */
  function BelowMaximums(box: BoundingBox): Listing -> bool {
    (l: Listing) => l.lat < box.latMax && l.lon < box.lonMax
  }

  /** The two masks of one loop iteration, one after the other. */
  function SelectInBox(listings: seq<Listing>, box: BoundingBox): (r: seq<Listing>)
    ensures forall l :: l in r <==> l in listings && box.latMin < l.lat < box.latMax && box.lonMin < l.lon < box.lonMax
  {
    Filter(Filter(listings, AboveMinimums(box)), BelowMaximums(box))
  }

  /** Each copy of a listing strictly inside the box is selected, and nothing else. */
  lemma SelectInBoxCount(listings: seq<Listing>, box: BoundingBox, l: Listing)
    ensures multiset(SelectInBox(listings, box))[l] == if InsideBox(box, l) then multiset(listings)[l] else 0
  {
    FilterCount(listings, AboveMinimums(box), l);
    FilterCount(Filter(listings, AboveMinimums(box)), BelowMaximums(box), l);
  }

  /** The per-box selections, in box order. */
  function Selections(listings: seq<Listing>, boxes: seq<BoundingBox>): seq<seq<Listing>> {
    seq(|boxes|, i requires 0 <= i < |boxes| => SelectInBox(listings, boxes[i]))
  }

  function Contains(l: Listing): BoundingBox -> bool {
    (box: BoundingBox) => InsideBox(box, l)
  }

  /** How many of the boxes hold the listing strictly inside. */
  function BoxesContaining(boxes: seq<BoundingBox>, l: Listing): nat {
    |Filter(boxes, Contains(l))|
  }

  /** A listing occurs in the concatenated selections once per copy in the input and
      per box that holds it. */
  lemma {:induction false} ConcatSelectionsCount(listings: seq<Listing>, boxes: seq<BoundingBox>, l: Listing)
    ensures multiset(Concat(Selections(listings, boxes)))[l] == multiset(listings)[l] * BoxesContaining(boxes, l)
  {
    if boxes != [] {
      var frames := Selections(listings, boxes);
      assert frames[1..] == Selections(listings, boxes[1..]);
      var copies := multiset(listings)[l];
      var inFirst := multiset(frames[0])[l];
      var inOthers := multiset(Concat(frames[1..]))[l];
      assert multiset(Concat(frames))[l] == inFirst + inOthers;
      ConcatSelectionsCount(listings, boxes[1..], l);
      assert inOthers == copies * BoxesContaining(boxes[1..], l);
      SelectInBoxCount(listings, boxes[0], l);
      var first := if InsideBox(boxes[0], l) then 1 else 0;
      assert inFirst == copies * first;
      assert BoxesContaining(boxes, l) == first + BoxesContaining(boxes[1..], l);
      Distribute(copies, first, BoxesContaining(boxes[1..], l));
    }
  }

  lemma Distribute(a: nat, b: nat, c: nat)
    ensures a * (b + c) == a * b + a * c
  {
  }

  lemma ProductIsOne(a: nat, b: nat)
    ensures a * b == 1 <==> a == 1 && b == 1
  {
  }

  /** `get_ideal_listings`: a box per centre, the listings strictly inside each box
      appended frame by frame, then `pd.concat(...).drop_duplicates(keep=False)`.
      A listing survives exactly when it is a single row of the input lying strictly
      inside exactly one box. */
  method GetIdealListings(listings: seq<Listing>, centres: seq<Centre>, distance: real, cos: real -> real)
    returns (r: Result<seq<Listing>, IdealError>)
    requires IsLatitudeCosine(cos)
    ensures BoxesAround(centres, distance, cos).Failure? ==>
              r == Failure(InvalidCentre(BoxesAround(centres, distance, cos).error))
    ensures BoxesAround(centres, distance, cos).Success? && centres == [] ==> r == Failure(NoObjectsToConcatenate)
    ensures r.Success? <==> BoxesAround(centres, distance, cos).Success? && centres != []
    ensures r.Success? ==>
              forall l :: l in r.value <==>
                multiset(listings)[l] == 1 && BoxesContaining(BoxesAround(centres, distance, cos).value, l) == 1
    ensures r.Success? ==>
              IsSubsequence(r.value, Concat(Selections(listings, BoxesAround(centres, distance, cos).value)))
  {
    var boxes := BoxesAround(centres, distance, cos);
    if boxes.Failure? {
      return Failure(InvalidCentre(boxes.error));
    }
    var idealLocations := boxes.value;
    var idealListings: seq<seq<Listing>> := [];
    for i := 0 to |idealLocations|
      invariant |idealListings| == i
      invariant forall j :: 0 <= j < i ==> idealListings[j] == SelectInBox(listings, idealLocations[j])
    {
      var location := idealLocations[i];
      var aboveMinimums := Filter(listings, AboveMinimums(location));
      var inside := Filter(aboveMinimums, BelowMaximums(location));
      idealListings := idealListings + [inside];
    }
    if idealListings == [] {
      return Failure(NoObjectsToConcatenate);
    }
    assert idealListings == Selections(listings, idealLocations);
    var concatenated := Concat(idealListings);
    var idealRentals := DropAllDuplicates(concatenated);
    forall l ensures l in idealRentals <==> multiset(listings)[l] == 1 && BoxesContaining(idealLocations, l) == 1 {
      ConcatSelectionsCount(listings, idealLocations, l);
      ProductIsOne(multiset(listings)[l], BoxesContaining(idealLocations, l));
    }
    DropAllDuplicatesShape(concatenated);
    r := Success(idealRentals);
  }
}
