/** The restaurants script: restaurants of Vancouver split into chains (a name
    carried by more than one restaurant) and non-chains, and the lookup of all
    locations of one name. */
module Restaurants {
  import opened Frames
  import opened Amenities

  /** The amenity tags counted as restaurants. */
  const RestaurantKinds: seq<string> := ["restaurant", "cafe", "fast_food"]

  predicate IsRestaurantKind(a: Amenity) {
    a.amenity in RestaurantKinds
  }

  predicate HasName(a: Amenity) {
    a.name.Some?
  }

  predicate NamedRestaurant(a: Amenity) {
    IsRestaurantKind(a) && HasName(a)
  }

  /** `get_restaurants`: the restaurant-like amenities, then those with a name. */
  function GetRestaurants(locations: seq<Amenity>): (r: seq<Amenity>)
    ensures forall a :: a in r <==> a in locations && a.amenity in RestaurantKinds && a.name.Some?
    ensures forall a :: multiset(r)[a] == if a.amenity in RestaurantKinds && a.name.Some? then multiset(locations)[a] else 0
  {
    FilterFilter(locations, IsRestaurantKind, HasName, NamedRestaurant);
    forall a ensures multiset(Filter(locations, NamedRestaurant))[a] == if NamedRestaurant(a) then multiset(locations)[a] else 0 {
      FilterCount(locations, NamedRestaurant, a);
    }
    var restaurants := Filter(locations, IsRestaurantKind);
    Filter(restaurants, HasName)
  }

  /** The restaurants keep the order they had among all amenities. */
  lemma GetRestaurantsKeepsOrder(locations: seq<Amenity>)
    ensures IsSubsequence(GetRestaurants(locations), locations)
  {
    FilterFilter(locations, IsRestaurantKind, HasName, NamedRestaurant);
    FilterIsSubsequence(locations, NamedRestaurant);
  }

  /** Every row has a name, as every row `get_restaurants` returns does. */
  ghost predicate AllNamed(restaurants: seq<Amenity>) {
    forall a :: a in restaurants ==> a.name.Some?
  }

  function Named(name: string): Amenity -> bool {
    (a: Amenity) => a.name == Some(name)
  }

  /** The number of restaurants carrying `name`. */
  function Branches(restaurants: seq<Amenity>, name: string): nat {
    |Filter(restaurants, Named(name))|
  }

  /** `groupby('name').count()`: each name present, with the number of rows carrying it. */
  function CountByName(restaurants: seq<Amenity>): (counts: map<string, nat>)
    requires AllNamed(restaurants)
    ensures forall a :: a in restaurants ==> a.name.value in counts
    ensures forall name :: name in counts ==> counts[name] == Branches(restaurants, name) && counts[name] >= 1
  {
    if restaurants == [] then map[]
    else
      var counts := CountByName(restaurants[1..]);
      var name := restaurants[0].name.value;
      assert name !in counts ==> Branches(restaurants[1..], name) == 0 by {
        if name !in counts {
          FilterNone(restaurants[1..], Named(name));
        }
      }
      counts[name := (if name in counts then counts[name] else 0) + 1]
  }

  /** `get_restaurant_count`: the count looked up by name, in counts that hold
      for each name the number of `restaurants` carrying it. */
  function GetRestaurantCount(name: string, counts: map<string, nat>, ghost restaurants: seq<Amenity>): (c: nat)
    requires forall n :: n in counts ==> counts[n] == Branches(restaurants, n)
    requires name in counts
    ensures c == Branches(restaurants, name)
  {
    counts[name]
  }

  /** A restaurant with its `total_branches` column. */
  datatype BranchRow = BranchRow(place: Amenity, totalBranches: nat)

  /** `assign(total_branches=1)` followed by the column write: each row gets the
      number of restaurants that share its name, itself included. */
  function WithBranches(restaurants: seq<Amenity>): (rows: seq<BranchRow>)
    requires AllNamed(restaurants)
    ensures |rows| == |restaurants|
    ensures forall i :: 0 <= i < |rows| ==>
              && rows[i].place == restaurants[i]
              && rows[i].totalBranches == Branches(restaurants, restaurants[i].name.value)
              && rows[i].totalBranches >= 1
  {
    var counts := CountByName(restaurants);
    seq(|restaurants|, i requires 0 <= i < |restaurants| =>
      assert restaurants[i] in restaurants;
      BranchRow(restaurants[i], GetRestaurantCount(restaurants[i].name.value, counts, restaurants)))
  }

  predicate IsChain(row: BranchRow) {
    row.totalBranches > 1
  }

  predicate IsNonChain(row: BranchRow) {
    row.totalBranches < 2
  }

  /** `split_restaurants`: the chain rows and the non-chain rows. */
  function SplitRestaurants(restaurants: seq<Amenity>): (split: (seq<BranchRow>, seq<BranchRow>))
    requires AllNamed(restaurants)
    ensures forall row :: row in split.0 ==>
              row.place in restaurants && row.totalBranches == Branches(restaurants, row.place.name.value) >= 2
    ensures forall row :: row in split.1 ==>
              row.place in restaurants && row.totalBranches == Branches(restaurants, row.place.name.value) == 1
  {
    var rows := WithBranches(restaurants);
    (Filter(rows, IsChain), Filter(rows, IsNonChain))
  }

  /** Every restaurant lands in exactly one group, chosen by how many restaurants
      share its name, and the two groups together are the input. */
  lemma SplitIsPartition(restaurants: seq<Amenity>)
    requires AllNamed(restaurants)
    ensures var (chain, nonChain) := SplitRestaurants(restaurants);
            && multiset(chain) + multiset(nonChain) == multiset(WithBranches(restaurants))
            && |chain| + |nonChain| == |restaurants|
    ensures var (chain, nonChain) := SplitRestaurants(restaurants);
            forall i :: 0 <= i < |restaurants| ==>
              && (WithBranches(restaurants)[i] in chain <==> Branches(restaurants, restaurants[i].name.value) > 1)
              && (WithBranches(restaurants)[i] in nonChain <==> Branches(restaurants, restaurants[i].name.value) == 1)
  {
    var rows := WithBranches(restaurants);
    FilterPartition(rows, IsChain, IsNonChain);
    forall i | 0 <= i < |restaurants|
      ensures rows[i] in rows
    {
    }
  }

  /** Rows that share a name never end up in different groups. */
  lemma SplitKeepsNamesTogether(restaurants: seq<Amenity>)
    requires AllNamed(restaurants)
    ensures var (chain, nonChain) := SplitRestaurants(restaurants);
            forall a, b :: a in chain && b in nonChain ==> a.place.name != b.place.name
  {
  }

  function PlaceNamed(name: string): BranchRow -> bool {
    (row: BranchRow) => row.place.name == Some(name)
  }

  /** Annotating rows does not change how many carry a name. */
  lemma {:induction false} PlaceNamedCount(rows: seq<BranchRow>, restaurants: seq<Amenity>, name: string)
    requires |rows| == |restaurants|
    requires forall i :: 0 <= i < |rows| ==> rows[i].place == restaurants[i]
    ensures |Filter(rows, PlaceNamed(name))| == Branches(restaurants, name)
  {
    if rows != [] {
      PlaceNamedCount(rows[1..], restaurants[1..], name);
    }
  }

  /** Every name in the chain group occurs there at least twice. */
  lemma ChainNamesRepeat(restaurants: seq<Amenity>)
    requires AllNamed(restaurants)
    ensures var chain := SplitRestaurants(restaurants).0;
            forall row :: row in chain ==> |Filter(chain, PlaceNamed(row.place.name.value))| >= 2
  {
    var rows := WithBranches(restaurants);
    var chain := SplitRestaurants(restaurants).0;
    forall row | row in chain
      ensures |Filter(chain, PlaceNamed(row.place.name.value))| >= 2
    {
      var name := row.place.name.value;
      var chainNamed := (r: BranchRow) => IsChain(r) && PlaceNamed(name)(r);
      FilterFilter(rows, IsChain, PlaceNamed(name), chainNamed);
      forall x | x in rows
        ensures chainNamed(x) == PlaceNamed(name)(x)
      {
        var i :| 0 <= i < |rows| && rows[i] == x;
      }
      FilterCongruent(rows, chainNamed, PlaceNamed(name));
      PlaceNamedCount(rows, restaurants, name);
    }
  }

  /** `reset_index` renumbers without reordering: both groups keep the input order. */
  lemma SplitKeepsOrder(restaurants: seq<Amenity>)
    requires AllNamed(restaurants)
    ensures var (chain, nonChain) := SplitRestaurants(restaurants);
            IsSubsequence(chain, WithBranches(restaurants)) && IsSubsequence(nonChain, WithBranches(restaurants))
  {
    var rows := WithBranches(restaurants);
    FilterIsSubsequence(rows, IsChain);
    FilterIsSubsequence(rows, IsNonChain);
  }

  /** The user's lookup: nothing for an empty answer, otherwise every restaurant
      whose name is exactly the answer. */
  function FindByName(restaurants: seq<Amenity>, userInput: string): (found: Option<seq<Amenity>>)
    ensures found.None? <==> userInput == ""
    ensures found.Some? ==> forall a :: a in found.value <==> a in restaurants && a.name == Some(userInput)
  {
    if userInput == "" then None else Some(Filter(restaurants, Named(userInput)))
  }

  /** The lookup draws from all restaurants: it finds one row per branch, and
      all of them sit in the chain group when there are two or more, in the
      non-chain group otherwise. */
  lemma LookupSpansGroups(restaurants: seq<Amenity>, userInput: string)
    requires AllNamed(restaurants)
    requires userInput != ""
    ensures var found := FindByName(restaurants, userInput).value;
            var (chain, nonChain) := SplitRestaurants(restaurants);
            && |found| == Branches(restaurants, userInput)
            && forall a :: a in found ==>
                 BranchRow(a, |found|) in (if |found| >= 2 then chain else nonChain)
  {
    var found := FindByName(restaurants, userInput).value;
    var rows := WithBranches(restaurants);
    forall a | a in found
      ensures BranchRow(a, |found|) in rows
    {
      var i :| 0 <= i < |restaurants| && restaurants[i] == a;
      assert rows[i] == BranchRow(a, |found|);
    }
  }
}
