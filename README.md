# Vancouver amenities, Airbnb listings and restaurant chains — a Dafny model

Two analysis scripts read a file of Vancouver points of interest ("amenities")
and, for the first script, a file of Airbnb listings. This project models the
logic between loading and plotting:

- **Airbnb script** (`Airbnb`): keeping only well-reviewed listings with a
  verified host, optionally within the user's price range; grouping amenities by
  category; drawing a box with a 5 km half side around each amenity cluster
  centre and keeping the listings that lie strictly inside exactly one box, via
  `drop_duplicates(keep=False)`. A comment in `filter_listings` describes the
  review thresholds as at least 10 reviews and a score of at least 75. The code
  compares strictly, so a listing with exactly 10 reviews or a score of exactly
  75 is dropped, and the model follows the code.
- **Bounding box** (`BoundingBoxes`): the latitude/longitude rectangle around a
  point on a spherical Earth of radius 6371 km, with the three argument checks.
- **Restaurants script** (`Restaurants`): keeping named restaurants, cafés and
  fast-food places, counting how many share each name, splitting them into chain
  (more than one branch) and non-chain, and the lookup of every branch of one name.

Frames are sequences of row datatypes (`Frames`). A boolean-mask subset is
`Frames.Filter`, `pd.concat` is `Frames.Concat`, and
`drop_duplicates(keep=False)` is `Frames.DropAllDuplicates`: a row survives only
if it occurs exactly once. A missing value (NaN) is `None`, and every comparison
with it is false, as in pandas. Angles are `real`s. `math.radians` multiplies by
the constant `RadiansPerDegree` and `math.degrees` divides by it. `math.cos` of
the latitude is a parameter. The model only knows it lies in (0, 1] for a
latitude in [-90, 90]. The bounding-box properties are therefore exact statements
over the reals.

Exceptions raised by the code become `Result` values: a failed assertion in
`get_bounding_box` is a `BoxError`, and `pd.concat` of an empty list is
`NoObjectsToConcatenate`. With zero cluster centres the list of selections is
empty, `pd.concat([])` raises `ValueError("No objects to concatenate")`, and
`Airbnb.GetIdealListings` returns `Failure(NoObjectsToConcatenate)`.

## Model

| member | source | states |
|---|---|---|
| `Frames.Filter` | restuarants/restaurants.py:56-57 | a boolean-mask subset holds exactly the input rows the mask accepts and is never longer than the input |
| `Frames.Concat` | airbnb/airbnb.py:182 | `pd.concat` holds every row of every frame, and no row that is in none of them |
| `Frames.ConcatCount` | airbnb/airbnb.py:182 | `pd.concat` keeps every copy: a row occurs in the result as often as in all the frames together |
| `Frames.ConcatSplit` | airbnb/airbnb.py:182 | `pd.concat` keeps the frames in order: the rows of the first k frames come before the rows of the rest |
| `Frames.DropAllDuplicates` | airbnb/airbnb.py:182 | `drop_duplicates(keep=False)` keeps a row exactly when it occurs once in the input |
| `Frames.DropAllDuplicatesShape` | airbnb/airbnb.py:182 | the survivors keep their input order and each occurs exactly once in the output |
| `BoundingBoxes.GetBoundingBox` | airbnb/bounding_box.py:14-37 | fails with the first failing check, in order: half side not positive, latitude outside [-90, 90], longitude outside [-180, 180]; on success the point lies strictly inside the box |
| `BoundingBoxes.BoxIsSymmetric` | airbnb/bounding_box.py:25-28 | the midpoints of both spans are the input latitude and longitude |
| `BoundingBoxes.LatitudeHalfSpan` | airbnb/bounding_box.py:22-26 | the latitude half-span is halfSide/6371 radians in degrees on both sides, whatever the position |
| `BoundingBoxes.LongitudeHalfSpan` | airbnb/bounding_box.py:23-28 | the longitude half-span is halfSide/(6371·cos lat) radians in degrees, and the longitude span is never narrower than the latitude span |
| `BoundingBoxes.WiderWithLargerHalfSide` | airbnb/bounding_box.py:25-28 | a larger half side still gives a box, and that box strictly contains the smaller one on all four sides |
| `BoundingBoxes.BoundsNotClamped` | airbnb/bounding_box.py:25-35 | the box around (90, 180) reaches past latitude 90 and longitude 180: bounds are neither clamped nor wrapped |
| `BoundingBoxes.VancouverBox` | airbnb/bounding_box.py:14-37 | around (49.246292, -123.116226) with a 5 km half side, latMin is in (49.2013, 49.2014) and latMax in (49.2912, 49.2913), and the longitude span is wider than the latitude span |
| `Airbnb.FilterAmenities` | airbnb/airbnb.py:86-92 | one entry per basic category plus "all"; each category entry holds exactly the amenities of that category, and "all" exactly those whose category is one of the nine |
| `Airbnb.CategorySizesSum` | airbnb/airbnb.py:86-92 | for a list of distinct categories, the sizes of the category entries add up to the size of the combined entry |
| `Airbnb.BasicCategorySizes` | airbnb/airbnb.py:17 | the nine basic categories are distinct, so their entry sizes add up to the size of "all" |
| `Airbnb.FilterListings` | airbnb/airbnb.py:95-113 | a listing is kept exactly when it has a review score, more than 10 reviews, a score above 75 and a verified host, and, when the user filter is non-empty, a known price within the inclusive bounds (default 0 and 100000); a missing price is dropped |
| `Airbnb.FilterListingsIsOneMask` | airbnb/airbnb.py:99-109 | the chain of masks equals one mask with the conjunction of the conditions |
| `Airbnb.FilterListingsKeepsOrder` | airbnb/airbnb.py:99-109 | the filtered listings are an order-preserving subsequence of the input |
| `Airbnb.FilterListingsIdempotent` | airbnb/airbnb.py:99-109 | filtering the output again with the same user filter changes nothing |
| `Airbnb.GetUserInput` | airbnb/airbnb.py:47-58 | the dictionary has a key only for each non-empty answer: the minimum under "mix_price", the maximum under "max_price" |
| `Airbnb.GetUserInputCorrected` | airbnb/airbnb.py:47-58 | the same dictionary with the minimum under "min_price", the key the filter reads |
| `Airbnb.UserMinimumNeverApplies` | airbnb/airbnb.py:106-109 | with the dictionary as written, any answer switches the price filter on, yet the lower bound is always 0 and only a user maximum takes effect |
| `Airbnb.UserBoundsApply` | airbnb/airbnb.py:106-109 | with the corrected dictionary, both the user's minimum and maximum become the bounds |
| `Airbnb.CheapListingPassesMinimum` | airbnb/airbnb.py:54 | a well-reviewed listing priced 10 passes a minimum of 50 as written, and is dropped under the corrected key |
| `Airbnb.BoxesAround` | airbnb/airbnb.py:174 | the boxes exist exactly when every centre's box exists; then there is one per centre, in centre order |
| `Airbnb.ScriptDistanceBoxes` | airbnb/airbnb.py:222 | with the script's 5 km half side, the boxes exist exactly when every cluster centre has a latitude in [-90, 90] and a longitude in [-180, 180] |
| `Airbnb.BoxesAroundFirstFailure` | airbnb/airbnb.py:174 | when the boxes fail, the error is that of the first centre whose box fails |
| `Airbnb.SelectInBox` | airbnb/airbnb.py:177-179 | a box selects a listing exactly when latMin < lat < latMax and lonMin < lon < lonMax; a listing on a bound is excluded |
| `Airbnb.SelectInBoxCount` | airbnb/airbnb.py:177-179 | a box selects every copy of a listing strictly inside it and no copy of any other |
| `Airbnb.ConcatSelectionsCount` | airbnb/airbnb.py:176-182 | in the concatenated selections a listing occurs (its copies in the input) × (the number of boxes holding it) times |
| `Airbnb.GetIdealListings` | airbnb/airbnb.py:173-185 | raises on the first invalid centre or when there are no centres; otherwise a listing survives exactly when it is a single row of the input lying strictly inside exactly one box, so listings in two or more boxes or in none are absent, and survivors keep concatenation order |
| `Restaurants.GetRestaurants` | restuarants/restaurants.py:55-57 | keeps exactly the amenities tagged restaurant, cafe or fast_food that have a name, every copy of each, and no copy of any other amenity |
| `Restaurants.GetRestaurantsKeepsOrder` | restuarants/restaurants.py:55-57 | the restaurants keep their order among all amenities |
| `Restaurants.CountByName` | restuarants/restaurants.py:66 | every restaurant's name has a count, and each count is the number of restaurants carrying that name, at least 1 |
| `Restaurants.GetRestaurantCount` | restuarants/restaurants.py:60-61 | looking a name up in the counts grouped by name gives the number of restaurants carrying that name; a name absent from the counts is a `KeyError` the caller never triggers |
| `Restaurants.WithBranches` | restuarants/restaurants.py:60-67 | row i is restaurant i with total_branches equal to the number of restaurants sharing its name, so at least 1 |
| `Restaurants.SplitRestaurants` | restuarants/restaurants.py:64-71 | every chain row has total_branches equal to its name's count and at least 2; every non-chain row has count exactly 1 |
| `Restaurants.SplitIsPartition` | restuarants/restaurants.py:69-70 | the two groups together are exactly the annotated rows, their sizes add up to the input size, and restaurant i is in the chain group iff its name is shared and in the non-chain group iff it is not |
| `Restaurants.SplitKeepsNamesTogether` | restuarants/restaurants.py:65-70 | no name occurs in both groups |
| `Restaurants.ChainNamesRepeat` | restuarants/restaurants.py:65-70 | every name in the chain group occurs at least twice in it |
| `Restaurants.SplitKeepsOrder` | restuarants/restaurants.py:69-70 | both groups keep the input's relative order |
| `Restaurants.FindByName` | restuarants/restaurants.py:178-179 | no lookup for an empty answer; otherwise exactly the restaurants whose name equals the answer |
| `Restaurants.LookupSpansGroups` | restuarants/restaurants.py:178-179 | the lookup finds one row per branch of the name, drawn from all restaurants: every row found sits in the chain group when there are two or more, in the non-chain group otherwise |

## Left out

- File checks, output-directory creation and `exit` (`check_data_exist` in both scripts): filesystem I/O.
- The `input()` prompts: console I/O. An empty answer is `None` and a non-empty one is `Some(price)`. The restaurant-name answer is a plain string.
- `float()` of a non-numeric maximum price raises `ValueError` in `filter_listings`. The model takes the answers as already-parsed numbers, so this error path is not modelled. A non-numeric minimum raises nothing: it is stored under "mix_price", which is never read, so it only switches the price filter on.
- CSV/JSON loading, column renames, `pd.to_numeric` coercion and `dropna`: library parsing. A price or review score that fails to parse is `None`.
- Row columns that the core never reads (host id and name, acceptance rate, neighbourhood, city, country, zipcode, accommodates, minimum nights; amenity timestamp and tags) are not part of the row types. `drop_duplicates` compares whole rows, so two listings that differ only in those columns would count as duplicates in the model. Listings carry their id, so distinct listings stay distinct.
- `num_reviews` is an integer that is always present. A missing count is not modelled.
- Row labels: the model's frames carry no index. As a result, the `index` column that `reset_index` adds to both restaurant groups is not modelled.
- `k_mean_cluster`: k-means is an external numerical library. Cluster centres are an input.
- All map and chart rendering (`heat_map`, `pin_airbnb`, `drop_pin`, `drop_mark`, `plot_amenities_cluster` with its colour loop, `plot_bar_chart`, `mark_restaurants`, `pin_restaurants`, `restaurant_density`): visual output.
- `calculate_mean`, `calculate_std` and the `analysis.txt` summary: floating-point statistics and file output. The `print` calls are also not modelled.
- Floating point in `math.cos`, `math.radians` and `math.degrees`. Over the reals the box is exactly symmetric, where floating point is only close. The cosine is assumed positive on [-90, 90]; floating point gives about 6e-17 at the poles.
- Restaurants.SplitRestaurants: requires every row to have a name. On a row without a name the source would fail with a `KeyError` in `get_restaurant_count`. Its only caller passes the output of `get_restaurants`, whose rows all have names.

## Findings

| source | as written | input that shows it | evidently intended | confidence | as-written member | corrected member |
|---|---|---|---|---|---|---|
| airbnb/airbnb.py:54 | the minimum price is stored under "mix_price", but `filter_listings` reads "min_price" (line 107), so the lower bound is always 0; any answer still switches the price filter on | minimum 50, no maximum, and a well-reviewed listing with a verified host priced 10: the listing is kept | store the minimum under "min_price", so that the user's minimum applies | high; not executed | `Airbnb.CheapListingPassesMinimum` | `Airbnb.GetUserInputCorrected` |
