# star-burger: restaurant matching, geocoding cache and ranking in Dafny

star-burger is a food-ordering backend. Restaurants carry menus of products,
and customers place orders made of line items. The operator's admin suggests
which restaurants can cook an order, nearest first. This project models the
logic behind that suggestion and proves properties of it:

- **Catalog** (`catalog.dfy`): menu rows `(restaurant, product, availability)`
  and line items `(product, quantity)`.
  - It defines the feasible restaurants of an order: those with an available
    row for every ordered product.
  - It models `ProductQuerySet.available` and `OrderQuerySet.with_total_price`.
- **Matching** (`matching.dfy`): `OrderQuerySet.with_available_restaurants`.
  - The product → restaurants index comes from a loop over the menu.
  - Each order's line items are intersected with an early stop.
  - The pipeline geocodes every restaurant, then the delivery address of each
    order that some restaurant can cook, and ranks the candidates.
  - Two folds of `Geocoder.Lookup` specify the pipeline: `GeocodeAll` over the
    restaurants and `AnnotateAll` over the orders. Each gives the table after
    the pass, the coordinates or delivery points found, and whether a
    ValueError ended the pass.
- **Ranking** (`ranking.dfy`): the sort key `(distance is None, distance or inf)`.
  - A stable insertion sort stands for `list.sort`. Its result is pinned
    down by the key, up to the order of equal keys.
  - Candidate lists are collected from the set of feasible restaurants.
- **GeoModels** (`places.dfy`): the `PlaceCoordinates` row, its `auto_now`
  stamp and the 30-day expiry test.
- **Geocoder** (`geocoder.dfy`): parts of `geocoordinates/utils.py`.
  - Parsing of the provider's `"lon lat"` position, with its split and axis swap.
  - `fetch_coordinates`, `calculate_distance`, and `get_coordinates`.
  - `get_coordinates` is a method of a `CoordinateCache` class that holds the
    table as a map; the cache is injected rather than global.
  - The pure function `Lookup` is its specification.
- **OrderAdmin** (`orderadmin.dfy`): the admin's own matcher
  `get_available_restaurants` and the narrowing of the `cooking_restaurant`
  choices.
- **OrderPricing** (`pricing.dfy`): `save_formset`, which stamps the catalog
  price on new order lines, and the `"<price> ₽"` display.
- **Views** (`views.dfy`): the POST branch of `register_order`.
  - The structural checks of the `products` list, with their exact messages.
  - Creating the order and its lines.
  - The `{'id': ..., **data}` response.
- **Serializers** (`serializers.dfy`): the field validators (quantity,
  first name, address, the non-empty `products` list).
  - Python's `str.strip()` is defined over the `str.isspace()` characters.

Representation choices:

- Prices are whole kopecks (the fields are two-place decimals).
- Time is whole seconds.
- Coordinates are kept as the decimal text the provider sent.
- Distances are whole tenths of a kilometre.
- The geodesic computation (`geopy`) and the geocoding provider are function
  parameters (`geodesic`, `provider`).
- Whether `YANDEX_GEOCODER_API_KEY` is set is the parameter `keyConfigured`.
- The clock is the parameter `now`.

Where the behaviour the system is documented to have and the code differ, the
model follows the code:

- **Matching a later unavailable product.** `with_available_restaurants` skips
  a product that has no available row, unless it is the order's first line
  item (foodcartapp/models.py:45-53). So an order can get candidates although
  one of its products is sold nowhere. The admin's `get_available_restaurants`
  returns nothing in that case. `OrderAdmin.MatchersDisagreeOnLaterUnstockedProduct`
  shows the two disagreeing.
- **A distance of 0.0.** `distance or float('inf')` treats 0.0 as infinite.
  A restaurant at distance 0.0 therefore sorts after every restaurant at a
  positive distance. It still sorts before those with an unknown distance
  (`Ranking.ZeroSortsAfterPositive`, `Ranking.SortedLayout`).
- **Fixed price on API orders.** Lines created through the API never get a
  fixed price: they keep the default 0.00, which is below the field's own
  minimum of 0.01. Only the admin's `save_formset` copies the catalog price
  (`Views.ApiLinesBelowMinimum`).
- **Errors the geocoder raises.** A position that does not split into exactly
  two parts makes `fetch_coordinates` raise ValueError. `get_coordinates`
  catches only `RequestException`, so that error ends the whole
  `with_available_restaurants` call. It is modelled as a `Failure` result that
  propagates.
- **Restaurants geocoded up front.** Every restaurant's address is geocoded
  before any order is matched (foodcartapp/models.py:33-37), even when no
  order has a candidate. The delivery address is geocoded only for orders
  with candidates. `Matching.WithAvailableRestaurants` states the table it
  leaves as the result of those two folds: every restaurant address in turn,
  then each order's address only when the order has candidates.
- **Expired entries.** A failed re-geocode returns None and ignores the
  expired entry, as documented (`Geocoder.LookupFailsSoft`).

## Model

| member | source | states |
|---|---|---|
| Catalog.AvailableAtMeansRow | foodcartapp/models.py:19-21 | a restaurant offers a product exactly when the menu has that row with `availability=True` |
| Catalog.StockedIffAvailable | foodcartapp/models.py:104-110 | a product counts as available exactly when some restaurant offers it |
| Catalog.AvailableProducts | foodcartapp/models.py:104-110 | `Product.objects.available()` keeps exactly the products that have an available menu row, and no more than it was given |
| Catalog.Feasible | backend/foodcartapp/admin.py:152-175 | the restaurants with an available row for every ordered product, the reference the matchers are compared with |
| Catalog.FeasibleDependsOnProductsOnly | backend/foodcartapp/admin.py:163-175 | feasibility depends only on the set of ordered products, not on line order, duplicates or quantities |
| Catalog.ServesAllProducts | backend/foodcartapp/admin.py:163-175 | serving every line item is the same as serving every distinct ordered product |
| Catalog.LineSum | foodcartapp/models.py:13-16 | the sum of quantity times current catalog price over the line items |
| Catalog.TotalPrice | foodcartapp/models.py:13-16 | the annotated total is NULL exactly for an order without line items |
| Catalog.LineSumReprice | foodcartapp/models.py:13-16 | the total uses current catalog prices: repricing a product moves it by the ordered quantity times the change |
| Catalog.TotalPriceReprice | foodcartapp/models.py:13-16 | the same for the annotated total of a non-empty order |
| Matching.OffersAreAvailable | foodcartapp/models.py:19-27 | the list built for a product holds exactly the restaurants with an available row for it |
| Matching.IndexedRestaurants | foodcartapp/models.py:23-27 | a product is a key of `product_restaurants` exactly when it has an available row, and its list is exactly those restaurants |
| Matching.ProductRestaurants | foodcartapp/models.py:19-27 | the loop builds the dictionary with one key per available product, each holding that product's restaurants in menu order |
| Matching.MatchOrder | foodcartapp/models.py:39-53 | the accumulate-and-break loop computes: nothing when the order is empty or its first product is not indexed, else the restaurants serving every indexed product |
| Matching.QuerySetFeasibleServes | foodcartapp/models.py:42-50 | every restaurant found has an available row for every ordered product that is available anywhere |
| Matching.QuerySetDependsOnFirstAndStockedProducts | foodcartapp/models.py:42-55 | two non-empty orders with the same first product and the same set of ordered products that have an available row get the same restaurants |
| Matching.QuerySetSkipsUnstocked | foodcartapp/models.py:45-53 | a product without an available row inserted anywhere after the first line item changes nothing |
| Matching.QuerySetIgnoresDuplicates | foodcartapp/models.py:42-50 | a repeat of an ordered product inserted anywhere after the first line item changes nothing |
| Matching.QuerySetIgnoresQuantities | foodcartapp/models.py:42-46 | quantities play no part in matching |
| Matching.QuerySetAgreesWithFeasible | foodcartapp/models.py:40-55 | when every ordered product is available somewhere, the result is exactly the feasible restaurants |
| Matching.QuerySetDependsOnItemOrder | foodcartapp/models.py:45-53 | an unavailable product gives no candidates when it comes first and is skipped when it comes later |
| Matching.TwoProductScenario | foodcartapp/models.py:40-55 | products at {1,2} and {2,3} leave only restaurant 2, under both matchers |
| Matching.QuerySetFeasible | foodcartapp/models.py:40-55 | the restaurants left after intersecting the indexed products' lists, with the early stop; the lemmas above state what it holds |
| Matching.GeocodeAll | foodcartapp/models.py:35-37 | the fold of `Lookup` over the restaurants in order: the table after each lookup feeds the next, each id maps to its answer, and a ValueError stops the pass |
| Matching.GeocodeAllKeys | foodcartapp/models.py:35-37 | a pass that completes gives an entry for exactly the restaurant ids |
| Matching.GeocodeAllStaysFailed | foodcartapp/models.py:35-37 | once a lookup raises, no later restaurant is looked up and the table stays as it was then |
| Matching.GeocodeAllRecordsEachAnswer | foodcartapp/models.py:35-37 | with distinct ids, a completed pass stores for each restaurant the answer of its own lookup, made on the table the earlier lookups left |
| Matching.GeocodeWithoutKey | geocoordinates/utils.py:26-27 | without an API key the pass completes, writes nothing and every restaurant gets None |
| Matching.GeocodeRestaurants | foodcartapp/models.py:33-37 | the cache ends as `GeocodeAll` leaves it; the call succeeds exactly when no lookup raised, and then returns `GeocodeAll`'s coordinates |
| Matching.AnnotateAll | foodcartapp/models.py:39-75 | the fold over the orders: an order without candidates gets no delivery point and causes no lookup; a completed pass has one delivery point per order |
| Matching.AnnotateAllStaysFailed | foodcartapp/models.py:55-56 | once a delivery lookup raises, no later order is looked up and the table stays as it was then |
| Matching.NoCandidatesNoLookups | foodcartapp/models.py:55-56 | when no order has candidates, the order pass completes and leaves the table unchanged |
| Matching.AnnotateOrder | foodcartapp/models.py:40-75 | no candidates: an empty list and the table unchanged; otherwise the cache ends as one `Lookup` of the delivery address leaves it, the call succeeds exactly when that lookup does, and the list is the feasible restaurants ranked with distances to the address found |
| Matching.AnnotateOrders | foodcartapp/models.py:39-75 | the cache ends as `AnnotateAll` leaves it; the call succeeds exactly when that pass completes, and then gives one list per order, ranked with distances to that order's delivery point |
| Matching.WithAvailableRestaurants | foodcartapp/models.py:18-77 | the cache ends as the restaurant pass and then the order pass leave it; success exactly when neither raised; one list per order, holding its feasible restaurants once each with the distance between its delivery point and each restaurant's coordinates, sorted by key |
| Ranking.Insert | foodcartapp/models.py:68-71 | inserting into a sorted list keeps it sorted and adds exactly that element |
| Ranking.SortByDistance | foodcartapp/models.py:68-71 | the result is sorted by `(distance is None, distance or inf)` and is a permutation of the input |
| Ranking.SortedLayout | foodcartapp/models.py:68-71 | in a sorted list, known distances precede unknown ones; non-zero distances ascend; a zero distance follows every non-zero one and precedes the unknown ones |
| Ranking.UnknownSortsLast | foodcartapp/models.py:68-71 | distances 5.0, unknown and 1.2 are ranked 1.2, 5.0, unknown |
| Ranking.ZeroSortsAfterPositive | foodcartapp/models.py:68-71 | a restaurant at 0.0 km is ranked after one at 3.7 km |
| Ranking.KeyOf | foodcartapp/models.py:68-71 | the key `(distance is None, distance or inf)`; 0.0 gets the magnitude inf |
| Ranking.DistanceTo | foodcartapp/models.py:60-61 | a distance is known only when the delivery point and the restaurant's coordinates are both known, and it is then the geodesic between them |
| Ranking.UnresolvedDeliveryUnknownDistances | foodcartapp/models.py:60-61 | when the delivery address did not resolve, every candidate's distance is unknown |
| Ranking.UnknownWithoutCoordinates | foodcartapp/models.py:60-61 | the distance is unknown when the delivery or the restaurant coordinates are missing |
| Ranking.PermutationKeepsCandidates | foodcartapp/models.py:68-71 | reordering the candidate list keeps one entry per feasible restaurant with its own distance |
| Ranking.CandidatesStep | foodcartapp/models.py:59-66 | appending the candidate of a restaurant not yet listed keeps the list exactly one entry per restaurant seen, with its distance |
| Ranking.CollectCandidates | foodcartapp/models.py:58-66 | one candidate per feasible restaurant, each with its distance from the delivery address |
| Ranking.RankCandidates | foodcartapp/models.py:58-71 | the ranked list holds each feasible restaurant exactly once with its distance, sorted by key |
| GeoModels.IsExpired | backend/geocoordinates/models.py:25-26 | a row is expired exactly when strictly more than `ThirtyDays` seconds have passed since its `updatedAt` |
| GeoModels.Saved | backend/geocoordinates/models.py:13-16 | a saved row keeps its address and coordinates and, stamped now, is not expired |
| GeoModels.ExpiryBoundary | backend/geocoordinates/models.py:25-26 | a row counts as expired only when it is strictly more than 30 days old: at 30 days less one second, and at exactly 30 days, it is fresh; at 30 days plus one second it is expired |
| GeoModels.ExpiryMonotone | backend/geocoordinates/models.py:25-26 | an expired row stays expired as time passes |
| Geocoder.Split | geocoordinates/utils.py:21 | `split(" ")` gives at least one part, none containing the separator |
| Geocoder.JoinSplit | geocoordinates/utils.py:21 | joining the parts with the separator gives back the input |
| Geocoder.SplitWithoutSeparator | geocoordinates/utils.py:21 | a string without the separator splits into itself |
| Geocoder.SplitAtFirstSeparator | geocoordinates/utils.py:21 | the split of `a + sep + b` is `a` followed by the split of `b` |
| Geocoder.ParsePos | geocoordinates/utils.py:21-22 | a position parses only if it is two space-free tokens with one space between, and the error is otherwise ValueError |
| Geocoder.ParsePosSwapsAxes | geocoordinates/utils.py:21-22 | `"lon lat"` parses to latitude then longitude |
| Geocoder.ParsePosMoscow | geocoordinates/utils.py:21-22 | `"37.6173 55.7558"` parses to lat 55.7558, lon 37.6173 |
| Geocoder.FetchCoordinates | geocoordinates/utils.py:7-22 | RequestException exactly for a failed request; found coordinates are those of the first place's position |
| Geocoder.FetchUsesFirstPlace | geocoordinates/utils.py:15-22 | only the most relevant place is parsed; the rest are ignored |
| Geocoder.FetchEmptyCollection | geocoordinates/utils.py:17-18 | an empty collection gives None |
| Geocoder.CalculateDistance | geocoordinates/utils.py:51-59 | None when either side is missing, otherwise the geodesic, which may itself fail |
| Geocoder.DistanceNeedsBothSides | geocoordinates/utils.py:51-59 | a distance exists only when both coordinates and the geodesic exist, and a missing side gives None |
| Geocoder.DistanceSymmetric | geocoordinates/utils.py:55-57 | with a symmetric geodesic, the distance does not depend on argument order |
| Geocoder.Lookup | geocoordinates/utils.py:25-48 | the provider is asked exactly when a key is set and the row is missing or expired; without a request the table is unchanged; a ValueError writes nothing; only the looked-up address's row can change |
| Geocoder.LookupWithoutKey | geocoordinates/utils.py:26-27 | without an API key: None, no provider call, table unchanged |
| Geocoder.LookupFreshHit | geocoordinates/utils.py:29-32 | a fresh row is returned without asking the provider, and the table is unchanged |
| Geocoder.LookupRefreshes | geocoordinates/utils.py:36-44 | a missing or expired row is fetched; a found place is upserted, fresh, under the address and returned, and other rows stay |
| Geocoder.LookupFailsSoft | geocoordinates/utils.py:36-48 | no place found, or a request error: None, no write, and the expired row is not used |
| Geocoder.LookupHttpFailure | geocoordinates/utils.py:47-48 | an HTTP error for an unknown address gives None and writes no row |
| Geocoder.LookupKeepsAddressesUnique | backend/geocoordinates/models.py:5-10 | every lookup keeps one row per address |
| Geocoder.LookupIdempotent | geocoordinates/utils.py:29-44 | after a lookup that resolved, a second one gives the same coordinates and asks no one |
| Geocoder.CoordinateCache.constructor | backend/geocoordinates/models.py:4-10 | an empty table is valid |
| Geocoder.CoordinateCache.GetCoordinates | geocoordinates/utils.py:25-48 | the answer, the new table and whether the provider was asked are exactly those of `Lookup`, and the table stays one row per address |
| OrderAdmin.GetAvailableRestaurants | backend/foodcartapp/admin.py:152-175 | for an order with line items, the loop with its two early returns yields exactly the feasible restaurants |
| OrderAdmin.UnstockedProductEmpties | backend/foodcartapp/admin.py:165-172 | a product with no available row leaves no feasible restaurant |
| OrderAdmin.UnavailableRowsIgnored | backend/foodcartapp/admin.py:153-155 | a menu row with `availability=False` does not change the result |
| OrderAdmin.MatchersDisagreeOnLaterUnstockedProduct | backend/foodcartapp/admin.py:165-172 | for a later unavailable product, the admin matcher gives nothing where the query-set matcher gives {1} |
| OrderAdmin.CookingRestaurantChoices | backend/foodcartapp/admin.py:140-150 | the `cooking_restaurant` choices of an existing order are its feasible restaurants; every other case keeps the default choices |
| OrderPricing.FormInstance.constructor | foodcartapp/admin.py:136 | one instance that `formset.save(commit=False)` returns, with its class, primary key, product and fixed price |
| OrderPricing.StampedPrice | foodcartapp/admin.py:138-139 | the price a saved instance ends with: the catalog price for an order line whose pk is falsy (None or 0), its own fixed price otherwise |
| OrderPricing.NewLineTakesCatalogPrice | foodcartapp/admin.py:138-139 | a new order line, with pk None or 0, gets its product's catalog price |
| OrderPricing.ExistingLineKeepsFixedPrice | foodcartapp/admin.py:138-139 | an order line with a non-zero pk keeps its fixed price whatever the catalog price is |
| OrderPricing.SaveFormset | foodcartapp/admin.py:135-140 | every instance is passed on; exactly the new order lines are stamped, with their product's price |
| OrderPricing.FormatPrice | foodcartapp/admin.py:117 | `str(fixed_price)` of a two-place decimal: digits, then a point, then exactly two digits |
| OrderPricing.NatToStringRoundTrip | foodcartapp/admin.py:117 | the decimal digits of a number read back as that number |
| OrderPricing.FormatPriceRoundTrip | foodcartapp/admin.py:117 | the two-place text of a price reads back as that price |
| OrderPricing.ProductPriceDisplay | foodcartapp/admin.py:115-118 | the placeholder `"-"` is shown exactly when the row has no product |
| OrderPricing.DisplayShowsFixedPrice | foodcartapp/admin.py:115-118 | the display shows exactly the line's fixed price once a product is chosen, and the placeholder otherwise |
| Views.ElementError | foodcartapp/views.py:99-106 | an element passes exactly when it is an object with `product` and `quantity` |
| Views.FirstElementError | foodcartapp/views.py:99-106 | the elements are checked in order and the first failing one decides the message |
| Views.PayloadError | foodcartapp/views.py:90-106 | the request passes the checks exactly when `products` is a non-empty list of objects, each with `product` and `quantity` |
| Views.FirstElementErrorIsFirst | foodcartapp/views.py:99-106 | the reported element error is that of the first malformed element, and there is none when none is malformed |
| Views.NoQuantityOrProductCheck | foodcartapp/views.py:99-106 | a negative quantity and an unknown product id pass the checks |
| Views.HasOrderFields | foodcartapp/views.py:110-113 | the four customer fields are all present; a missing one raises KeyError inside the atomic block |
| Views.SuccessBody | foodcartapp/views.py:120 | the body `{'id': order.id, **data}` |
| Views.SuccessBodyId | foodcartapp/views.py:120 | the response echoes every request field; its `id` is the new id unless the client sent one, which wins |
| Views.LineOf | foodcartapp/views.py:116 | the order line of one element: its product and quantity, with the default fixed price 0 |
| Views.BuildOrderLines | foodcartapp/views.py:114-118 | one order line per element, in order, with that element's product and quantity |
| Views.ApiLinesBelowMinimum | foodcartapp/models.py:314-320 | a line created through the API has a fixed price below the field's minimum |
| Views.RegisterOrder | foodcartapp/views.py:88-120 | a failed check gives the 400 body and no order; a missing customer field gives a server error and no order; otherwise one order, its lines, and the echoed body |
| Serializers.Strip | foodcartapp/serializers.py:25 | `str.strip()`: the result neither starts nor ends with a whitespace character |
| Serializers.StripEmptyIffBlank | foodcartapp/serializers.py:25 | `not value.strip()` holds exactly for empty or all-whitespace text |
| Serializers.ValidateQuantity | foodcartapp/serializers.py:10-13 | a quantity is accepted exactly when it is at least 1, unchanged, and otherwise rejected with the message |
| Serializers.ValidateFirstname | foodcartapp/serializers.py:24-27 | a first name is accepted exactly when it has a non-whitespace character, and is returned unstripped |
| Serializers.ValidateAddress | foodcartapp/serializers.py:29-33 | an address is accepted exactly when it has a non-whitespace character, and is returned unstripped |
| Serializers.FirstnameNotStripped | foodcartapp/serializers.py:24-27 | `" Иван "` is accepted with its spaces |
| Serializers.ItemErrorList | foodcartapp/serializers.py:18 | one entry per item, which is that item's quantity error |
| Serializers.ValidateProducts | foodcartapp/serializers.py:18 | an empty list is refused; otherwise the list is valid exactly when every quantity is at least 1, and each item is reported on its own |

## Left out

- HTTP, JSON decoding, `raise_for_status` and settings: the provider's answer
  is the `ProviderReply` parameter, and the API key is the `keyConfigured` flag.
- A `KeyError` from a provider answer that lacks the
  `response`/`GeoObjectCollection`/`featureMember`/`GeoObject`/`Point`/`pos`
  keys is not modelled; the reply is assumed to have that shape.
- `float()` of the coordinates, `geopy`'s geodesic and `round(..., 1)` are not
  modelled, because they are floating point. `geodesic` is a parameter that
  returns whole tenths of a kilometre, or None where the source catches
  ValueError or TypeError.
- The ORM is not modelled: query building, `prefetch_related`, transactions,
  and the atomicity of `update_or_create`. Concurrent writers racing on the
  upsert are left out too; each call is sequential.
- The provider is a function of the address alone, and `now` is one value
  for a whole `Matching.WithAvailableRestaurants` call. So the model cannot
  describe a second lookup of the same address getting a different answer
  from the first, such as an HttpFailure followed by a success, or a row
  that expires during the pass.
- `is_expired` drops the time zone and compares naive datetimes. Time stamps
  here are plain integer seconds, so time zones are not modelled.
- Matching.WithAvailableRestaurants: states the table, the success
  condition and each list with its distances, but not which provider replies
  were requested: the `fetched` flag of each lookup is not carried through
  the folds.
- OrderAdmin.GetAvailableRestaurants and OrderAdmin.CookingRestaurantChoices:
  require an existing order to have at least one line item, so the model
  excludes that error case. An order without lines reaches
  `filter(id__in=None)`, which raises. The inline's `min_num = 1`
  (backend/foodcartapp/admin.py:113) only makes the order form insist on one
  line. The registered `OrderProductAdmin` (backend/foodcartapp/admin.py:195-197)
  can still delete every line of an existing order.
- OrderAdmin.CookingRestaurantChoices: the object id is a number here, so a
  non-numeric id in the URL is not modelled.
- Ranking.SortByDistance: states sortedness and permutation, not stability.
  Stability matters only among equal keys, and the input order comes from
  iterating a set, which is arbitrary anyway.
- OrderPricing.ProductPriceDisplay: an unsaved row that already has a
  product but still holds the float default `0.00` shows `0.0 ₽` in Python.
  Prices here are always two-place decimals, so that spelling is not
  modelled. A blank row has no product and shows `-`, as modelled.
- Line quantities in `Catalog` are natural numbers. A negative quantity
  stored through the API (which `Views.NoQuantityOrProductCheck` shows is let
  through) is not priced by `Catalog.TotalPrice`.
- Views.RegisterOrder: the stored field types of `Order.objects.create` are
  not modelled, and the customer fields are kept as the JSON values sent.
  Also not modelled: the `IntegrityError` that `bulk_create` raises for an
  unknown product id, and the ValueError or TypeError it raises for a
  `product` or `quantity` that is not an integer (for example
  `"quantity": "x"`). Each of these rolls back the atomic block and answers
  500, where the model answers `Ok` with the order and its lines.
- Serializers.ValidateFirstname, Serializers.ValidateAddress and
  Serializers.FirstnameNotStripped: only the validator methods are modelled.
  The `CharField`s that `ModelSerializer` derives for these fields use
  `trim_whitespace=True` and `allow_blank=False`. So DRF itself refuses
  blank values before the validators run, and a padded name reaches
  `validate_firstname` already stripped.
- Geocoder.ParsePos: accepts any two space-free tokens. The `float()`
  conversion at geocoordinates/utils.py:22 is not modelled. For a
  non-numeric token it raises a ValueError, which `get_coordinates` does not
  catch, just like the ValueError of a bad split.
- In the serializers, the existence check of the `product` primary key is
  not modelled.
- In the serializers, DRF's model-derived `MinValueValidator(1)` on
  `quantity` would run before `validate_quantity`. Only `validate_quantity`
  itself is modelled.
- The serializers' phone number and last name fields, and the `print` in
  `validate_address`, are left out.
- The other admin code is left out: list display, `response_change`
  redirects, and geocoordinates/admin.py. So are the other API views
  (banners, product list) and the GET JSON projections. They hold no logic
  beyond configuration and field copying.
