/**
 * Restaurant matching of OrderQuerySet.with_available_restaurants
 * (foodcartapp/models.py): the product -> restaurants index built from the
 * available menu rows, and the per-order intersection with its early stop.
 */
module Matching {
  import opened Wrappers
  import opened Catalog
  import opened GeoModels
  import opened Geocoder
  import opened Ranking

  /** The restaurants of the available rows for `p`, in menu order (one list entry per row). */
  function Offers(menu: seq<MenuRow>, p: ProductId): seq<RestaurantId>
  {
    if menu == [] then []
    else
      var row := menu[|menu| - 1];
      Offers(menu[..|menu| - 1], p) + (if row.1 == p && row.2 then [row.0] else [])
  }

  lemma {:induction false} OffersAreAvailable(menu: seq<MenuRow>, p: ProductId)
    ensures forall r :: r in Offers(menu, p) <==> r in AvailableAt(menu, p)
  {
    if menu != [] {
      var init, row := menu[..|menu| - 1], menu[|menu| - 1];
      OffersAreAvailable(init, p);
      assert menu == init + [row];
      forall r ensures r in AvailableAt(menu, p) <==> r in AvailableAt(init, p) || (row.1 == p && row.2 && r == row.0) {
        if r in AvailableAt(menu, p) {
          var x :| x in menu && x.1 == p && x.2 && x.0 == r;
          if x != row {
            assert x in init;
          }
        }
        if r in AvailableAt(init, p) {
          var x :| x in init && x.1 == p && x.2 && x.0 == r;
          assert x in menu;
        }
      }
    }
  }

  /** The dictionary `product_restaurants` once every menu row has been seen. */
  ghost predicate IndexOf(pr: map<ProductId, seq<RestaurantId>>, menu: seq<MenuRow>)
  {
    && pr.Keys == StockedProducts(menu)
    && forall p :: p in pr ==> pr[p] == Offers(menu, p)
  }

  lemma IndexedRestaurants(pr: map<ProductId, seq<RestaurantId>>, menu: seq<MenuRow>, p: ProductId)
    requires IndexOf(pr, menu)
    ensures p in pr <==> Stocked(menu, p)
    ensures p in pr ==> (set r | r in pr[p]) == AvailableAt(menu, p)
  {
    if p in pr {
      OffersAreAvailable(menu, p);
    }
  }

  /** What one more menu row adds to the index. */
  lemma IndexStep(menu: seq<MenuRow>, i: nat)
    requires i < |menu|
    ensures forall p :: Offers(menu[..i + 1], p)
                     == Offers(menu[..i], p) + (if menu[i].1 == p && menu[i].2 then [menu[i].0] else [])
    ensures StockedProducts(menu[..i + 1]) == StockedProducts(menu[..i]) + (if menu[i].2 then {menu[i].1} else {})
  {
    var prefix := menu[..i + 1];
    assert prefix[..i] == menu[..i];
    assert prefix == menu[..i] + [menu[i]];
    assert prefix[|prefix| - 1] == menu[i];
  }

  /**
   * The loop of foodcartapp/models.py:19-27 (and backend/foodcartapp/admin.py:153-160):
   * a list per product, created on first sight, appended to for every
   * available menu row. Unavailable rows are filtered out first.
   */
  method ProductRestaurants(menu: seq<MenuRow>) returns (pr: map<ProductId, seq<RestaurantId>>)
    ensures pr.Keys == StockedProducts(menu)
    ensures forall p :: p in pr ==> pr[p] == Offers(menu, p)
  {
    pr := map[];
    var i := 0;
    while i < |menu|
      invariant 0 <= i <= |menu|
      invariant pr.Keys == StockedProducts(menu[..i])
      invariant forall p :: p in pr ==> pr[p] == Offers(menu[..i], p)
      invariant forall p :: p !in pr ==> Offers(menu[..i], p) == []
    {
      var (restaurant, product, availability) := menu[i];
      IndexStep(menu, i);
      if availability {
        var known := if product in pr then pr[product] else [];
        pr := pr[product := known + [restaurant]];
      }
      i := i + 1;
    }
    assert menu[..i] == menu;
  }

  /**
   * `r` can prepare every product among the first `n` line items that
   * appears in the index at all; products without an available row are skipped.
   */
  predicate ServesStockedFirst(menu: seq<MenuRow>, r: RestaurantId, items: seq<LineItem>, n: nat)
    requires n <= |items|
  {
    forall k :: 0 <= k < n && Stocked(menu, items[k].0) ==> r in AvailableAt(menu, items[k].0)
  }

  /**
   * What with_available_restaurants finds for one order: nothing when the
   * order has no line items or its FIRST product has no available row;
   * otherwise the restaurants serving every product that has one.
   */
  function QuerySetFeasible(menu: seq<MenuRow>, items: seq<LineItem>): set<RestaurantId>
  {
    if |items| == 0 || !Stocked(menu, items[0].0) then {}
    else set r | r in AvailableAt(menu, items[0].0) && ServesStockedFirst(menu, r, items, |items|)
  }

  /**
   * The loop of foodcartapp/models.py:40-55 over one order's line items:
   * the accumulator starts as None, is set or intersected for every indexed
   * product, and the loop breaks as soon as it is None or empty.
   */
  method MatchOrder(menu: seq<MenuRow>, pr: map<ProductId, seq<RestaurantId>>, items: seq<LineItem>)
    returns (feasible: set<RestaurantId>)
    requires IndexOf(pr, menu)
    ensures feasible == QuerySetFeasible(menu, items)
  {
    var available: Option<set<RestaurantId>> := None;
    var i := 0;
    while i < |items|
      invariant 0 <= i <= |items|
      invariant i == 0 ==> available == None
      invariant i > 0 ==> Stocked(menu, items[0].0) && available.Some? && available.value != {}
      invariant i > 0 ==> available.value == set r | r in AvailableAt(menu, items[0].0) && ServesStockedFirst(menu, r, items, i)
    {
      var product := items[i].0;
      IndexedRestaurants(pr, menu, product);
      if product in pr {
        var restaurantSet := set r | r in pr[product];
        if available == None {
          available := Some(restaurantSet);
        } else {
          available := Some(available.value * restaurantSet);
        }
      }
      if available == None || available.value == {} {
        if available.Some? {
          forall r | r in QuerySetFeasible(menu, items) ensures r in available.value {
            assert ServesStockedFirst(menu, r, items, i + 1);
          }
        }
        return {};
      }
      i := i + 1;
    }
    feasible := if available.Some? then available.value else {};
  }

  /** Every restaurant found has an available menu row for every ordered product that has one at all. */
  lemma QuerySetFeasibleServes(menu: seq<MenuRow>, items: seq<LineItem>, r: RestaurantId, k: nat)
    requires r in QuerySetFeasible(menu, items)
    requires k < |items| && Stocked(menu, items[k].0)
    ensures (r, items[k].0, true) in menu
  {
    AvailableAtMeansRow(menu, items[k].0, r);
  }

  /**
   * Only the first product and the set of ordered products that have an
   * available row matter: line order after the first item, repeats and
   * unstocked products elsewhere make no difference.
   */
  lemma QuerySetDependsOnFirstAndStockedProducts(menu: seq<MenuRow>, a: seq<LineItem>, b: seq<LineItem>)
    requires a != [] && b != [] && a[0].0 == b[0].0
    requires ProductsOf(a) * StockedProducts(menu) == ProductsOf(b) * StockedProducts(menu)
    ensures QuerySetFeasible(menu, a) == QuerySetFeasible(menu, b)
  {
    forall r ensures ServesStockedFirst(menu, r, a, |a|) <==> ServesStockedFirst(menu, r, b, |b|) {
      if ServesStockedFirst(menu, r, a, |a|) { StockedProductsServed(menu, r, a, b); }
      if ServesStockedFirst(menu, r, b, |b|) { StockedProductsServed(menu, r, b, a); }
    }
  }

  lemma StockedProductsServed(menu: seq<MenuRow>, r: RestaurantId, a: seq<LineItem>, b: seq<LineItem>)
    requires ProductsOf(a) * StockedProducts(menu) == ProductsOf(b) * StockedProducts(menu)
    requires ServesStockedFirst(menu, r, a, |a|)
    ensures ServesStockedFirst(menu, r, b, |b|)
  {
    forall k | 0 <= k < |b| && Stocked(menu, b[k].0) ensures r in AvailableAt(menu, b[k].0) {
      assert b[k] in b;
      assert b[k].0 in ProductsOf(a) * StockedProducts(menu);
      var it :| it in a && it.0 == b[k].0;
      var j :| 0 <= j < |a| && a[j] == it;
    }
  }

  /** Once the first product has an available row, a later product without one is skipped, wherever it is inserted. */
  lemma QuerySetSkipsUnstocked(menu: seq<MenuRow>, items: seq<LineItem>, i: nat, x: LineItem)
    requires 0 < i <= |items| && !Stocked(menu, x.0)
    ensures QuerySetFeasible(menu, items[..i] + [x] + items[i..]) == QuerySetFeasible(menu, items)
  {
    InsertedProducts(items, i, x);
    QuerySetDependsOnFirstAndStockedProducts(menu, items[..i] + [x] + items[i..], items);
  }

  /** Repeating a product that is already ordered changes nothing, wherever the repeat is inserted after the first line. */
  lemma QuerySetIgnoresDuplicates(menu: seq<MenuRow>, items: seq<LineItem>, i: nat, x: LineItem)
    requires 0 < i <= |items| && x.0 in ProductsOf(items)
    ensures QuerySetFeasible(menu, items[..i] + [x] + items[i..]) == QuerySetFeasible(menu, items)
  {
    InsertedProducts(items, i, x);
    QuerySetDependsOnFirstAndStockedProducts(menu, items[..i] + [x] + items[i..], items);
  }

  lemma InsertedProducts(items: seq<LineItem>, i: nat, x: LineItem)
    requires 0 < i <= |items|
    ensures var longer := items[..i] + [x] + items[i..];
      longer != [] && longer[0] == items[0] && ProductsOf(longer) == ProductsOf(items) + {x.0}
  {
    var longer := items[..i] + [x] + items[i..];
    assert items == items[..i] + items[i..];
    forall it | it in longer ensures it in items || it == x {
      var k :| 0 <= k < |longer| && longer[k] == it;
      if k < i { assert it == items[k]; } else if k > i { assert it == items[k - 1]; }
    }
    forall it | it in items ensures it in longer {
      var k :| 0 <= k < |items| && items[k] == it;
      if k < i { assert longer[k] == it; } else { assert longer[k + 1] == it; }
    }
    assert longer[i] == x;
  }

  /** Quantities play no part in matching. */
  lemma QuerySetIgnoresQuantities(menu: seq<MenuRow>, a: seq<LineItem>, b: seq<LineItem>)
    requires |a| == |b| && forall k :: 0 <= k < |a| ==> a[k].0 == b[k].0
    ensures QuerySetFeasible(menu, a) == QuerySetFeasible(menu, b)
  {
  }

  /**
   * When every ordered product has an available row, this matcher finds
   * exactly the feasible restaurants.
   */
  lemma QuerySetAgreesWithFeasible(menu: seq<MenuRow>, items: seq<LineItem>)
    requires items != []
    requires forall k :: 0 <= k < |items| ==> Stocked(menu, items[k].0)
    ensures QuerySetFeasible(menu, items) == Feasible(menu, items)
  {
    forall r | r in Feasible(menu, items) ensures r in QuerySetFeasible(menu, items) {
      assert r in AvailableAt(menu, items[0].0);
    }
    forall r | r in QuerySetFeasible(menu, items) ensures r in Feasible(menu, items) {
      var row :| row in menu && row.1 == items[0].0 && row.2 && row.0 == r;
      assert r in Restaurants(menu);
    }
  }

  /**
   * The first line item is special: an unstocked product first gives
   * nothing, while the same product later is skipped.
   */
  lemma QuerySetDependsOnItemOrder()
    ensures QuerySetFeasible([(1, 10, true)], [(20, 1), (10, 1)]) == {}
    ensures QuerySetFeasible([(1, 10, true)], [(10, 1), (20, 1)]) == {1}
  {
    var menu: seq<MenuRow> := [(1, 10, true)];
    assert menu[0] in menu;
    assert AvailableAt(menu, 10) == {1};
    assert StockedProducts(menu) == {10};
  }

  /** Product 10 at restaurants 1 and 2, product 11 at restaurants 2 and 3: only restaurant 2 fits. */
  lemma TwoProductScenario()
    ensures QuerySetFeasible([(1, 10, true), (2, 10, true), (2, 11, true), (3, 11, true)], [(10, 2), (11, 1)]) == {2}
    ensures Feasible([(1, 10, true), (2, 10, true), (2, 11, true), (3, 11, true)], [(10, 2), (11, 1)]) == {2}
  {
    var menu: seq<MenuRow> := [(1, 10, true), (2, 10, true), (2, 11, true), (3, 11, true)];
    var items: seq<LineItem> := [(10, 2), (11, 1)];
    assert menu[0] in menu && menu[1] in menu && menu[2] in menu && menu[3] in menu;
    assert AvailableAt(menu, 10) == {1, 2};
    assert AvailableAt(menu, 11) == {2, 3};
    assert StockedProducts(menu) == {10, 11};
    assert Restaurants(menu) == {1, 2, 3};
    assert Stocked(menu, items[0].0) && Stocked(menu, items[1].0);
    assert !ServesStockedFirst(menu, 1, items, 2);
    assert ServesStockedFirst(menu, 2, items, 2);
    assert QuerySetFeasible(menu, items) == {2};
    QuerySetAgreesWithFeasible(menu, items);
  }

  datatype Restaurant = Restaurant(id: RestaurantId, address: string)

  datatype Order = Order(address: string, items: seq<LineItem>)

  /**
   * The state after geocoding restaurants in turn: `restaurant_coords`, the
   * coordinate table, and whether a lookup raised (which stops everything).
   */
  datatype CoordsRun = CoordsRun(coords: map<RestaurantId, Option<LatLon>>, rows: map<string, PlaceCoordinates>, failed: bool)

  /** get_coordinates of one more restaurant (foodcartapp/models.py:37), unless a lookup already raised. */
  function GeocodeNext(prev: CoordsRun, restaurant: Restaurant, now: int, keyConfigured: bool,
                       provider: string -> ProviderReply): CoordsRun
  {
    if prev.failed then prev
    else
      var step := Lookup(prev.rows, restaurant.address, now, keyConfigured, provider(restaurant.address));
      if step.result.Failure? then CoordsRun(prev.coords, step.rows, true)
      else CoordsRun(prev.coords[restaurant.id := step.result.value], step.rows, false)
  }

  /** get_coordinates applied to every restaurant address in turn, starting from table `rows`. */
  function GeocodeAll(rows: map<string, PlaceCoordinates>, restaurants: seq<Restaurant>, now: int, keyConfigured: bool,
                      provider: string -> ProviderReply): CoordsRun
  {
    if restaurants == [] then CoordsRun(map[], rows, false)
    else
      var prev := GeocodeAll(rows, restaurants[..|restaurants| - 1], now, keyConfigured, provider);
      GeocodeNext(prev, restaurants[|restaurants| - 1], now, keyConfigured, provider)
  }

  lemma GeocodeAllStep(rows: map<string, PlaceCoordinates>, restaurants: seq<Restaurant>, i: nat,
                       now: int, keyConfigured: bool, provider: string -> ProviderReply)
    requires i < |restaurants|
    ensures GeocodeAll(rows, restaurants[..i + 1], now, keyConfigured, provider)
         == GeocodeNext(GeocodeAll(rows, restaurants[..i], now, keyConfigured, provider), restaurants[i], now, keyConfigured, provider)
  {
    assert restaurants[..i + 1][..i] == restaurants[..i];
  }

  /** When nothing raised, `restaurant_coords` has an entry for exactly the given restaurants. */
  lemma {:induction false} GeocodeAllKeys(rows: map<string, PlaceCoordinates>, restaurants: seq<Restaurant>,
                                          now: int, keyConfigured: bool, provider: string -> ProviderReply)
    ensures var run := GeocodeAll(rows, restaurants, now, keyConfigured, provider);
            !run.failed ==> run.coords.Keys == set i | 0 <= i < |restaurants| :: restaurants[i].id
  {
    if restaurants != [] {
      var n := |restaurants| - 1;
      var init := restaurants[..n];
      GeocodeAllKeys(rows, init, now, keyConfigured, provider);
      GeocodeAllStep(rows, restaurants, n, now, keyConfigured, provider);
      assert restaurants[..n + 1] == restaurants;
      var ids := set i | 0 <= i < |restaurants| :: restaurants[i].id;
      var initIds := set i | 0 <= i < |init| :: init[i].id;
      assert ids == initIds + {restaurants[n].id} by {
        forall r | r in ids ensures r in initIds + {restaurants[n].id} {
          var i :| 0 <= i < |restaurants| && restaurants[i].id == r;
          if i < n { assert init[i].id == r; }
        }
        forall r | r in initIds ensures r in ids {
          var i :| 0 <= i < |init| && init[i].id == r;
          assert restaurants[i].id == r;
        }
      }
    }
  }

  /** Once a lookup has raised, the later restaurants change nothing. */
  lemma {:induction false} GeocodeAllStaysFailed(rows: map<string, PlaceCoordinates>, restaurants: seq<Restaurant>, i: nat,
                                                 now: int, keyConfigured: bool, provider: string -> ProviderReply)
    requires i <= |restaurants|
    requires GeocodeAll(rows, restaurants[..i], now, keyConfigured, provider).failed
    ensures GeocodeAll(rows, restaurants, now, keyConfigured, provider) == GeocodeAll(rows, restaurants[..i], now, keyConfigured, provider)
  {
    if i < |restaurants| {
      var init := restaurants[..|restaurants| - 1];
      assert init[..i] == restaurants[..i];
      GeocodeAllStaysFailed(rows, init, i, now, keyConfigured, provider);
    } else {
      assert restaurants[..i] == restaurants;
    }
  }

  /**
   * With distinct ids, each restaurant's entry in `restaurant_coords` is what
   * get_coordinates answered for its address, on the table as the earlier
   * restaurants left it.
   */
  lemma {:induction false} GeocodeAllRecordsEachAnswer(rows: map<string, PlaceCoordinates>, restaurants: seq<Restaurant>, i: nat,
                                                       now: int, keyConfigured: bool, provider: string -> ProviderReply)
    requires forall j, k :: 0 <= j < k < |restaurants| ==> restaurants[j].id != restaurants[k].id
    requires i < |restaurants|
    requires !GeocodeAll(rows, restaurants, now, keyConfigured, provider).failed
    ensures var before := GeocodeAll(rows, restaurants[..i], now, keyConfigured, provider);
            var step := Lookup(before.rows, restaurants[i].address, now, keyConfigured, provider(restaurants[i].address));
            && step.result.Success?
            && restaurants[i].id in GeocodeAll(rows, restaurants, now, keyConfigured, provider).coords
            && GeocodeAll(rows, restaurants, now, keyConfigured, provider).coords[restaurants[i].id] == step.result.value
  {
    var n := |restaurants| - 1;
    var init := restaurants[..n];
    var prev := GeocodeAll(rows, init, now, keyConfigured, provider);
    var lastStep := Lookup(prev.rows, restaurants[n].address, now, keyConfigured, provider(restaurants[n].address));
    GeocodeAllStep(rows, restaurants, n, now, keyConfigured, provider);
    assert restaurants[..n + 1] == restaurants;
    assert !prev.failed && lastStep.result.Success?;
    assert GeocodeAll(rows, restaurants, now, keyConfigured, provider).coords
        == prev.coords[restaurants[n].id := lastStep.result.value];
    if i < n {
      assert init[..i] == restaurants[..i] && init[i] == restaurants[i];
      GeocodeAllRecordsEachAnswer(rows, init, i, now, keyConfigured, provider);
    }
  }

  /** Without an API key every restaurant gets unknown coordinates and the table is untouched. */
  lemma {:induction false} GeocodeWithoutKey(rows: map<string, PlaceCoordinates>, restaurants: seq<Restaurant>, now: int,
                                             provider: string -> ProviderReply)
    ensures var run := GeocodeAll(rows, restaurants, now, false, provider);
            && !run.failed && run.rows == rows
            && forall r :: r in run.coords ==> run.coords[r] == None
  {
    if restaurants != [] {
      GeocodeWithoutKey(rows, restaurants[..|restaurants| - 1], now, provider);
    }
  }

  /**
   * The loop of foodcartapp/models.py:35-37: geocode every restaurant, in
   * order, into `restaurant_coords`; a ValueError ends the loop.
   */
  method GeocodeRestaurants(cache: CoordinateCache, restaurants: seq<Restaurant>,
                            now: int, keyConfigured: bool, provider: string -> ProviderReply)
    returns (result: Result<map<RestaurantId, Option<LatLon>>, FetchError>)
    requires cache.Valid()
    modifies cache
    ensures cache.Valid()
    ensures var run := GeocodeAll(old(cache.rows), restaurants, now, keyConfigured, provider);
            && cache.rows == run.rows
            && (result.Success? <==> !run.failed)
            && (result.Success? ==> result.value == run.coords)
  {
    var restaurantCoords: map<RestaurantId, Option<LatLon>> := map[];
    var i := 0;
    while i < |restaurants|
      invariant 0 <= i <= |restaurants|
      invariant cache.Valid()
      invariant GeocodeAll(old(cache.rows), restaurants[..i], now, keyConfigured, provider)
             == CoordsRun(restaurantCoords, cache.rows, false)
    {
      ghost var before := CoordsRun(restaurantCoords, cache.rows, false);
      var coords, _ := cache.GetCoordinates(restaurants[i].address, now, keyConfigured, provider);
      GeocodeAllStep(old(cache.rows), restaurants, i, now, keyConfigured, provider);
      if coords.Failure? {
        assert GeocodeNext(before, restaurants[i], now, keyConfigured, provider).failed;
        GeocodeAllStaysFailed(old(cache.rows), restaurants, i + 1, now, keyConfigured, provider);
        return Failure(coords.error);
      }
      assert GeocodeNext(before, restaurants[i], now, keyConfigured, provider)
          == CoordsRun(restaurantCoords[restaurants[i].id := coords.value], cache.rows, false);
      restaurantCoords := restaurantCoords[restaurants[i].id := coords.value];
      i := i + 1;
    }
    assert restaurants[..i] == restaurants;
    result := Success(restaurantCoords);
  }

  /**
   * The state after handling orders in turn: the delivery coordinates used
   * for each order (None for an order that was not geocoded), the table, and
   * whether a lookup raised.
   */
  datatype OrdersRun = OrdersRun(deliveries: seq<Option<LatLon>>, rows: map<string, PlaceCoordinates>, failed: bool)

  /**
   * One more order (foodcartapp/models.py:55-56): its delivery address is
   * geocoded only when some restaurant can cook it.
   */
  function AnnotateNext(prev: OrdersRun, menu: seq<MenuRow>, order: Order, now: int, keyConfigured: bool,
                        provider: string -> ProviderReply): OrdersRun
  {
    if prev.failed then prev
    else if QuerySetFeasible(menu, order.items) == {} then OrdersRun(prev.deliveries + [None], prev.rows, false)
    else
      var step := Lookup(prev.rows, order.address, now, keyConfigured, provider(order.address));
      if step.result.Failure? then OrdersRun(prev.deliveries, step.rows, true)
      else OrdersRun(prev.deliveries + [step.result.value], step.rows, false)
  }

  /** The orders handled in turn, starting from table `rows`. */
  function AnnotateAll(rows: map<string, PlaceCoordinates>, menu: seq<MenuRow>, orders: seq<Order>, now: int,
                       keyConfigured: bool, provider: string -> ProviderReply): (run: OrdersRun)
    ensures !run.failed ==> |run.deliveries| == |orders|
    ensures !run.failed ==> forall k :: 0 <= k < |orders| && QuerySetFeasible(menu, orders[k].items) == {} ==> run.deliveries[k] == None
  {
    if orders == [] then OrdersRun([], rows, false)
    else
      var init := orders[..|orders| - 1];
      var prev := AnnotateAll(rows, menu, init, now, keyConfigured, provider);
      assert forall k :: 0 <= k < |init| ==> init[k] == orders[k];
      AnnotateNext(prev, menu, orders[|orders| - 1], now, keyConfigured, provider)
  }

  lemma AnnotateAllStep(rows: map<string, PlaceCoordinates>, menu: seq<MenuRow>, orders: seq<Order>, k: nat,
                        now: int, keyConfigured: bool, provider: string -> ProviderReply)
    requires k < |orders|
    ensures AnnotateAll(rows, menu, orders[..k + 1], now, keyConfigured, provider)
         == AnnotateNext(AnnotateAll(rows, menu, orders[..k], now, keyConfigured, provider), menu, orders[k], now, keyConfigured, provider)
  {
    assert orders[..k + 1][..k] == orders[..k];
  }

  lemma {:induction false} AnnotateAllStaysFailed(rows: map<string, PlaceCoordinates>, menu: seq<MenuRow>, orders: seq<Order>, k: nat,
                                                  now: int, keyConfigured: bool, provider: string -> ProviderReply)
    requires k <= |orders|
    requires AnnotateAll(rows, menu, orders[..k], now, keyConfigured, provider).failed
    ensures AnnotateAll(rows, menu, orders, now, keyConfigured, provider) == AnnotateAll(rows, menu, orders[..k], now, keyConfigured, provider)
  {
    if k < |orders| {
      var init := orders[..|orders| - 1];
      assert init[..k] == orders[..k];
      AnnotateAllStaysFailed(rows, menu, init, k, now, keyConfigured, provider);
    } else {
      assert orders[..k] == orders;
    }
  }

  /** Orders that no restaurant can cook are never geocoded: the table stays as it was. */
  lemma {:induction false} NoCandidatesNoLookups(rows: map<string, PlaceCoordinates>, menu: seq<MenuRow>, orders: seq<Order>,
                                                 now: int, keyConfigured: bool, provider: string -> ProviderReply)
    requires forall k :: 0 <= k < |orders| ==> QuerySetFeasible(menu, orders[k].items) == {}
    ensures var run := AnnotateAll(rows, menu, orders, now, keyConfigured, provider);
            !run.failed && run.rows == rows
  {
    if orders != [] {
      var init := orders[..|orders| - 1];
      assert forall k :: 0 <= k < |init| ==> init[k] == orders[k];
      NoCandidatesNoLookups(rows, menu, init, now, keyConfigured, provider);
    }
  }

  /**
   * One pass of the loop of foodcartapp/models.py:39-75: match the order and,
   * when some restaurant fits, geocode its delivery address and rank.
   */
  method AnnotateOrder(cache: CoordinateCache, menu: seq<MenuRow>, productRestaurants: map<ProductId, seq<RestaurantId>>,
                       restaurantCoords: map<RestaurantId, Option<LatLon>>, order: Order,
                       now: int, keyConfigured: bool, provider: string -> ProviderReply,
                       geodesic: (LatLon, LatLon) -> Option<nat>)
    returns (result: Result<seq<Candidate>, FetchError>)
    requires cache.Valid()
    requires IndexOf(productRestaurants, menu)
    modifies cache
    ensures cache.Valid()
    ensures QuerySetFeasible(menu, order.items) == {} ==> cache.rows == old(cache.rows) && result == Success([])
    ensures QuerySetFeasible(menu, order.items) != {} ==>
              var step := Lookup(old(cache.rows), order.address, now, keyConfigured, provider(order.address));
              && cache.rows == step.rows
              && (result.Success? <==> step.result.Success?)
              && (result.Success? ==> RankedFor(result.value, QuerySetFeasible(menu, order.items), step.result.value,
                                                restaurantCoords, geodesic))
  {
    var available := MatchOrder(menu, productRestaurants, order.items);
    if available == {} {
      return Success([]);
    }
    var delivery, _ := cache.GetCoordinates(order.address, now, keyConfigured, provider);
    if delivery.Failure? {
      return Failure(delivery.error);
    }
    var ranked := RankCandidates(available, delivery.value, restaurantCoords, geodesic);
    result := Success(ranked);
  }

  /** The delivery point an order's step records: None without candidates or when the lookup finds nothing. */
  function DeliveryPoint(rows: map<string, PlaceCoordinates>, menu: seq<MenuRow>, order: Order, now: int,
                         keyConfigured: bool, provider: string -> ProviderReply): Option<LatLon>
  {
    if QuerySetFeasible(menu, order.items) == {} then None
    else
      var answer := Lookup(rows, order.address, now, keyConfigured, provider(order.address)).result;
      if answer.Success? then answer.value else None
  }

  /** One order's step of the fold, given the table and the outcome AnnotateOrder promises. */
  lemma AnnotateNextAfterOrder(before: OrdersRun, menu: seq<MenuRow>, order: Order, now: int, keyConfigured: bool,
                               provider: string -> ProviderReply, rowsAfter: map<string, PlaceCoordinates>, ok: bool)
    requires !before.failed
    requires QuerySetFeasible(menu, order.items) == {} ==> rowsAfter == before.rows && ok
    requires QuerySetFeasible(menu, order.items) != {} ==>
               var step := Lookup(before.rows, order.address, now, keyConfigured, provider(order.address));
               rowsAfter == step.rows && (ok <==> step.result.Success?)
    ensures var next := AnnotateNext(before, menu, order, now, keyConfigured, provider);
            && (next.failed <==> !ok)
            && next.rows == rowsAfter
            && (ok ==> next.deliveries == before.deliveries + [DeliveryPoint(before.rows, menu, order, now, keyConfigured, provider)])
  {
  }

  /** Appending the next order's ranked list keeps every list ranked for its own order. */
  lemma RankedAppend(annotated: seq<seq<Candidate>>, deliveries: seq<Option<LatLon>>, menu: seq<MenuRow>, orders: seq<Order>,
                     coords: map<RestaurantId, Option<LatLon>>, geodesic: (LatLon, LatLon) -> Option<nat>,
                     ranked: seq<Candidate>, delivery: Option<LatLon>)
    requires |annotated| == |deliveries| < |orders|
    requires forall j :: 0 <= j < |annotated| ==>
               RankedFor(annotated[j], QuerySetFeasible(menu, orders[j].items), deliveries[j], coords, geodesic)
    requires RankedFor(ranked, QuerySetFeasible(menu, orders[|annotated|].items), delivery, coords, geodesic)
    ensures forall j :: 0 <= j < |annotated| + 1 ==>
              RankedFor((annotated + [ranked])[j], QuerySetFeasible(menu, orders[j].items), (deliveries + [delivery])[j], coords, geodesic)
  {
    forall j | 0 <= j < |annotated| + 1
      ensures RankedFor((annotated + [ranked])[j], QuerySetFeasible(menu, orders[j].items), (deliveries + [delivery])[j], coords, geodesic)
    {
      if j < |annotated| {
        assert (annotated + [ranked])[j] == annotated[j];
        assert (deliveries + [delivery])[j] == deliveries[j];
      }
    }
  }

  /**
   * One turn of the order loop, on values: from what AnnotateOrder promises
   * about order `k`, the fold either stops with the table it wrote or moves
   * on by one order, and every list so far stays ranked for its own order.
   */
  lemma AnnotateOrdersStep(rows: map<string, PlaceCoordinates>, menu: seq<MenuRow>, orders: seq<Order>, k: nat,
                           coords: map<RestaurantId, Option<LatLon>>, geodesic: (LatLon, LatLon) -> Option<nat>,
                           now: int, keyConfigured: bool, provider: string -> ProviderReply,
                           annotated: seq<seq<Candidate>>, deliveries: seq<Option<LatLon>>,
                           rowsBefore: map<string, PlaceCoordinates>, rowsAfter: map<string, PlaceCoordinates>,
                           ranked: Result<seq<Candidate>, FetchError>)
    requires k < |orders| && |annotated| == k == |deliveries|
    requires AnnotateAll(rows, menu, orders[..k], now, keyConfigured, provider) == OrdersRun(deliveries, rowsBefore, false)
    requires forall j :: 0 <= j < k ==>
               RankedFor(annotated[j], QuerySetFeasible(menu, orders[j].items), deliveries[j], coords, geodesic)
    requires QuerySetFeasible(menu, orders[k].items) == {} ==> rowsAfter == rowsBefore && ranked == Success([])
    requires QuerySetFeasible(menu, orders[k].items) != {} ==>
               var step := Lookup(rowsBefore, orders[k].address, now, keyConfigured, provider(orders[k].address));
               && rowsAfter == step.rows
               && (ranked.Success? <==> step.result.Success?)
               && (ranked.Success? ==> RankedFor(ranked.value, QuerySetFeasible(menu, orders[k].items), step.result.value, coords, geodesic))
    ensures ranked.Failure? ==>
              && AnnotateAll(rows, menu, orders, now, keyConfigured, provider).failed
              && AnnotateAll(rows, menu, orders, now, keyConfigured, provider).rows == rowsAfter
    ensures ranked.Success? ==>
              var delivery := DeliveryPoint(rowsBefore, menu, orders[k], now, keyConfigured, provider);
              && AnnotateAll(rows, menu, orders[..k + 1], now, keyConfigured, provider) == OrdersRun(deliveries + [delivery], rowsAfter, false)
              && forall j :: 0 <= j < k + 1 ==>
                   RankedFor((annotated + [ranked.value])[j], QuerySetFeasible(menu, orders[j].items), (deliveries + [delivery])[j], coords, geodesic)
  {
    var before := OrdersRun(deliveries, rowsBefore, false);
    AnnotateAllStep(rows, menu, orders, k, now, keyConfigured, provider);
    AnnotateNextAfterOrder(before, menu, orders[k], now, keyConfigured, provider, rowsAfter, ranked.Success?);
    if ranked.Failure? {
      AnnotateAllStaysFailed(rows, menu, orders, k + 1, now, keyConfigured, provider);
    } else {
      var delivery := DeliveryPoint(rowsBefore, menu, orders[k], now, keyConfigured, provider);
      if QuerySetFeasible(menu, orders[k].items) != {} {
        assert delivery == Lookup(rowsBefore, orders[k].address, now, keyConfigured, provider(orders[k].address)).result.value;
      }
      RankedAppend(annotated, deliveries, menu, orders, coords, geodesic, ranked.value, delivery);
    }
  }

  /** The loop of foodcartapp/models.py:39-75 over all orders, in order; a ValueError ends it. */
  method AnnotateOrders(cache: CoordinateCache, menu: seq<MenuRow>, productRestaurants: map<ProductId, seq<RestaurantId>>,
                        restaurantCoords: map<RestaurantId, Option<LatLon>>, orders: seq<Order>,
                        now: int, keyConfigured: bool, provider: string -> ProviderReply,
                        geodesic: (LatLon, LatLon) -> Option<nat>)
    returns (result: Result<seq<seq<Candidate>>, FetchError>)
    requires cache.Valid()
    requires IndexOf(productRestaurants, menu)
    modifies cache
    ensures cache.Valid()
    ensures var run := AnnotateAll(old(cache.rows), menu, orders, now, keyConfigured, provider);
            && cache.rows == run.rows
            && (result.Success? <==> !run.failed)
            && (result.Success? ==> |result.value| == |orders|)
            && (result.Success? ==> forall k :: 0 <= k < |orders| ==>
                  RankedFor(result.value[k], QuerySetFeasible(menu, orders[k].items), run.deliveries[k], restaurantCoords, geodesic))
  {
    var annotated: seq<seq<Candidate>> := [];
    ghost var deliveries: seq<Option<LatLon>> := [];
    var k := 0;
    while k < |orders|
      invariant 0 <= k <= |orders|
      invariant cache.Valid()
      invariant AnnotateAll(old(cache.rows), menu, orders[..k], now, keyConfigured, provider) == OrdersRun(deliveries, cache.rows, false)
      invariant |annotated| == k == |deliveries|
      invariant forall j :: 0 <= j < k ==>
                  RankedFor(annotated[j], QuerySetFeasible(menu, orders[j].items), deliveries[j], restaurantCoords, geodesic)
    {
      ghost var rowsBefore := cache.rows;
      var ranked := AnnotateOrder(cache, menu, productRestaurants, restaurantCoords, orders[k],
                                  now, keyConfigured, provider, geodesic);
      AnnotateOrdersStep(old(cache.rows), menu, orders, k, restaurantCoords, geodesic, now, keyConfigured, provider,
                         annotated, deliveries, rowsBefore, cache.rows, ranked);
      if ranked.Failure? {
        return Failure(ranked.error);
      }
      annotated := annotated + [ranked.value];
      deliveries := deliveries + [DeliveryPoint(rowsBefore, menu, orders[k], now, keyConfigured, provider)];
      k := k + 1;
    }
    assert orders[..k] == orders;
    result := Success(annotated);
  }

  /**
   * OrderQuerySet.with_available_restaurants (foodcartapp/models.py:18-77):
   * index the available menu rows, geocode every restaurant, then for each
   * order match its line items and, only if some restaurant fits, geocode
   * the delivery address and rank. A ValueError from the geocoder is not
   * caught and ends the whole call, keeping the rows already written.
   */
  method WithAvailableRestaurants(cache: CoordinateCache, menu: seq<MenuRow>, restaurants: seq<Restaurant>, orders: seq<Order>,
                                  now: int, keyConfigured: bool, provider: string -> ProviderReply,
                                  geodesic: (LatLon, LatLon) -> Option<nat>)
    returns (result: Result<seq<seq<Candidate>>, FetchError>)
    requires cache.Valid()
    modifies cache
    ensures cache.Valid()
    ensures var geocoded := GeocodeAll(old(cache.rows), restaurants, now, keyConfigured, provider);
            var handled := AnnotateAll(geocoded.rows, menu, orders, now, keyConfigured, provider);
            && cache.rows == (if geocoded.failed then geocoded.rows else handled.rows)
            && (result.Success? <==> !geocoded.failed && !handled.failed)
            && (result.Success? ==> |result.value| == |orders|)
            && (result.Success? ==> forall k :: 0 <= k < |orders| ==>
                  RankedFor(result.value[k], QuerySetFeasible(menu, orders[k].items), handled.deliveries[k],
                            geocoded.coords, geodesic))
  {
    var productRestaurants := ProductRestaurants(menu);
    var coords := GeocodeRestaurants(cache, restaurants, now, keyConfigured, provider);
    if coords.Failure? {
      return Failure(coords.error);
    }
    result := AnnotateOrders(cache, menu, productRestaurants, coords.value, orders,
                             now, keyConfigured, provider, geodesic);
  }
}
