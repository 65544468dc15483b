/**
 * OrderAdmin of backend/foodcartapp/admin.py: the admin's own matcher,
 * which gives up as soon as a product has no available row, and the
 * narrowing of the `cooking_restaurant` choices it feeds.
 */
module OrderAdmin {
  import opened Wrappers
  import opened Catalog
  import opened Matching

  /**
   * get_available_restaurants: intersect the restaurant sets of the line
   * items in order, returning nothing at the first product that has no
   * available row or as soon as the intersection is empty. An order without
   * line items ends in `filter(id__in=None)`, which raises; the model
   * excludes that case. The inline's `min_num = 1` only constrains the order
   * form, and OrderProductAdmin can still delete every line of an order.
   */
  method GetAvailableRestaurants(menu: seq<MenuRow>, items: seq<LineItem>) returns (ids: set<RestaurantId>)
    requires |items| > 0
    ensures ids == Feasible(menu, items)
  {
    var productRestaurants := ProductRestaurants(menu);
    var available: Option<set<RestaurantId>> := None;
    for i := 0 to |items|
      invariant i == 0 ==> available == None
      invariant i > 0 ==> available.Some? && available.value != {}
      invariant i > 0 ==> available.value == set r | r in AvailableAt(menu, items[0].0) && ServesFirst(menu, r, items, i)
    {
      var product := items[i].0;
      IndexedRestaurants(productRestaurants, menu, product);
      if product in productRestaurants {
        var restaurantIds := set r | r in productRestaurants[product];
        if available == None {
          available := Some(restaurantIds);
        } else {
          available := Some(available.value * restaurantIds);
        }
      } else {
        UnstockedProductEmpties(menu, items, i);
        return {};
      }
      if available.value == {} {
        forall r | r in Feasible(menu, items) ensures r in available.value {
          assert ServesFirst(menu, r, items, i + 1);
        }
        return {};
      }
    }
    ids := available.value;
    forall r | r in ids ensures r in Restaurants(menu) {
      var row :| row in menu && row.1 == items[0].0 && row.2 && row.0 == r;
    }
    forall r | r in Feasible(menu, items) ensures r in ids {
      assert r in AvailableAt(menu, items[0].0);
    }
  }

  /** A product without any available menu row leaves no feasible restaurant. */
  lemma UnstockedProductEmpties(menu: seq<MenuRow>, items: seq<LineItem>, k: nat)
    requires k < |items| && !Stocked(menu, items[k].0)
    ensures Feasible(menu, items) == {}
  {
    StockedIffAvailable(menu, items[k].0);
    assert Feasible(menu, items) <= AvailableAt(menu, items[k].0);
  }

  /** Menu rows with `availability=False` do not count. */
  lemma UnavailableRowsIgnored(menu: seq<MenuRow>, items: seq<LineItem>, r: RestaurantId, p: ProductId)
    requires items != []
    ensures Feasible(menu + [(r, p, false)], items) == Feasible(menu, items)
  {
    var extended := menu + [(r, p, false)];
    forall q ensures AvailableAt(extended, q) == AvailableAt(menu, q) {
      forall x | x in AvailableAt(extended, q) ensures x in AvailableAt(menu, q) {
        var row :| row in extended && row.1 == q && row.2 && row.0 == x;
        assert row in menu;
      }
    }
    forall x | x in Feasible(extended, items) ensures x in Restaurants(menu) {
      var row :| row in menu && row.1 == items[0].0 && row.2 && row.0 == x;
    }
  }

  /**
   * The two matchers differ: the admin one gives up on a later product
   * without an available row, the query-set one skips it.
   */
  lemma MatchersDisagreeOnLaterUnstockedProduct()
    ensures Feasible([(1, 10, true)], [(10, 1), (20, 1)]) == {}
    ensures QuerySetFeasible([(1, 10, true)], [(10, 1), (20, 1)]) == {1}
  {
    var menu: seq<MenuRow> := [(1, 10, true)];
    assert menu[0] in menu;
    assert StockedProducts(menu) == {10};
    UnstockedProductEmpties(menu, [(10, 1), (20, 1)], 1);
    QuerySetDependsOnItemOrder();
  }

  /**
   * formfield_for_foreignkey: only the `cooking_restaurant` field of the
   * change page of an existing order is narrowed to the restaurants that
   * can prepare it; otherwise (other fields, the add page, an unknown id)
   * the default choices stay.
   */
  method CookingRestaurantChoices(fieldName: string, objectId: Option<nat>, orders: map<nat, seq<LineItem>>,
                                  menu: seq<MenuRow>, defaultChoices: set<RestaurantId>)
    returns (choices: set<RestaurantId>)
    requires fieldName == "cooking_restaurant" && objectId.Some? && objectId.value in orders ==> orders[objectId.value] != []
    ensures fieldName == "cooking_restaurant" && objectId.Some? && objectId.value in orders
            ==> choices == Feasible(menu, orders[objectId.value])
    ensures !(fieldName == "cooking_restaurant" && objectId.Some? && objectId.value in orders)
            ==> choices == defaultChoices
  {
    choices := defaultChoices;
    if fieldName == "cooking_restaurant" {
      if objectId.Some? {
        if objectId.value in orders {
          choices := GetAvailableRestaurants(menu, orders[objectId.value]);
        }
      }
    }
  }
}
