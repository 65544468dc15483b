/**
 * The catalog side of foodcartapp/models.py: menu rows, line items, prices,
 * and the set-level notions that restaurant matching is stated in.
 */
module Catalog {
  import opened Wrappers

  type ProductId = nat
  type RestaurantId = nat

  /** One RestaurantMenuItem row: (restaurant, product, availability). */
  type MenuRow = (RestaurantId, ProductId, bool)

  /** One OrderProduct of an order as matching sees it: (product, quantity). */
  type LineItem = (ProductId, nat)

  /** A DecimalField with two decimal places, counted in kopecks. */
  type Price = nat

  /** The restaurants with an available menu row for `p`. */
  function AvailableAt(menu: seq<MenuRow>, p: ProductId): set<RestaurantId>
  {
    set row | row in menu && row.1 == p && row.2 :: row.0
  }

  /** The products that have at least one available menu row. */
  function StockedProducts(menu: seq<MenuRow>): set<ProductId>
  {
    set row | row in menu && row.2 :: row.1
  }

  predicate Stocked(menu: seq<MenuRow>, p: ProductId)
  {
    p in StockedProducts(menu)
  }

  /** Every restaurant mentioned by some menu row. */
  function Restaurants(menu: seq<MenuRow>): set<RestaurantId>
  {
    set row | row in menu :: row.0
  }

  /** The distinct products of an order. */
  function ProductsOf(items: seq<LineItem>): set<ProductId>
  {
    set item | item in items :: item.0
  }

  /** `r` has an available menu row for the products of the first `n` line items. */
  predicate ServesFirst(menu: seq<MenuRow>, r: RestaurantId, items: seq<LineItem>, n: nat)
    requires n <= |items|
  {
    forall k :: 0 <= k < n ==> r in AvailableAt(menu, items[k].0)
  }

  /**
   * The feasible restaurants of an order: those that can prepare every
   * product of every line item.
   */
  function Feasible(menu: seq<MenuRow>, items: seq<LineItem>): set<RestaurantId>
  {
    set r | r in Restaurants(menu) && ServesFirst(menu, r, items, |items|)
  }

  lemma AvailableAtMeansRow(menu: seq<MenuRow>, p: ProductId, r: RestaurantId)
    ensures r in AvailableAt(menu, p) <==> (r, p, true) in menu
  {
    if (r, p, true) in menu {
      var row := (r, p, true);
      assert row in menu && row.1 == p && row.2;
    }
  }

  lemma StockedIffAvailable(menu: seq<MenuRow>, p: ProductId)
    ensures Stocked(menu, p) <==> AvailableAt(menu, p) != {}
  {
    if Stocked(menu, p) {
      var row :| row in menu && row.2 && row.1 == p;
      assert row.0 in AvailableAt(menu, p);
    }
    if AvailableAt(menu, p) != {} {
      var r :| r in AvailableAt(menu, p);
      var row :| row in menu && row.1 == p && row.2 && row.0 == r;
      assert row.1 in StockedProducts(menu);
    }
  }

  /**
   * Feasibility depends only on the set of ordered products: neither the
   * order of the line items, nor duplicates, nor quantities change it.
   */
  lemma FeasibleDependsOnProductsOnly(menu: seq<MenuRow>, a: seq<LineItem>, b: seq<LineItem>)
    requires ProductsOf(a) == ProductsOf(b)
    ensures Feasible(menu, a) == Feasible(menu, b)
  {
    forall r | r in Restaurants(menu)
      ensures ServesFirst(menu, r, a, |a|) <==> ServesFirst(menu, r, b, |b|)
    {
      ServesAllProducts(menu, r, a);
      ServesAllProducts(menu, r, b);
    }
  }

  lemma ServesAllProducts(menu: seq<MenuRow>, r: RestaurantId, items: seq<LineItem>)
    ensures ServesFirst(menu, r, items, |items|)
        <==> forall p :: p in ProductsOf(items) ==> r in AvailableAt(menu, p)
  {
    if ServesFirst(menu, r, items, |items|) {
      forall p | p in ProductsOf(items) ensures r in AvailableAt(menu, p) {
        var item :| item in items && item.0 == p;
        var k :| 0 <= k < |items| && items[k] == item;
      }
    }
    if forall p :: p in ProductsOf(items) ==> r in AvailableAt(menu, p) {
      forall k | 0 <= k < |items| ensures r in AvailableAt(menu, items[k].0) {
        assert items[k] in items;
        assert items[k].0 in ProductsOf(items);
      }
    }
  }

  /**
   * ProductQuerySet.available: the products of `products`, in order, that
   * have at least one available menu row.
   */
  function AvailableProducts(products: seq<ProductId>, menu: seq<MenuRow>): (r: seq<ProductId>)
    ensures |r| <= |products|
    ensures forall p :: p in r <==> p in products && Stocked(menu, p)
  {
    if products == [] then []
    else
      var rest := AvailableProducts(products[1..], menu);
      assert forall p :: p in products <==> p == products[0] || p in products[1..];
      if Stocked(menu, products[0]) then [products[0]] + rest else rest
  }

  /** Sum of quantity times the CURRENT catalog price of each line item. */
  function LineSum(items: seq<LineItem>, prices: map<ProductId, Price>): int
    requires forall k :: 0 <= k < |items| ==> items[k].0 in prices
  {
    if items == [] then 0
    else items[0].1 * prices[items[0].0] + LineSum(items[1..], prices)
  }

  /**
   * OrderQuerySet.with_total_price for one order: the SQL Sum over the
   * order's line items, which is NULL (None) when the order has none.
   */
  function TotalPrice(items: seq<LineItem>, prices: map<ProductId, Price>): (total: Option<int>)
    requires forall k :: 0 <= k < |items| ==> items[k].0 in prices
    ensures total.None? <==> items == []
  {
    if items == [] then None else Some(LineSum(items, prices))
  }

  /** The total quantity ordered of product `p`. */
  function QuantityOf(items: seq<LineItem>, p: ProductId): nat
  {
    if items == [] then 0
    else (if items[0].0 == p then items[0].1 else 0) + QuantityOf(items[1..], p)
  }

  /**
   * The total follows the catalog: changing the price of `p` to `v` moves it
   * by the ordered quantity of `p` times the change.
   */
  lemma {:induction false} LineSumReprice(items: seq<LineItem>, prices: map<ProductId, Price>, p: ProductId, v: Price)
    requires forall k :: 0 <= k < |items| ==> items[k].0 in prices
    requires p in prices
    ensures LineSum(items, prices[p := v]) == LineSum(items, prices) + QuantityOf(items, p) * (v - prices[p])
  {
    if items != [] {
      LineSumReprice(items[1..], prices, p, v);
      var q := items[0].1;
      if items[0].0 == p {
        calc {
          q * v + QuantityOf(items[1..], p) * (v - prices[p]);
          q * prices[p] + (q + QuantityOf(items[1..], p)) * (v - prices[p]);
        }
      }
    }
  }

  lemma TotalPriceReprice(items: seq<LineItem>, prices: map<ProductId, Price>, p: ProductId, v: Price)
    requires forall k :: 0 <= k < |items| ==> items[k].0 in prices
    requires p in prices
    requires items != []
    ensures TotalPrice(items, prices[p := v]).value
         == TotalPrice(items, prices).value + QuantityOf(items, p) * (v - prices[p])
  {
    LineSumReprice(items, prices, p, v);
  }
}
