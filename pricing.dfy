/**
 * Order-line pricing in the admin (OrderAdmin.save_formset and
 * OrderProductInline.product_price_display, foodcartapp/admin.py; the same
 * code appears in backend/foodcartapp/admin.py).
 */
module OrderPricing {
  import opened Wrappers
  import opened Catalog

  /** One instance that `formset.save(commit=False)` hands back. */
  class FormInstance {
    /** `isinstance(instance, OrderProduct)`. */
    const isOrderProduct: bool
    /** The primary key: None until the instance is first saved; a key of 0 is falsy as well. */
    const pk: Option<nat>
    const product: ProductId
    var fixedPrice: Price

    constructor (isOrderProduct: bool, pk: Option<nat>, product: ProductId, fixedPrice: Price)
      ensures this.isOrderProduct == isOrderProduct && this.pk == pk
      ensures this.product == product && this.fixedPrice == fixedPrice
    {
      this.isOrderProduct := isOrderProduct;
      this.pk := pk;
      this.product := product;
      this.fixedPrice := fixedPrice;
    }
  }

  /** `not instance.pk`: no primary key yet, or the falsy key 0. */
  predicate Unsaved(pk: Option<nat>)
  {
    pk.None? || pk.value == 0
  }

  /** The fixed price a line has after save_formset, given its product's catalog price. */
  function StampedPrice(isOrderProduct: bool, pk: Option<nat>, fixedPrice: Price, catalogPrice: Price): Price
  {
    if isOrderProduct && Unsaved(pk) then catalogPrice else fixedPrice
  }

  /** A new line, whose pk is None or 0, takes its product's current catalog price. */
  lemma NewLineTakesCatalogPrice(pk: Option<nat>, fixedPrice: Price, catalogPrice: Price)
    requires pk.None? || pk == Some(0)
    ensures StampedPrice(true, pk, fixedPrice, catalogPrice) == catalogPrice
  {
  }

  /**
   * A line that already exists (its pk is not 0) keeps its fixed price whatever the catalog
   * price is now, so later price changes do not drift into past orders.
   */
  lemma ExistingLineKeepsFixedPrice(pk: nat, fixedPrice: Price, before: Price, after: Price)
    requires pk != 0
    ensures StampedPrice(true, Some(pk), fixedPrice, before) == fixedPrice
    ensures StampedPrice(true, Some(pk), fixedPrice, after) == fixedPrice
  {
  }

  /**
   * save_formset: stamp `fixed_price := product.price` on every OrderProduct
   * whose pk is falsy, leave every other instance alone, and pass all of them on
   * to be saved, in order.
   */
  method SaveFormset(instances: seq<FormInstance>, prices: map<ProductId, Price>) returns (saved: seq<FormInstance>)
    requires forall o :: o in instances ==> o.product in prices
    modifies set o | o in instances
    ensures saved == instances
    ensures forall o :: o in instances ==>
              o.fixedPrice == StampedPrice(o.isOrderProduct, o.pk, old(o.fixedPrice), prices[o.product])
  {
    var i := 0;
    while i < |instances|
      invariant 0 <= i <= |instances|
      invariant forall o :: o in instances ==>
                  o.fixedPrice == (if o in instances[..i] then StampedPrice(o.isOrderProduct, o.pk, old(o.fixedPrice), prices[o.product])
                                   else old(o.fixedPrice))
    {
      var instance := instances[i];
      assert instances[..i + 1] == instances[..i] + [instance];
      if instance.isOrderProduct && Unsaved(instance.pk) {
        instance.fixedPrice := prices[instance.product];
      }
      i := i + 1;
    }
    assert instances[..i] == instances;
    saved := instances;
  }

  function DigitChar(d: nat): (c: char)
    requires d < 10
    ensures '0' <= c <= '9'
  {
    "0123456789"[d]
  }

  function DigitValue(c: char): nat
  {
    if '0' <= c <= '9' then (c as int - '0' as int) as nat else 0
  }

  /** Decimal digits of `n`, most significant first, without leading zeros. */
  function NatToString(n: nat): (s: string)
    ensures |s| >= 1
    ensures forall i :: 0 <= i < |s| ==> '0' <= s[i] <= '9'
  {
    if n < 10 then [DigitChar(n)] else NatToString(n / 10) + [DigitChar(n % 10)]
  }

  function DigitsValue(s: string): nat
  {
    if s == [] then 0 else DigitsValue(s[..|s| - 1]) * 10 + DigitValue(s[|s| - 1])
  }

  lemma DigitRoundTrip(d: nat)
    requires d < 10
    ensures DigitValue(DigitChar(d)) == d
  {
    var digits := "0123456789";
    assert digits[0] == '0' && digits[1] == '1' && digits[2] == '2' && digits[3] == '3' && digits[4] == '4';
    assert digits[5] == '5' && digits[6] == '6' && digits[7] == '7' && digits[8] == '8' && digits[9] == '9';
  }

  lemma {:induction false} NatToStringRoundTrip(n: nat)
    ensures DigitsValue(NatToString(n)) == n
  {
    if n < 10 {
      DigitRoundTrip(n);
      assert NatToString(n)[..0] == [];
    } else {
      NatToStringRoundTrip(n / 10);
      DigitRoundTrip(n % 10);
      var s := NatToString(n);
      assert s[..|s| - 1] == NatToString(n / 10);
    }
  }

  /** `str(Decimal)` of a two-place amount: rubles, a point, two kopeck digits. */
  function FormatPrice(price: Price): (text: string)
    ensures |text| >= 4 && text[|text| - 3] == '.'
    ensures forall i :: 0 <= i < |text| && i != |text| - 3 ==> '0' <= text[i] <= '9'
  {
    NatToString(price / 100) + "." + [DigitChar(price / 10 % 10), DigitChar(price % 10)]
  }

  /** Reads back an amount written by FormatPrice. */
  function PriceValue(s: string): Price
  {
    if |s| < 3 then 0
    else DigitsValue(s[..|s| - 3]) * 100 + DigitValue(s[|s| - 2]) * 10 + DigitValue(s[|s| - 1])
  }

  /** The rubles, tens of kopecks and kopecks of an amount add back up to it. */
  lemma KopeckDigits(price: Price)
    ensures (price / 100) * 100 + (price / 10 % 10) * 10 + price % 10 == price
  {
    var tens := price / 10;
    assert price == tens * 10 + price % 10;
    assert tens == (tens / 10) * 10 + tens % 10;
    assert price / 100 == tens / 10;
  }

  lemma PriceValueOfParts(whole: string, hi: char, lo: char)
    ensures PriceValue(whole + "." + [hi, lo]) == DigitsValue(whole) * 100 + DigitValue(hi) * 10 + DigitValue(lo)
  {
    var s := whole + "." + [hi, lo];
    assert s[..|s| - 3] == whole;
    assert s[|s| - 2] == hi && s[|s| - 1] == lo;
  }

  lemma FormatPriceRoundTrip(price: Price)
    ensures PriceValue(FormatPrice(price)) == price
  {
    PriceValueOfParts(NatToString(price / 100), DigitChar(price / 10 % 10), DigitChar(price % 10));
    NatToStringRoundTrip(price / 100);
    DigitRoundTrip(price / 10 % 10);
    DigitRoundTrip(price % 10);
    KopeckDigits(price);
  }

  const Ruble: string := " ₽"

  /** product_price_display: `"<fixed_price> ₽"` once a product is chosen, `"-"` before. */
  function ProductPriceDisplay(product: Option<ProductId>, fixedPrice: Price): (shown: string)
    ensures shown == "-" <==> product.None?
  {
    if product.Some? then FormatPrice(fixedPrice) + Ruble else "-"
  }

  /** Reads a displayed price back: None for the placeholder. */
  function DisplayedPrice(s: string): Option<Price>
  {
    if |s| >= 2 && s[|s| - 2..] == Ruble then Some(PriceValue(s[..|s| - 2])) else None
  }

  /** The display shows exactly the line's fixed price, and nothing without a product. */
  lemma DisplayShowsFixedPrice(product: Option<ProductId>, fixedPrice: Price)
    ensures DisplayedPrice(ProductPriceDisplay(product, fixedPrice)) == if product.Some? then Some(fixedPrice) else None
  {
    if product.Some? {
      var s := ProductPriceDisplay(product, fixedPrice);
      assert s[..|s| - 2] == FormatPrice(fixedPrice);
      assert s[|s| - 2..] == Ruble;
      FormatPriceRoundTrip(fixedPrice);
    } else {
      assert "-"[0] != Ruble[0];
    }
  }
}
