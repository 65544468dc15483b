/** The field validators of foodcartapp/serializers.py. */
module Serializers {
  import opened Wrappers
  import opened Catalog

  /** `str.isspace()`: the characters Python's `str.strip()` removes. */
  predicate IsWhitespace(c: char)
  {
    || '\t' <= c <= '\r'
    || '\U{1C}' <= c <= '\U{1F}'
    || c == ' ' || c == '\U{85}' || c == '\U{A0}' || c == '\U{1680}'
    || '\U{2000}' <= c <= '\U{200A}'
    || c == '\U{2028}' || c == '\U{2029}' || c == '\U{202F}' || c == '\U{205F}' || c == '\U{3000}'
  }

  function StripLeading(s: string): string
  {
    if s != [] && IsWhitespace(s[0]) then StripLeading(s[1..]) else s
  }

  function StripTrailing(s: string): (r: string)
    ensures |r| <= |s| && r == s[..|r|]
    ensures r == [] || !IsWhitespace(r[|r| - 1])
  {
    if s != [] && IsWhitespace(s[|s| - 1]) then
      var r := StripTrailing(s[..|s| - 1]);
      assert s[..|s| - 1][..|r|] == s[..|r|];
      r
    else s
  }

  /** `str.strip()` with no argument: the result neither starts nor ends with whitespace. */
  function Strip(s: string): (r: string)
    ensures r == [] || (!IsWhitespace(r[0]) && !IsWhitespace(r[|r| - 1]))
  {
    StripLeadingStopsAtText(s);
    StripTrailing(StripLeading(s))
  }

  predicate Blank(s: string)
  {
    forall i :: 0 <= i < |s| ==> IsWhitespace(s[i])
  }

  lemma {:induction false} StripLeadingEmptyIffBlank(s: string)
    ensures StripLeading(s) == [] <==> Blank(s)
  {
    if s != [] {
      StripLeadingEmptyIffBlank(s[1..]);
      if IsWhitespace(s[0]) {
        assert Blank(s) <==> Blank(s[1..]) by {
          assert forall i :: 0 < i < |s| ==> s[i] == s[1..][i - 1];
        }
      }
    }
  }

  lemma {:induction false} StripTrailingEmptyOnlyIfEmpty(s: string)
    requires s == [] || !IsWhitespace(s[0])
    ensures StripTrailing(s) == [] <==> s == []
  {
    if s != [] && IsWhitespace(s[|s| - 1]) {
      StripTrailingEmptyOnlyIfEmpty(s[..|s| - 1]);
    }
  }

  /** `not value.strip()` holds exactly for empty or all-whitespace strings. */
  lemma StripEmptyIffBlank(s: string)
    ensures Strip(s) == [] <==> Blank(s)
  {
    StripLeadingEmptyIffBlank(s);
    StripLeadingStopsAtText(s);
    StripTrailingEmptyOnlyIfEmpty(StripLeading(s));
  }

  lemma {:induction false} StripLeadingStopsAtText(s: string)
    ensures StripLeading(s) == [] || !IsWhitespace(StripLeading(s)[0])
  {
    if s != [] && IsWhitespace(s[0]) {
      StripLeadingStopsAtText(s[1..]);
    }
  }

  const QuantityError: string := "Количество должно быть положительным числом"
  const FirstnameError: string := "Имя не может быть пустым"
  const AddressError: string := "Адрес не может быть пустым"

  /** validate_quantity: anything below 1 is rejected; the rest is returned as it is. */
  function ValidateQuantity(value: int): (r: Result<int, string>)
    ensures r.Success? <==> value >= 1
    ensures r.Success? ==> r.value == value
    ensures r.Failure? ==> r.error == QuantityError
  {
    if value < 1 then Failure(QuantityError) else Success(value)
  }

  /** validate_firstname: rejects a blank name; otherwise returns it unstripped. */
  function ValidateFirstname(value: string): (r: Result<string, string>)
    ensures r.Success? <==> exists i :: 0 <= i < |value| && !IsWhitespace(value[i])
    ensures r.Success? ==> r.value == value
    ensures r.Failure? ==> r.error == FirstnameError
  {
    StripEmptyIffBlank(value);
    if Strip(value) == [] then Failure(FirstnameError) else Success(value)
  }

  /** validate_address: rejects a blank address; otherwise returns it unstripped. */
  function ValidateAddress(value: string): (r: Result<string, string>)
    ensures r.Success? <==> exists i :: 0 <= i < |value| && !IsWhitespace(value[i])
    ensures r.Success? ==> r.value == value
    ensures r.Failure? ==> r.error == AddressError
  {
    StripEmptyIffBlank(value);
    if Strip(value) == [] then Failure(AddressError) else Success(value)
  }

  /** A name with surrounding spaces is accepted and kept with its spaces. */
  lemma FirstnameNotStripped()
    ensures ValidateFirstname(" Иван ") == Success(" Иван ")
  {
    assert !IsWhitespace(" Иван "[1]);
  }

  /** Outcome of the nested `products` list: refused when empty, else one optional error per item. */
  datatype ProductsCheck = EmptyNotAllowed | ItemErrors(errors: seq<Option<string>>) | Valid(items: seq<(ProductId, int)>)

  function ItemError(item: (ProductId, int)): Option<string>
  {
    match ValidateQuantity(item.1)
    case Success(_) => None
    case Failure(e) => Some(e)
  }

  function ItemErrorList(items: seq<(ProductId, int)>): (errors: seq<Option<string>>)
    ensures |errors| == |items|
    ensures forall i :: 0 <= i < |items| ==> errors[i] == ItemError(items[i])
  {
    if items == [] then [] else [ItemError(items[0])] + ItemErrorList(items[1..])
  }

  /**
   * `products = OrderProductSerializer(many=True, allow_empty=False)`: an
   * empty list is refused; otherwise every item is validated and the errors
   * are reported per item.
   */
  function ValidateProducts(items: seq<(ProductId, int)>): (r: ProductsCheck)
    ensures r.EmptyNotAllowed? <==> items == []
    ensures r.Valid? <==> items != [] && forall i :: 0 <= i < |items| ==> items[i].1 >= 1
    ensures r.Valid? ==> r.items == items
    ensures r.ItemErrors? ==> |r.errors| == |items|
    ensures r.ItemErrors? ==> forall i :: 0 <= i < |items| ==> (r.errors[i].Some? <==> items[i].1 < 1)
  {
    if items == [] then EmptyNotAllowed
    else
      var errors := ItemErrorList(items);
      if forall i :: 0 <= i < |errors| ==> errors[i].None? then Valid(items) else ItemErrors(errors)
  }
}
