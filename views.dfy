/**
 * The POST branch of register_order (foodcartapp/views.py): structural
 * checks on the `products` list, then one order and one OrderProduct per
 * element.
 */
module Views {
  import opened Wrappers
  import opened Catalog

  /** A decoded JSON value (numbers are kept as integers). */
  datatype Json = JNull | JBool(b: bool) | JNumber(n: int) | JString(s: string)
                | JArray(elements: seq<Json>) | JObject(members: map<string, Json>)

  const Required: string := "Обязательное поле."
  const NotAList: string := "Должен быть списком."
  const EmptyList: string := "Не может быть пустым."
  const NotAnObject: string := "Каждый элемент должен быть объектом."
  const MissingFields: string := "Каждый продукт должен иметь product и quantity."

  /** The check of one element: an object first, then both keys present. */
  function ElementError(element: Json): (error: Option<string>)
    ensures error.None? <==> WellFormedElement(element)
  {
    if !element.JObject? then Some(NotAnObject)
    else if "product" !in element.members || "quantity" !in element.members then Some(MissingFields)
    else None
  }

  /** The elements are checked one at a time; the first failing one decides the error. */
  function FirstElementError(elements: seq<Json>): Option<string>
  {
    if elements == [] then None
    else if ElementError(elements[0]).Some? then ElementError(elements[0])
    else FirstElementError(elements[1..])
  }

  /**
   * The error message of foodcartapp/views.py:90-106, or None when every
   * check passes: exactly when `products` is a non-empty list of objects
   * that name a product and a quantity.
   */
  function PayloadError(data: map<string, Json>): (error: Option<string>)
    ensures error.None? <==>
              && "products" in data && data["products"].JArray? && data["products"].elements != []
              && forall i :: 0 <= i < |data["products"].elements| ==> WellFormedElement(data["products"].elements[i])
  {
    if "products" !in data then Some(Required)
    else if !data["products"].JArray? then Some(NotAList)
    else if data["products"].elements == [] then Some(EmptyList)
    else
      FirstElementErrorIsFirst(data["products"].elements);
      FirstElementError(data["products"].elements)
  }

  predicate WellFormedElement(element: Json)
  {
    element.JObject? && "product" in element.members && "quantity" in element.members
  }

  /** No element fails, or the reported error is that of the first failing element. */
  lemma {:induction false} FirstElementErrorIsFirst(elements: seq<Json>)
    ensures FirstElementError(elements).None? <==> forall i :: 0 <= i < |elements| ==> WellFormedElement(elements[i])
    ensures FirstElementError(elements).Some? ==>
              exists k :: 0 <= k < |elements|
                && (forall i :: 0 <= i < k ==> WellFormedElement(elements[i]))
                && !WellFormedElement(elements[k])
                && FirstElementError(elements) == ElementError(elements[k])
  {
    if elements != [] {
      FirstElementErrorIsFirst(elements[1..]);
      if ElementError(elements[0]).None? && FirstElementError(elements[1..]).Some? {
        var k :| 0 <= k < |elements[1..]|
                 && (forall i :: 0 <= i < k ==> WellFormedElement(elements[1..][i]))
                 && !WellFormedElement(elements[1..][k])
                 && FirstElementError(elements[1..]) == ElementError(elements[1..][k]);
        assert forall i :: 0 <= i < k + 1 ==> WellFormedElement(elements[i]) by {
          forall i | 0 <= i < k + 1 ensures WellFormedElement(elements[i]) {
            if i > 0 { assert elements[i] == elements[1..][i - 1]; }
          }
        }
        assert elements[k + 1] == elements[1..][k];
      }
      if ElementError(elements[0]).None? && FirstElementError(elements[1..]).None? {
        forall i | 0 <= i < |elements| ensures WellFormedElement(elements[i]) {
          if i > 0 { assert elements[i] == elements[1..][i - 1]; }
        }
      }
    }
  }

  /** Only structure is checked: a negative quantity and an unknown product id are let through. */
  lemma NoQuantityOrProductCheck()
    ensures PayloadError(map["products" := JArray([JObject(map["product" := JNumber(999999), "quantity" := JNumber(-5)])])]).None?
  {
  }

  const OrderFields: seq<string> := ["firstname", "lastname", "phonenumber", "address"]

  predicate HasOrderFields(data: map<string, Json>)
  {
    forall f :: f in OrderFields ==> f in data
  }

  datatype OrderRecord = OrderRecord(id: nat, firstname: Json, lastname: Json, phonenumber: Json, address: Json)

  /** An OrderProduct built by the view; `fixed_price` is never set, so it keeps the default 0.00. */
  datatype OrderLine = OrderLine(order: nat, product: Json, quantity: Json, fixedPrice: Price)

  /** The OrderProduct the view builds from one checked element. */
  function LineOf(order: nat, element: Json): OrderLine
    requires WellFormedElement(element)
  {
    OrderLine(order, element.members["product"], element.members["quantity"], 0)
  }

  /** `MinValueValidator(Decimal('0.01'))` on OrderProduct.fixed_price, in kopecks. */
  const MinFixedPrice: Price := 1

  /** The HTTP answer: 400 with a body, 500, or 200 with the created order. */
  datatype Response = BadRequest(body: map<string, Json>) | ServerError | Ok(body: map<string, Json>)

  /** `{'id': order.id, **data}`: later keys win, so a client-sent "id" replaces the new id. */
  function SuccessBody(id: nat, data: map<string, Json>): map<string, Json>
  {
    map["id" := JNumber(id)] + data
  }

  lemma SuccessBodyId(id: nat, data: map<string, Json>)
    ensures SuccessBody(id, data).Keys == data.Keys + {"id"}
    ensures "id" !in data ==> SuccessBody(id, data)["id"] == JNumber(id)
    ensures "id" in data ==> SuccessBody(id, data)["id"] == data["id"]
    ensures forall k :: k in data ==> SuccessBody(id, data)[k] == data[k]
  {
  }

  /** The loop of foodcartapp/views.py:114-118: one line per element, in list order. */
  method BuildOrderLines(order: nat, elements: seq<Json>) returns (lines: seq<OrderLine>)
    requires forall i :: 0 <= i < |elements| ==> WellFormedElement(elements[i])
    ensures |lines| == |elements|
    ensures forall i :: 0 <= i < |lines| ==> lines[i] == LineOf(order, elements[i])
  {
    lines := [];
    for i := 0 to |elements|
      invariant |lines| == i
      invariant forall j :: 0 <= j < i ==> lines[j] == LineOf(order, elements[j])
    {
      var element := elements[i].members;
      lines := lines + [OrderLine(order, element["product"], element["quantity"], 0)];
    }
  }

  /** Lines created through the API carry a fixed price below the field's own minimum. */
  lemma ApiLinesBelowMinimum(order: nat, element: Json)
    requires WellFormedElement(element)
    ensures LineOf(order, element).fixedPrice < MinFixedPrice
  {
  }

  /**
   * register_order for a POST with body `data`; `newId` is the id the
   * database gives the new order. A missing customer field raises KeyError
   * inside the transaction, which rolls back and surfaces as a server error.
   */
  method RegisterOrder(data: map<string, Json>, newId: nat)
    returns (response: Response, order: Option<OrderRecord>, lines: seq<OrderLine>)
    ensures PayloadError(data).Some? ==>
              response == BadRequest(map["products" := JString(PayloadError(data).value)]) && order == None && lines == []
    ensures PayloadError(data).None? && !HasOrderFields(data) ==> response == ServerError && order == None && lines == []
    ensures PayloadError(data).None? && HasOrderFields(data) ==>
              && response == Ok(SuccessBody(newId, data))
              && order == Some(OrderRecord(newId, data["firstname"], data["lastname"], data["phonenumber"], data["address"]))
              && |lines| == |data["products"].elements|
              && forall i :: 0 <= i < |lines| ==> lines[i] == LineOf(newId, data["products"].elements[i])
  {
    var error := PayloadError(data);
    if error.Some? {
      return BadRequest(map["products" := JString(error.value)]), None, [];
    }
    if !HasOrderFields(data) {
      return ServerError, None, [];
    }
    var created := OrderRecord(newId, data["firstname"], data["lastname"], data["phonenumber"], data["address"]);
    lines := BuildOrderLines(newId, data["products"].elements);
    response, order := Ok(SuccessBody(newId, data)), Some(created);
  }
}
