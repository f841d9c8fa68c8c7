/**
 * Orders: the orders API. A POST builds an order from the requested products, priced by
 * the products table, and stores it only when every requested product was found.
 */
module Orders {

  import opened Wrappers
  import opened Ddb
  import opened ProductRepository

  datatype PaymentType = CASH | DEBIT_CARD | CREDIT_CARD
  datatype ShippingType = ECONOMIC | URGENT
  datatype CarrierType = CORREIOS | SEDEX

  datatype Shipping = Shipping(shippingType: ShippingType, carrier: CarrierType)
  datatype Billing = Billing(payment: PaymentType, totalPrice: int)

  datatype OrderRequest = OrderRequest(
    email: string,
    productIds: seq<string>,
    paymentType: PaymentType,
    shipping: Shipping)

  /** One order line, also the shape of a line in the response. */
  datatype OrderProduct = OrderProduct(code: string, price: int)

  /** A stored order: partition key the e-mail, sort key and creation time set on creation. */
  datatype Order = Order(
    pk: string,
    sk: Option<string>,
    createdAt: Option<int>,
    shipping: Shipping,
    billing: Billing,
    products: seq<OrderProduct>)

  datatype OrderResponse = OrderResponse(
    email: string,
    id: string,
    createdAt: int,
    billing: Billing,
    shipping: Shipping,
    products: seq<OrderProduct>)

  /** The order lines for a list of products, one per product, in order. */
  function OrderLines(products: seq<Product>): (r: seq<OrderProduct>)
    ensures |r| == |products|
    ensures forall i :: 0 <= i < |r| ==> r[i] == OrderProduct(products[i].code, products[i].price)
    decreases |products|
  {
    if products == [] then []
    else
      var n := |products| - 1;
      OrderLines(products[..n]) + [OrderProduct(products[n].code, products[n].price)]
  }

  /** The sum of the products' prices. */
  function TotalPrice(products: seq<Product>): (r: int)
    ensures (forall i :: 0 <= i < |products| ==> products[i].price >= 0) ==> r >= 0
    decreases |products|
  {
    if products == [] then 0
    else
      var n := |products| - 1;
      TotalPrice(products[..n]) + products[n].price
  }

  /** The sum of the order lines' prices. */
  function LinesTotal(lines: seq<OrderProduct>): int
    decreases |lines|
  {
    if lines == [] then 0
    else
      var n := |lines| - 1;
      LinesTotal(lines[..n]) + lines[n].price
  }

  /** The price billed for a list of products is the sum of the lines it produces. */
  lemma {:induction false} BilledTotalIsSumOfLines(products: seq<Product>)
    ensures TotalPrice(products) == LinesTotal(OrderLines(products))
    decreases |products|
  {
    if products != [] {
      var n := |products| - 1;
      BilledTotalIsSumOfLines(products[..n]);
      assert OrderLines(products)[..n] == OrderLines(products[..n]);
    }
  }

  predicate Distinct(ids: seq<string>)
  {
    forall i, j :: 0 <= i < j < |ids| ==> ids[i] != ids[j]
  }

  /**
   * The batch read returns as many products as were requested exactly when every requested
   * id is stored and no id is requested twice.
   */
  lemma {:induction false} AllFoundIff(ids: seq<string>, items: map<string, Product>)
    ensures |FoundInOrder(ids, items)| == |ids| <==> (forall id :: id in ids ==> id in items) && Distinct(ids)
    decreases |ids|
  {
    if ids != [] {
      var n := |ids| - 1;
      var prefix := ids[..n];
      AllFoundIff(prefix, items);
      assert ids == prefix + [ids[n]];
      var added := ids[n] in items && ids[n] !in prefix;
      if added && |FoundInOrder(prefix, items)| == n {
        forall i, j | 0 <= i < j < |ids| ensures ids[i] != ids[j] {
          if j < n {
            assert prefix[i] == ids[i] && prefix[j] == ids[j];
          } else {
            assert ids[i] == prefix[i];
          }
        }
      } else if ids[n] !in items {
      } else if ids[n] in prefix {
        var i :| 0 <= i < n && prefix[i] == ids[n];
        assert ids[i] == ids[n];
      } else {
        assert !Distinct(prefix) || exists id :: id in prefix && id !in items;
        if !Distinct(prefix) {
          var i, j :| 0 <= i < j < n && prefix[i] == prefix[j];
          assert ids[i] == ids[j];
        }
      }
    }
  }

  /** The order for a request and the products found for it, before it is stored. */
  method BuildOrder(request: OrderRequest, products: seq<Product>) returns (order: Order)
    ensures order.pk == request.email && order.sk == None && order.createdAt == None
    ensures order.shipping == request.shipping
    ensures order.billing == Billing(request.paymentType, TotalPrice(products))
    ensures order.products == OrderLines(products)
  {
    var lines: seq<OrderProduct> := [];
    var totalPrice := 0;
    for i := 0 to |products|
      invariant lines == OrderLines(products[..i])
      invariant totalPrice == TotalPrice(products[..i])
    {
      assert products[..i + 1][..i] == products[..i];
      totalPrice := totalPrice + products[i].price;
      lines := lines + [OrderProduct(products[i].code, products[i].price)];
    }
    assert products[..|products|] == products;
    order := Order(request.email, None, None, request.shipping, Billing(request.paymentType, totalPrice), lines);
  }

  /** The response for a stored order: its e-mail, id, creation time, billing, shipping and lines. */
  method ConvertToOrderResponse(order: Order) returns (response: OrderResponse)
    requires order.sk.Some? && order.createdAt.Some?
    ensures response.email == order.pk && response.id == order.sk.value
    ensures response.createdAt == order.createdAt.value
    ensures response.billing == order.billing && response.shipping == order.shipping
    ensures response.products == order.products
  {
    var lines: seq<OrderProduct> := [];
    for i := 0 to |order.products|
      invariant lines == order.products[..i]
    {
      assert order.products[..i + 1] == order.products[..i] + [order.products[i]];
      lines := lines + [OrderProduct(order.products[i].code, order.products[i].price)];
    }
    assert order.products[..|order.products|] == order.products;
    response := OrderResponse(order.pk, order.sk.value, order.createdAt.value, order.billing, order.shipping, lines);
  }

  /** The orders table, keyed by e-mail and order id. */
  class OrderRepository {
    var items: map<TableKey, Order>

    constructor ()
      ensures items == map[]
    {
      items := map[];
    }

    /** Stores the order under a fresh id, stamped with the creation time, and returns it. */
    method CreateOrder(order: Order, freshId: string, now: int) returns (r: Order)
      modifies this
      ensures r == order.(sk := Some(freshId), createdAt := Some(now))
      ensures items == old(items)[TableKey(order.pk, freshId) := r]
    {
      r := order.(sk := Some(freshId), createdAt := Some(now));
      items := items[TableKey(order.pk, freshId) := r];
    }
  }

  /** An API Gateway request; the body, when there is one, already parsed. */
  datatype OrdersEvent = OrdersEvent(
    httpMethod: string,
    queryParameters: Option<map<string, string>>,
    body: Option<OrderRequest>)

  /** What the function answers; Failed when the invocation throws. */
  datatype Outcome = Respond(statusCode: int, order: Option<OrderResponse>) | Failed

  /**
   * The handler. A POST stores an order and answers 201 with it when the batch read found as
   * many products as were requested, and answers 404 storing nothing otherwise; a POST with
   * no body and a DELETE with no query string throw; every other request answers 400.
   */
  method Handler(orders: OrderRepository, products: ProductRepository, event: OrdersEvent,
                 freshId: string, now: int) returns (outcome: Outcome)
    requires products.Valid()
    modifies orders
    ensures event.httpMethod == "POST" && event.body.Some? ==>
      var request := event.body.value;
      var found := FoundInOrder(request.productIds, products.items);
      if |found| == |request.productIds| then
        var billing := Billing(request.paymentType, TotalPrice(found));
        outcome == Respond(201, Some(OrderResponse(request.email, freshId, now, billing, request.shipping, OrderLines(found)))) &&
        orders.items == old(orders.items)[TableKey(request.email, freshId) :=
          Order(request.email, Some(freshId), Some(now), request.shipping, billing, OrderLines(found))]
      else
        outcome == Respond(404, None) && orders.items == old(orders.items)
    ensures event.httpMethod == "POST" && event.body.None? ==> outcome == Failed && orders.items == old(orders.items)
    ensures event.httpMethod == "DELETE" && event.queryParameters.None? ==> outcome == Failed && orders.items == old(orders.items)
    ensures event.httpMethod != "POST" && (event.httpMethod != "DELETE" || event.queryParameters.Some?) ==>
      outcome == Respond(400, None) && orders.items == old(orders.items)
  {
    if event.httpMethod == "GET" {
      // The GET branches read the query string and answer nothing of their own.
    } else if event.httpMethod == "POST" {
      if event.body.None? {
        return Failed;
      }
      var request := event.body.value;
      var found := products.GetProductsByIds(request.productIds);
      if |found| == |request.productIds| {
        var order := BuildOrder(request, found);
        var created := orders.CreateOrder(order, freshId, now);
        var response := ConvertToOrderResponse(created);
        return Respond(201, Some(response));
      } else {
        return Respond(404, None);
      }
    } else if event.httpMethod == "DELETE" {
      if event.queryParameters.None? {
        return Failed;
      }
    }
    return Respond(400, None);
  }
}
