/** The sales service's order endpoints: order creation (each line checked against the stock
    service, then priced and totalled), order editing (changes per product, only the increases
    checked, lines rebuilt one per product, a change message only when something changed), and
    the sales statistics. Orders are saved before the message is published, so a failed publish
    is reported as a partial success and never rolls the order back. */
module SalesApi {
  import opened Common
  import opened Orders
  import opened StockMessages
  import opened DeltaCalculator

  // ---------------------------------------------------------------------------
  // The stock service as the sales service sees it
  // ---------------------------------------------------------------------------

  /** The body of GET /api/produtos/{id}; `price` is in cents. */
  datatype ProductDto = ProductDto(id: int, name: string, price: int, quantityInStock: int)

  /** The answers of GET /api/produtos/{id} during one request: a product id that is absent
      got a non-success status. */
  type StockSnapshot = map<int, ProductDto>

  /** Why a request was refused with 400 Bad Request. */
  datatype Rejection =
    | RouteIdMismatch                   // the route id differs from the body's id
    | ProductLookupFailed(productId: int) // the stock service did not answer with success
    | InsufficientStock(productId: int)   // the stock service reports less than asked

  /** Checking `amount` units of `productId` against the stock service. */
  function CheckStock(snapshot: StockSnapshot, productId: int, amount: int): (r: Option<Rejection>)
    ensures r.None? <==> productId in snapshot && snapshot[productId].quantityInStock >= amount
    ensures productId !in snapshot ==> r == Some(ProductLookupFailed(productId))
    ensures productId in snapshot && snapshot[productId].quantityInStock < amount ==> r == Some(InsufficientStock(productId))
  {
    if productId !in snapshot then Some(ProductLookupFailed(productId))
    else if snapshot[productId].quantityInStock < amount then Some(InsufficientStock(productId))
    else None
  }

  // ---------------------------------------------------------------------------
  // Creation: per-line validation, pricing and total
  // ---------------------------------------------------------------------------

  /** The refusal of the first line that fails its own check, if any. */
  function FirstLineRejection(items: seq<OrderItem>, snapshot: StockSnapshot): (r: Option<Rejection>)
    ensures r.None? <==> forall k :: 0 <= k < |items| ==>
              items[k].productId in snapshot && snapshot[items[k].productId].quantityInStock >= items[k].quantity
    ensures r.Some? ==>
              exists k ::
                && 0 <= k < |items|
                && r == CheckStock(snapshot, items[k].productId, items[k].quantity)
                && forall j :: 0 <= j < k ==> CheckStock(snapshot, items[j].productId, items[j].quantity).None?
    decreases |items|
  {
    if |items| == 0 then None
    else
      var check := CheckStock(snapshot, items[0].productId, items[0].quantity);
      if check.Some? then check
      else
        var rest := FirstLineRejection(items[1..], snapshot);
        assert forall k :: 1 <= k < |items| ==> items[1..][k - 1] == items[k];
        rest
  }

  /** The lines with the unit price the stock service reports. */
  function PricedItems(items: seq<OrderItem>, snapshot: StockSnapshot): (r: seq<OrderItem>)
    requires forall k :: 0 <= k < |items| ==> items[k].productId in snapshot
    ensures |r| == |items|
    ensures forall k :: 0 <= k < |items| ==>
              r[k].productId == items[k].productId && r[k].quantity == items[k].quantity
    ensures forall k :: 0 <= k < |r| ==> r[k].unitPrice == snapshot[r[k].productId].price
  {
    seq(|items|, k requires 0 <= k < |items| => items[k].(unitPrice := snapshot[items[k].productId].price))
  }

  /** The order value: unit price times quantity, summed over the lines. */
  function OrderTotal(items: seq<OrderItem>): (total: int)
    ensures (forall k :: 0 <= k < |items| ==> items[k].unitPrice >= 0 && items[k].quantity >= 0) ==> total >= 0
    decreases |items|
  {
    if |items| == 0 then 0
    else
      var last := items[|items| - 1];
      OrderTotal(items[..|items| - 1]) + last.unitPrice * last.quantity
  }

  /** The total of two groups of lines is the sum of their totals. */
  lemma {:induction false} OrderTotalAppend(a: seq<OrderItem>, b: seq<OrderItem>)
    ensures OrderTotal(a + b) == OrderTotal(a) + OrderTotal(b)
    decreases |b|
  {
    if |b| > 0 {
      var n := |b| - 1;
      assert (a + b)[..|a + b| - 1] == a + b[..n];
      OrderTotalAppend(a, b[..n]);
    } else {
      assert a + b == a;
    }
  }

  /** The creation loop: stop at the first line whose product is unknown or short of stock;
      otherwise price every line from the stock service and total the order. */
  method ValidateAndPrice(items: seq<OrderItem>, snapshot: StockSnapshot)
    returns (rejection: Option<Rejection>, priced: seq<OrderItem>, total: int)
    ensures rejection == FirstLineRejection(items, snapshot)
    ensures rejection.None? ==> priced == PricedItems(items, snapshot) && total == OrderTotal(priced)
  {
    priced := [];
    total := 0;
    var i := 0;
    while i < |items|
      invariant 0 <= i <= |items|
      invariant FirstLineRejection(items, snapshot) == FirstLineRejection(items[i..], snapshot)
      invariant forall k :: 0 <= k < i ==> items[k].productId in snapshot
      invariant priced == PricedItems(items[..i], snapshot)
      invariant total == OrderTotal(priced)
    {
      var item := items[i];
      assert items[i..][1..] == items[i + 1..];
      if item.productId !in snapshot {
        return Some(ProductLookupFailed(item.productId)), priced, total;
      }
      var product := snapshot[item.productId];
      if product.quantityInStock < item.quantity {
        return Some(InsufficientStock(item.productId)), priced, total;
      }
      var line := item.(unitPrice := product.price);
      assert (priced + [line])[..|priced|] == priced;
      priced := priced + [line];
      total := total + line.unitPrice * line.quantity;
      i := i + 1;
    }
    assert items[..i] == items;
    rejection := None;
  }

  /** The creation message's lines: every order line as it is, duplicates included. */
  function CreationItemsOf(items: seq<OrderItem>): (r: seq<CreationItem>)
    ensures |r| == |items|
    ensures forall k :: 0 <= k < |items| ==>
              r[k] == CreationItem(items[k].productId, items[k].quantity)
  {
    seq(|items|, k requires 0 <= k < |items| => CreationItem(items[k].productId, items[k].quantity))
  }

  // ---------------------------------------------------------------------------
  // Editing: validation of the increases only, and the one-line-per-product rebuild
  // ---------------------------------------------------------------------------

  /** The refusal for the first positive change that the stock service cannot cover, if any;
      zero and negative changes are never checked. */
  function FirstDeltaRejection(deltas: seq<DeltaItem>, snapshot: StockSnapshot): (r: Option<Rejection>)
    ensures r.None? <==> forall k :: 0 <= k < |deltas| && deltas[k].quantityDelta > 0 ==>
              deltas[k].productId in snapshot
              && snapshot[deltas[k].productId].quantityInStock >= deltas[k].quantityDelta
    ensures r.Some? ==>
              exists k ::
                && 0 <= k < |deltas|
                && deltas[k].quantityDelta > 0
                && r == CheckStock(snapshot, deltas[k].productId, deltas[k].quantityDelta)
                && forall j :: 0 <= j < k && deltas[j].quantityDelta > 0 ==>
                     CheckStock(snapshot, deltas[j].productId, deltas[j].quantityDelta).None?
    decreases |deltas|
  {
    if |deltas| == 0 then None
    else
      var check := CheckStock(snapshot, deltas[0].productId, deltas[0].quantityDelta);
      if deltas[0].quantityDelta > 0 && check.Some? then check
      else
        var rest := FirstDeltaRejection(deltas[1..], snapshot);
        assert forall k :: 1 <= k < |deltas| ==> deltas[1..][k - 1] == deltas[k];
        rest
  }

  /** The edit's validation loop over the positive changes, stopping at the first refusal. */
  method ValidatePositiveDeltas(deltas: seq<DeltaItem>, snapshot: StockSnapshot)
    returns (rejection: Option<Rejection>)
    ensures rejection == FirstDeltaRejection(deltas, snapshot)
  {
    var i := 0;
    while i < |deltas|
      invariant 0 <= i <= |deltas|
      invariant FirstDeltaRejection(deltas, snapshot) == FirstDeltaRejection(deltas[i..], snapshot)
    {
      var delta := deltas[i];
      assert deltas[i..][1..] == deltas[i + 1..];
      if delta.quantityDelta > 0 {
        if delta.productId !in snapshot {
          return Some(ProductLookupFailed(delta.productId));
        }
        if snapshot[delta.productId].quantityInStock < delta.quantityDelta {
          return Some(InsufficientStock(delta.productId));
        }
      }
      i := i + 1;
    }
    rejection := None;
  }

  /** The rebuild loop: one line per entry of the grouping dictionary, in its order, with the
      summed quantity and the unit price of the request's first line for that product. */
  method RebuildItems(requested: seq<OrderItem>) returns (lines: seq<OrderItem>)
    ensures lines == Consolidated(requested)
  {
    var updatedMap := GroupByProduct(requested);
    var keys := KeyOrder(requested);
    ghost var target := Consolidated(requested);
    lines := [];
    var i := 0;
    while i < |keys|
      invariant 0 <= i <= |keys|
      invariant lines == target[..i]
    {
      var p := keys[i];
      assert QuantityOf(updatedMap, p) == SumQuantity(requested, p);
      lines := lines + [OrderItem(p, updatedMap[p], FirstPrice(requested, p))];
      assert target[..i + 1] == target[..i] + [target[i]];
      i := i + 1;
    }
  }

  // ---------------------------------------------------------------------------
  // Outcomes, stores and the controller
  // ---------------------------------------------------------------------------

  /** Outcome of order creation. */
  datatype CreateOutcome =
    | Created(order: Order)              // 201: saved and the creation message published
    | CreatedWithWarning(order: Order)   // 207: saved, but publishing failed
    | CreateRejected(rejection: Rejection) // 400: nothing saved, nothing published

  /** Outcome of an order edit. */
  datatype EditOutcome =
    | Edited                             // 204: saved, and the change message published if any
    | EditedWithWarning(order: Order)    // 207: saved, but publishing the change message failed
    | EditRejected(rejection: Rejection) // 400: nothing saved, nothing published
    | OrderNotFound                      // 404

  /** A message handed to the broker, with its queue. */
  datatype Published = Published(queue: string, message: StockMessage)

  /** The order table; the database assigns increasing ids. */
  class OrderStore {
    var orders: map<int, Order>
    var nextId: int

    ghost predicate Valid()
      reads this
    {
      forall k :: k in orders ==> orders[k].id == k && k < nextId
    }

    constructor ()
      ensures Valid() && orders == map[]
    {
      orders := map[];
      nextId := 1;
    }

    /** Insert a new row under a fresh id. */
    method Add(order: Order) returns (id: int)
      requires Valid()
      modifies this
      ensures Valid()
      ensures id !in old(orders)
      ensures orders == old(orders)[id := order.(id := id)]
    {
      id := nextId;
      orders := orders[id := order.(id := id)];
      nextId := nextId + 1;
    }

    /** Overwrite an existing row. */
    method Update(order: Order)
      requires Valid() && order.id in orders
      modifies this
      ensures Valid()
      ensures orders == old(orders)[order.id := order]
    {
      orders := orders[order.id := order];
    }
  }

  /** The message producer, reduced to what the broker has accepted. `brokerAccepts` stands
      for the outcome of connecting, declaring the queue and publishing. */
  class MessageProducer {
    var outbox: seq<Published>

    constructor ()
      ensures outbox == []
    {
      outbox := [];
    }

    method PublishMessage(message: StockMessage, queue: string, brokerAccepts: bool) returns (ok: bool)
      modifies this
      ensures ok == brokerAccepts
      ensures outbox == if ok then old(outbox) + [Published(queue, message)] else old(outbox)
    {
      ok := brokerAccepts;
      if ok {
        outbox := outbox + [Published(queue, message)];
      }
    }
  }

  /** Body of the sales statistics endpoint. */
  datatype SalesStatistics = SalesStatistics(totalSales: int, totalValue: int)

  /** The order-value column of the order table. */
  ghost function TotalColumn(orders: map<int, Order>): (column: map<int, int>)
    ensures column.Keys == orders.Keys
    ensures forall k :: k in column ==> column[k] == orders[k].total
  {
    map k | k in orders :: orders[k].total
  }

  /** GET /api/pedidos/estatisticas: the number of orders and the sum of their values. */
  ghost function GetSalesStatistics(orders: map<int, Order>): (r: SalesStatistics)
    ensures r.totalSales == |orders|
    ensures (forall id :: id in orders ==> orders[id].total >= 0) ==> r.totalValue >= 0
  {
    var column := TotalColumn(orders);
    assert (forall id :: id in orders ==> orders[id].total >= 0) ==> forall id :: id in column ==> column[id] >= 0;
    SumValuesNonNegative(column);
    SalesStatistics(|orders|, SumValues(column))
  }

  /** Saving a new order adds one sale and exactly its value. */
  lemma StatisticsAfterNewOrder(orders: map<int, Order>, id: int, order: Order)
    requires id !in orders
    ensures GetSalesStatistics(orders[id := order]).totalSales == GetSalesStatistics(orders).totalSales + 1
    ensures GetSalesStatistics(orders[id := order]).totalValue == GetSalesStatistics(orders).totalValue + order.total
  {
    assert TotalColumn(orders[id := order]) == TotalColumn(orders)[id := order.total];
    SumValuesUpdate(TotalColumn(orders), id, order.total);
  }

  /** Two saved orders worth 100 and 50 give two sales worth 150. */
  lemma StatisticsOfTwoOrders(a: Order, b: Order)
    requires a.id == 1 && a.total == 100 && b.id == 2 && b.total == 50
    ensures GetSalesStatistics(map[1 := a, 2 := b]) == SalesStatistics(2, 150)
  {
    var column := TotalColumn(map[1 := a, 2 := b]);
    assert column == map[1 := 100, 2 := 50];
    SumValuesRemove(column, 1);
    assert column - {1} == map[2 := 50];
    SumValuesRemove(column - {1}, 2);
    assert column - {1} - {2} == map[];
  }

  class SalesController {
    const db: OrderStore
    const producer: MessageProducer

    ghost predicate Valid()
      reads this, db
    {
      db.Valid()
    }

    constructor (db: OrderStore, producer: MessageProducer)
      requires db.Valid()
      ensures Valid() && this.db == db && this.producer == producer
    {
      this.db := db;
      this.producer := producer;
    }

    /** POST /api/pedidos. */
    method CriarPedido(request: Order, snapshot: StockSnapshot, brokerAccepts: bool)
      returns (outcome: CreateOutcome)
      requires Valid()
      modifies db, producer
      ensures Valid()
      ensures FirstLineRejection(request.items, snapshot).Some? ==>
                && outcome == CreateRejected(FirstLineRejection(request.items, snapshot).value)
                && db.orders == old(db.orders)
                && producer.outbox == old(producer.outbox)
      ensures FirstLineRejection(request.items, snapshot).None? ==>
                var priced := PricedItems(request.items, snapshot);
                && !outcome.CreateRejected?
                && outcome.order.id !in old(db.orders)
                && outcome.order == request.(id := outcome.order.id, total := OrderTotal(priced), items := priced)
                && db.orders == old(db.orders)[outcome.order.id := outcome.order]
                && (outcome.Created? <==> brokerAccepts)
                && producer.outbox == old(producer.outbox)
                     + (if brokerAccepts
                        then [Published(CreationQueue, Creation(CreationMessage(outcome.order.id, CreationItemsOf(request.items))))]
                        else [])
    {
      var rejection, priced, total := ValidateAndPrice(request.items, snapshot);
      if rejection.Some? {
        return CreateRejected(rejection.value);
      }
      var id := db.Add(request.(total := total, items := priced));
      var order := db.orders[id];
      assert CreationItemsOf(priced) == CreationItemsOf(request.items);
      var published := producer.PublishMessage(
        Creation(CreationMessage(id, CreationItemsOf(priced))), CreationQueue, brokerAccepts);
      if !published {
        return CreatedWithWarning(order);
      }
      outcome := Created(order);
    }

    /** PUT /api/pedidos/{id}. */
    method AtualizarPedido(id: int, request: Order, snapshot: StockSnapshot, brokerAccepts: bool)
      returns (outcome: EditOutcome)
      requires Valid()
      modifies db, producer
      ensures Valid()
      ensures id != request.id ==>
                outcome == EditRejected(RouteIdMismatch)
                && db.orders == old(db.orders) && producer.outbox == old(producer.outbox)
      ensures id == request.id && id !in old(db.orders) ==>
                outcome == OrderNotFound
                && db.orders == old(db.orders) && producer.outbox == old(producer.outbox)
      ensures id == request.id && id in old(db.orders) ==>
                var stored := old(db.orders)[id];
                var deltas := EditDeltas(stored.items, request.items);
                var rejection := FirstDeltaRejection(deltas, snapshot);
                var edited := stored.(total := request.total, items := Consolidated(request.items));
                && (rejection.Some? ==>
                      outcome == EditRejected(rejection.value)
                      && db.orders == old(db.orders) && producer.outbox == old(producer.outbox))
                && (rejection.None? ==>
                      && db.orders == old(db.orders)[id := edited]
                      && (deltas == [] ==> outcome == Edited && producer.outbox == old(producer.outbox))
                      && (deltas != [] && brokerAccepts ==>
                            outcome == Edited
                            && producer.outbox == old(producer.outbox)
                                 + [Published(AdjustmentQueue, Adjustment(AdjustmentMessage(id, deltas)))])
                      && (deltas != [] && !brokerAccepts ==>
                            outcome == EditedWithWarning(edited) && producer.outbox == old(producer.outbox)))
    {
      if id != request.id {
        return EditRejected(RouteIdMismatch);
      }
      if id !in db.orders {
        return OrderNotFound;
      }
      var stored := db.orders[id];
      var originalMap := GroupByProduct(stored.items);
      var updatedMap := GroupByProduct(request.items);
      var allIds := UnionIds(stored.items, request.items);
      var deltas := ComputeDeltas(originalMap, updatedMap, allIds);
      var rejection := ValidatePositiveDeltas(deltas, snapshot);
      if rejection.Some? {
        return EditRejected(rejection.value);
      }
      var lines := RebuildItems(request.items);
      var edited := stored.(total := request.total, items := lines);
      db.Update(edited);
      if |deltas| > 0 {
        var published := producer.PublishMessage(
          Adjustment(AdjustmentMessage(id, deltas)), AdjustmentQueue, brokerAccepts);
        if !published {
          return EditedWithWarning(edited);
        }
      }
      outcome := Edited;
    }
  }
}
