/** `POST /api/orders` and `PUT /api/orders/:id/status` of the backend's
    order routes. Placing an order validates the whole batch, checks every
    item against the stock on hand, and only then writes: the order row, and
    per item an order item, a stock decrement and a stock movement. The
    writes are separate statements with no transaction around them. */
module OrderPlacement {
  import opened Common
  import opened Seqs
  import opened Datastore

  /** One element of the request's `items`; a missing field is `None`. */
  datatype ItemRequest = ItemRequest(productId: Option<int>, quantity: Option<int>, price: Option<int>)

  /** The body of `POST /api/orders`; `items` is `None` when it is missing or
      not an array. */
  datatype OrderRequest = OrderRequest(
    customerName: Option<string>,
    customerEmail: Option<string>,
    customerPhone: Option<string>,
    items: Option<seq<ItemRequest>>)

  /** An item that passed validation. */
  datatype LineItem = LineItem(productId: int, quantity: int, price: int)

  /** The answers other than 201, with the status each is sent with. */
  datatype OrderError =
    | EmptyOrder                      // 400: no items
    | MissingItemField                // 400: product_id, quantity or price missing or zero
    | NonPositiveQuantity             // 400
    | NonPositivePrice                // 400
    | NotInInventory(productId: int)  // 404: the product has no inventory row
    | InsufficientStock(productId: int) // 400

  /** What 201 reports: the new order's id and number. */
  datatype PlacedOrder = PlacedOrder(id: int, orderNumber: string)

  /** The answers of the status route other than 200. */
  datatype StatusError = InvalidStatus | OrderNotFound

  // ---------------------------------------------------------------- validation

  /** The item has a non-zero product id and a positive quantity and price. */
  predicate WellFormed(item: ItemRequest)
  {
    && item.productId.Some? && item.productId.value != 0
    && item.quantity.Some? && item.quantity.value > 0
    && item.price.Some? && item.price.value > 0
  }

  /** The first of the three item checks that fails, in the order the
      validation loop makes them. */
  function ItemError(item: ItemRequest): (e: Option<OrderError>)
    ensures e.None? <==> WellFormed(item)
    ensures e == Some(MissingItemField) <==> Falsy(item.productId) || Falsy(item.quantity) || Falsy(item.price)
  {
    if Falsy(item.productId) || Falsy(item.quantity) || Falsy(item.price) then Some(MissingItemField)
    else if item.quantity.value <= 0 then Some(NonPositiveQuantity)
    else if item.price.value <= 0 then Some(NonPositivePrice)
    else None
  }

  /** The line a well-formed item becomes. */
  function Line(item: ItemRequest): LineItem
    requires WellFormed(item)
  {
    LineItem(item.productId.value, item.quantity.value, item.price.value)
  }

  /** The validation loop: the error of the first malformed item, or the lines
      of all items in their order. */
  function ValidateItems(items: seq<ItemRequest>): (r: Result<seq<LineItem>, OrderError>)
    ensures r.Success? <==> forall i :: 0 <= i < |items| ==> WellFormed(items[i])
    ensures r.Success? ==> |r.value| == |items| && forall i :: 0 <= i < |items| ==> r.value[i] == Line(items[i])
    ensures r.Failure? ==> exists k :: 0 <= k < |items| && ItemError(items[k]) == Some(r.error)
                             && forall j :: 0 <= j < k ==> WellFormed(items[j])
    decreases |items|
  {
    if items == [] then Success([])
    else
      match ItemError(items[0])
      case Some(e) => Failure(e)
      case None =>
        match ValidateItems(items[1..])
        case Failure(e) =>
          assert forall j :: 1 <= j < |items| ==> items[1..][j - 1] == items[j];
          Failure(e)
        case Success(rest) => Success([Line(items[0])] + rest)
  }

  // ---------------------------------------------------------------- stock check

  /** The product has an inventory row holding at least the quantity asked for. */
  predicate InStock(line: LineItem, inv: map<int, InventoryRow>)
  {
    line.productId in inv && inv[line.productId].quantity >= line.quantity
  }

  /** The answer for a line that is not in stock. */
  function Shortfall(line: LineItem, inv: map<int, InventoryRow>): OrderError
  {
    if line.productId in inv then InsufficientStock(line.productId) else NotInInventory(line.productId)
  }

  /** The stock-check loop: the answer for the first line not in stock, each
      line compared on its own with the stock before the order. */
  function StockError(lines: seq<LineItem>, inv: map<int, InventoryRow>): (e: Option<OrderError>)
    ensures e.None? <==> forall i :: 0 <= i < |lines| ==> InStock(lines[i], inv)
    ensures e.Some? ==> exists k :: 0 <= k < |lines| && !InStock(lines[k], inv) && e.value == Shortfall(lines[k], inv)
                          && forall j :: 0 <= j < k ==> InStock(lines[j], inv)
    decreases |lines|
  {
    if lines == [] then None
    else if !InStock(lines[0], inv) then Some(Shortfall(lines[0], inv))
    else
      var e := StockError(lines[1..], inv);
      assert forall j :: 1 <= j < |lines| ==> lines[1..][j - 1] == lines[j];
      e
  }

  /** Everything the handler decides before its first write: the lines to
      write, or the error it answers with. */
  function Admit(req: OrderRequest, inv: map<int, InventoryRow>): (r: Result<seq<LineItem>, OrderError>)
    ensures req.items.None? || req.items.value == [] ==> r == Failure(EmptyOrder)
    ensures r.Success? <==>
              && req.items.Some? && req.items.value != []
              && (forall i :: 0 <= i < |req.items.value| ==> WellFormed(req.items.value[i]))
              && (forall i :: 0 <= i < |req.items.value| ==> InStock(Line(req.items.value[i]), inv))
    ensures r.Success? ==> |r.value| == |req.items.value|
                           && forall i :: 0 <= i < |r.value| ==> r.value[i] == Line(req.items.value[i])
    ensures r.Failure? && (r.error.NotInInventory? || r.error.InsufficientStock?) ==>
              forall i :: 0 <= i < |req.items.value| ==> WellFormed(req.items.value[i])
  {
    if req.items.None? || req.items.value == [] then Failure(EmptyOrder)
    else
      match ValidateItems(req.items.value)
      case Failure(e) => Failure(e)
      case Success(lines) =>
        match StockError(lines, inv)
        case Some(e) => Failure(e)
        case None => Success(lines)
  }

  /** Reads the stock of every line, in order, and stops at the first line the
      stock cannot cover. Nothing is written. */
  method CheckStock(db: Database, lines: seq<LineItem>) returns (e: Option<OrderError>)
    ensures e == StockError(lines, db.inventory)
  {
    var i := 0;
    while i < |lines|
      invariant 0 <= i <= |lines|
      invariant StockError(lines[i..], db.inventory) == StockError(lines, db.inventory)
    {
      var row := db.SelectInventory(lines[i].productId);
      assert lines[i..][0] == lines[i] && lines[i..][1..] == lines[i + 1..];
      if row.None? {
        return Some(NotInInventory(lines[i].productId));
      }
      if row.value.quantity < lines[i].quantity {
        return Some(InsufficientStock(lines[i].productId));
      }
      i := i + 1;
    }
    e := None;
  }

  // ---------------------------------------------------------------- total

  /** What one line adds to the order total. */
  function Subtotal(line: LineItem): int
  {
    line.price * line.quantity
  }

  /** `total_amount`: the price times the quantity, summed over the lines. */
  function Total(lines: seq<LineItem>): int
  {
    Sum(lines, Subtotal)
  }

  /** The accumulator loop that computes the order total. */
  method ComputeTotal(lines: seq<LineItem>) returns (total: int)
    ensures total == Total(lines)
  {
    total := 0;
    var i := 0;
    while i < |lines|
      invariant 0 <= i <= |lines|
      invariant total == Sum(lines[..i], Subtotal)
    {
      assert lines[..i + 1][..i] == lines[..i];
      total := total + lines[i].price * lines[i].quantity;
      i := i + 1;
    }
    assert lines[..i] == lines;
  }

  /** An admitted order has a positive total. */
  lemma TotalOfAdmittedIsPositive(lines: seq<LineItem>)
    requires lines != []
    requires forall i :: 0 <= i < |lines| ==> lines[i].quantity > 0 && lines[i].price > 0
    ensures Total(lines) > 0
  {
    SumPositive(lines, Subtotal);
  }

  // ---------------------------------------------------------------- writes

  /** The `order_items` rows written for an order, one per line, in order. */
  function ItemRows(orderId: int, lines: seq<LineItem>): seq<OrderItemRow>
  {
    seq(|lines|, i requires 0 <= i < |lines| =>
      OrderItemRow(orderId, lines[i].productId, lines[i].quantity, lines[i].price, Subtotal(lines[i])))
  }

  /** The `stock_movements` rows written for an order, one per line, in order. */
  function MovementRows(orderId: int, lines: seq<LineItem>): seq<StockMovement>
  {
    seq(|lines|, i requires 0 <= i < |lines| =>
      StockMovement(lines[i].productId, Out, lines[i].quantity, "Order sale", "order", orderId))
  }

  /** The inventory after one line's decrement. */
  function Decrement(inv: map<int, InventoryRow>, line: LineItem): map<int, InventoryRow>
  {
    if line.productId in inv
    then inv[line.productId := inv[line.productId].(quantity := inv[line.productId].quantity - line.quantity)]
    else inv
  }

  /** The total quantity of product `p` over the lines. */
  function QuantityOrdered(lines: seq<LineItem>, p: int): (n: int)
    decreases |lines|
  {
    if lines == [] then 0
    else QuantityOrdered(lines[..|lines| - 1], p)
         + (if lines[|lines| - 1].productId == p then lines[|lines| - 1].quantity else 0)
  }

  /** The inventory after the decrements of all lines, in order: every product
      loses the quantity ordered of it, whatever it had, and nothing else changes. */
  function Decremented(inv: map<int, InventoryRow>, lines: seq<LineItem>): (r: map<int, InventoryRow>)
    ensures r.Keys == inv.Keys
    ensures forall p :: p in inv ==>
              r[p] == inv[p].(quantity := inv[p].quantity - QuantityOrdered(lines, p))
    decreases |lines|
  {
    if lines == [] then inv
    else Decrement(Decremented(inv, lines[..|lines| - 1]), lines[|lines| - 1])
  }

  /** With no product repeated, a product's ordered quantity is that of its one
      line, or 0 when no line names it. */
  lemma {:induction false} QuantityOrderedOfDistinct(lines: seq<LineItem>, p: int)
    requires forall i, j :: 0 <= i < j < |lines| ==> lines[i].productId != lines[j].productId
    ensures (forall i :: 0 <= i < |lines| ==> lines[i].productId != p) ==> QuantityOrdered(lines, p) == 0
    ensures forall k :: 0 <= k < |lines| && lines[k].productId == p ==> QuantityOrdered(lines, p) == lines[k].quantity
    decreases |lines|
  {
    if lines != [] {
      var init := lines[..|lines| - 1];
      QuantityOrderedOfDistinct(init, p);
      assert forall i :: 0 <= i < |init| ==> init[i] == lines[i];
    }
  }

  /** After an order whose products are distinct and each in stock, every
      ordered product has lost exactly its line's quantity and none is
      negative; every other product is as it was. */
  lemma StockAfterDistinctOrder(inv: map<int, InventoryRow>, lines: seq<LineItem>)
    requires forall i, j :: 0 <= i < j < |lines| ==> lines[i].productId != lines[j].productId
    requires forall i :: 0 <= i < |lines| ==> InStock(lines[i], inv)
    ensures forall k :: 0 <= k < |lines| ==>
              && lines[k].productId in inv
              && Decremented(inv, lines)[lines[k].productId].quantity == inv[lines[k].productId].quantity - lines[k].quantity >= 0
    ensures forall p :: p in inv && (forall i :: 0 <= i < |lines| ==> lines[i].productId != p) ==>
              Decremented(inv, lines)[p] == inv[p]
  {
    forall p | p in inv
      ensures (forall i :: 0 <= i < |lines| ==> lines[i].productId != p) ==> QuantityOrdered(lines, p) == 0
      ensures forall k :: 0 <= k < |lines| && lines[k].productId == p ==> QuantityOrdered(lines, p) == lines[k].quantity
    {
      QuantityOrderedOfDistinct(lines, p);
    }
  }

  /** The check compares each line with the stock before the order, so a
      product named twice can be sold beyond its stock: 5 on hand, two lines
      of 3 each pass, and 5 - 3 - 3 = -1 remain. */
  lemma RepeatedProductCanOversell()
    ensures var inv := map[1 := InventoryRow(5, 10, "Warehouse A")];
            var lines := [LineItem(1, 3, 100), LineItem(1, 3, 100)];
            StockError(lines, inv).None? && Decremented(inv, lines)[1].quantity == -1
  {
    var lines := [LineItem(1, 3, 100), LineItem(1, 3, 100)];
    assert lines[..1] == [LineItem(1, 3, 100)];
    assert lines[..1][..0] == [];
  }

  /** The write loop: for each line in order, its order item, its stock
      decrement and its `out` movement, all referring to order `id`. */
  method WriteLines(db: Database, id: int, lines: seq<LineItem>)
    requires db.Valid()
    modifies db
    ensures db.Valid()
    ensures db.orderItems == old(db.orderItems) + ItemRows(id, lines)
    ensures db.inventory == Decremented(old(db.inventory), lines)
    ensures db.movements == old(db.movements) + MovementRows(id, lines)
    ensures db.orders == old(db.orders) && db.products == old(db.products)
    ensures db.nextProductId == old(db.nextProductId) && db.nextOrderId == old(db.nextOrderId)
  {
    var i := 0;
    while i < |lines|
      invariant 0 <= i <= |lines|
      invariant db.Valid()
      invariant db.orderItems == old(db.orderItems) + ItemRows(id, lines[..i])
      invariant db.inventory == Decremented(old(db.inventory), lines[..i])
      invariant db.movements == old(db.movements) + MovementRows(id, lines[..i])
      invariant db.orders == old(db.orders) && db.products == old(db.products)
      invariant db.nextProductId == old(db.nextProductId) && db.nextOrderId == old(db.nextOrderId)
    {
      var line := lines[i];
      var item := OrderItemRow(id, line.productId, line.quantity, line.price, line.price * line.quantity);
      var movement := StockMovement(line.productId, Out, line.quantity, "Order sale", "order", id);
      assert lines[..i + 1][..i] == lines[..i];
      assert ItemRows(id, lines[..i + 1]) == ItemRows(id, lines[..i]) + [item];
      assert MovementRows(id, lines[..i + 1]) == MovementRows(id, lines[..i]) + [movement];
      db.InsertOrderItem(item);
      db.DecrementStock(line.productId, line.quantity);
      db.InsertMovement(movement);
      i := i + 1;
    }
    assert lines[..i] == lines;
  }

  /** Places an order. Fails with nothing written when the batch is malformed
      or some product lacks stock; otherwise appends one `Pending` order
      carrying the total, then for each line in order its order item, its
      decrement and its `out` movement referring to the new order. */
  method PlaceOrder(db: Database, req: OrderRequest, orderNumber: string) returns (r: Result<PlacedOrder, OrderError>)
    requires db.Valid()
    modifies db
    ensures db.Valid()
    ensures r.Success? <==> Admit(req, old(db.inventory)).Success?
    ensures r.Failure? ==> r.error == Admit(req, old(db.inventory)).error && unchanged(db)
    ensures r.Success? ==>
              var lines := Admit(req, old(db.inventory)).value;
              var id := r.value.id;
              && r.value == PlacedOrder(old(db.nextOrderId), orderNumber)
              && db.nextOrderId == old(db.nextOrderId) + 1 && db.nextProductId == old(db.nextProductId)
              && db.orders == old(db.orders) + [OrderRow(id, orderNumber, req.customerName, req.customerEmail,
                                                        req.customerPhone, Total(lines), Pending)]
              && db.orderItems == old(db.orderItems) + ItemRows(id, lines)
              && db.inventory == Decremented(old(db.inventory), lines)
              && db.movements == old(db.movements) + MovementRows(id, lines)
              && db.products == old(db.products)
  {
    if req.items.None? || req.items.value == [] {
      return Failure(EmptyOrder);
    }
    var shape := ValidateItems(req.items.value);
    if shape.Failure? {
      return Failure(shape.error);
    }
    var lines := shape.value;
    var shortfall := CheckStock(db, lines);
    if shortfall.Some? {
      return Failure(shortfall.value);
    }
    assert Admit(req, db.inventory) == Success(lines);
    var total := ComputeTotal(lines);
    var id := db.InsertOrder(orderNumber, req.customerName, req.customerEmail, req.customerPhone, total);
    WriteLines(db, id, lines);
    r := Success(PlacedOrder(id, orderNumber));
  }

  // ---------------------------------------------------------------- status

  /** The status names the route accepts, in its order. */
  const StatusNames: seq<string> := ["pending", "processing", "completed", "cancelled"]

  /** The name a status is stored and sent under. */
  function StatusName(s: OrderStatus): string
  {
    match s
    case Pending => "pending"
    case Processing => "processing"
    case Completed => "completed"
    case Cancelled => "cancelled"
  }

  /** The status a name stands for, if it is one of the four. */
  function ParseStatus(name: string): (r: Option<OrderStatus>)
    ensures r.Some? <==> name in StatusNames
    ensures r.Some? ==> StatusName(r.value) == name
  {
    if name == "pending" then Some(Pending)
    else if name == "processing" then Some(Processing)
    else if name == "completed" then Some(Completed)
    else if name == "cancelled" then Some(Cancelled)
    else None
  }

  /** Every status is recognised under its own name. */
  lemma ParseStatusName(s: OrderStatus)
    ensures ParseStatus(StatusName(s)) == Some(s)
  {
  }

  /** `PUT /api/orders/:id/status`: rejects a name outside the four with
      nothing read or written; otherwise overwrites the order's status,
      whatever it was, or answers not found. */
  method SetOrderStatus(db: Database, id: int, status: Option<string>) returns (r: Result<(), StatusError>)
    requires db.Valid()
    modifies db
    ensures db.Valid()
    ensures r == Failure(InvalidStatus) <==> status.None? || status.value !in StatusNames
    ensures r == Failure(InvalidStatus) ==> unchanged(db)
    ensures r == Failure(OrderNotFound) <==> status.Some? && status.value in StatusNames && !HasOrder(old(db.orders), id)
    ensures status.Some? && status.value in StatusNames ==>
              db.orders == WithStatus(old(db.orders), id, ParseStatus(status.value).value)
    ensures db.products == old(db.products) && db.inventory == old(db.inventory)
    ensures db.orderItems == old(db.orderItems) && db.movements == old(db.movements)
    ensures db.nextProductId == old(db.nextProductId) && db.nextOrderId == old(db.nextOrderId)
  {
    if status.None? || ParseStatus(status.value).None? {
      return Failure(InvalidStatus);
    }
    var affected := db.UpdateOrderStatus(id, ParseStatus(status.value).value);
    if affected == 0 {
      return Failure(OrderNotFound);
    }
    r := Success(());
  }
}
