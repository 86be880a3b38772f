/** The relational datastore behind the REST backend, as in-memory tables.
    Each `db.query` the route handlers issue is one method of `Database`,
    stated by its effect on the tables; SQL text and the driver are not
    modelled. Prices and amounts are integer cents. */
module Datastore {
  import opened Common

  /** A row of `products`. Every column but `id` can hold NULL (`None`):
      an update writes whatever the request carries. */
  datatype ProductRow = ProductRow(
    id: int,
    name: Option<string>,
    description: Option<string>,
    category: Option<string>,
    sku: Option<string>,
    price: Option<int>,
    cost: Option<int>)

  /** A row of `inventory`, keyed by its `product_id`. */
  datatype InventoryRow = InventoryRow(quantity: int, minStockLevel: int, location: string)

  /** The four values of `orders.status`. */
  datatype OrderStatus = Pending | Processing | Completed | Cancelled

  /** A row of `orders`; a new row starts `Pending`. */
  datatype OrderRow = OrderRow(
    id: int,
    orderNumber: string,
    customerName: Option<string>,
    customerEmail: Option<string>,
    customerPhone: Option<string>,
    totalAmount: int,
    status: OrderStatus)

  /** A row of `order_items`: the unit price is a copy taken when the order
      was placed. */
  datatype OrderItemRow = OrderItemRow(orderId: int, productId: int, quantity: int, price: int, subtotal: int)

  datatype MovementType = In | Out

  /** A row of `stock_movements`, the append-only audit log of stock changes. */
  datatype StockMovement = StockMovement(
    productId: int,
    movementType: MovementType,
    quantity: int,
    reason: string,
    referenceType: string,
    referenceId: int)

  /** The error a write reports when it would break the unique index on `products.sku`. */
  datatype DbError = DuplicateEntry

  /** The ids of `rows` are positive, below the next auto-increment value and
      strictly increasing, hence distinct. */
  ghost predicate ProductIdsBelow(rows: seq<ProductRow>, next: int)
  {
    && (forall i :: 0 <= i < |rows| ==> 1 <= rows[i].id < next)
    && (forall i, j :: 0 <= i < j < |rows| ==> rows[i].id < rows[j].id)
  }

  /** Same for the ids of `orders`. */
  ghost predicate OrderIdsBelow(rows: seq<OrderRow>, next: int)
  {
    && (forall i :: 0 <= i < |rows| ==> 1 <= rows[i].id < next)
    && (forall i, j :: 0 <= i < j < |rows| ==> rows[i].id < rows[j].id)
  }

  /** No two products share a (non-NULL) SKU: the unique index on `products.sku`. */
  ghost predicate SkusUnique(rows: seq<ProductRow>)
  {
    forall i, j :: 0 <= i < j < |rows| && rows[i].sku.Some? ==> rows[i].sku != rows[j].sku
  }

  /** Some product other than `id` already holds `sku`. */
  predicate SkuTaken(rows: seq<ProductRow>, sku: Option<string>, id: int)
  {
    sku.Some? && exists i :: 0 <= i < |rows| && rows[i].id != id && rows[i].sku == sku
  }

  /** A product with this id exists. */
  predicate HasProduct(rows: seq<ProductRow>, id: int)
  {
    exists i :: 0 <= i < |rows| && rows[i].id == id
  }

  /** An order with this id exists. */
  predicate HasOrder(rows: seq<OrderRow>, id: int)
  {
    exists i :: 0 <= i < |rows| && rows[i].id == id
  }

  /** `rows` with the order `id` given `status`: `UPDATE orders SET status = ? WHERE id = ?`. */
  function WithStatus(rows: seq<OrderRow>, id: int, status: OrderStatus): (r: seq<OrderRow>)
    ensures |r| == |rows|
    ensures forall i :: 0 <= i < |rows| ==>
              r[i] == if rows[i].id == id then rows[i].(status := status) else rows[i]
  {
    seq(|rows|, i requires 0 <= i < |rows| => if rows[i].id == id then rows[i].(status := status) else rows[i])
  }

  /** `rows` with the product `id` replaced by `row`: `UPDATE products SET ... WHERE id = ?`. */
  function WithProduct(rows: seq<ProductRow>, id: int, row: ProductRow): (r: seq<ProductRow>)
    ensures |r| == |rows|
    ensures forall i :: 0 <= i < |rows| ==> r[i] == if rows[i].id == id then row else rows[i]
  {
    seq(|rows|, i requires 0 <= i < |rows| => if rows[i].id == id then row else rows[i])
  }

  class Database {
    var products: seq<ProductRow>
    var inventory: map<int, InventoryRow>
    var orders: seq<OrderRow>
    var orderItems: seq<OrderItemRow>
    var movements: seq<StockMovement>
    /** The next values of the auto-increment ids of `products` and `orders`. */
    var nextProductId: int
    var nextOrderId: int

    /** The constraints the schema and the auto-increment counters keep. */
    ghost predicate Valid()
      reads this
    {
      && 1 <= nextProductId && 1 <= nextOrderId
      && ProductIdsBelow(products, nextProductId)
      && OrderIdsBelow(orders, nextOrderId)
      && SkusUnique(products)
      && (forall pid :: pid in inventory ==> 1 <= pid < nextProductId)
    }

    /** An empty database. */
    constructor ()
      ensures Valid()
      ensures products == [] && inventory == map[] && orders == []
      ensures orderItems == [] && movements == []
    {
      products, inventory, orders, orderItems, movements := [], map[], [], [], [];
      nextProductId, nextOrderId := 1, 1;
    }

    /** `SELECT quantity FROM inventory WHERE product_id = ?`. */
    method SelectInventory(productId: int) returns (r: Option<InventoryRow>)
      ensures r.Some? <==> productId in inventory
      ensures r.Some? ==> r.value == inventory[productId]
    {
      if productId in inventory {
        r := Some(inventory[productId]);
      } else {
        r := None;
      }
    }

    /** `INSERT INTO orders (...)`: appends a `Pending` order under a fresh id. */
    method InsertOrder(orderNumber: string, customerName: Option<string>, customerEmail: Option<string>,
                       customerPhone: Option<string>, totalAmount: int) returns (id: int)
      requires Valid()
      modifies this
      ensures Valid()
      ensures id == old(nextOrderId) && nextOrderId == id + 1 && !HasOrder(old(orders), id)
      ensures orders == old(orders) + [OrderRow(id, orderNumber, customerName, customerEmail, customerPhone, totalAmount, Pending)]
      ensures products == old(products) && inventory == old(inventory)
      ensures orderItems == old(orderItems) && movements == old(movements)
      ensures nextProductId == old(nextProductId)
    {
      id := nextOrderId;
      orders := orders + [OrderRow(id, orderNumber, customerName, customerEmail, customerPhone, totalAmount, Pending)];
      nextOrderId := nextOrderId + 1;
    }

    /** `INSERT INTO order_items (...)`. */
    method InsertOrderItem(row: OrderItemRow)
      requires Valid()
      modifies this
      ensures Valid()
      ensures orderItems == old(orderItems) + [row]
      ensures products == old(products) && inventory == old(inventory) && orders == old(orders)
      ensures movements == old(movements)
      ensures nextProductId == old(nextProductId) && nextOrderId == old(nextOrderId)
    {
      orderItems := orderItems + [row];
    }

    /** `UPDATE inventory SET quantity = quantity - ? WHERE product_id = ?`: no
        lower bound is enforced, and a product without a row is left alone. */
    method DecrementStock(productId: int, quantity: int)
      requires Valid()
      modifies this
      ensures Valid()
      ensures inventory == if productId in old(inventory)
                           then old(inventory)[productId := old(inventory)[productId].(quantity := old(inventory)[productId].quantity - quantity)]
                           else old(inventory)
      ensures products == old(products) && orders == old(orders)
      ensures orderItems == old(orderItems) && movements == old(movements)
      ensures nextProductId == old(nextProductId) && nextOrderId == old(nextOrderId)
    {
      if productId in inventory {
        var row := inventory[productId];
        inventory := inventory[productId := row.(quantity := row.quantity - quantity)];
      }
    }

    /** `INSERT INTO stock_movements (...)`. */
    method InsertMovement(m: StockMovement)
      requires Valid()
      modifies this
      ensures Valid()
      ensures movements == old(movements) + [m]
      ensures products == old(products) && inventory == old(inventory) && orders == old(orders)
      ensures orderItems == old(orderItems)
      ensures nextProductId == old(nextProductId) && nextOrderId == old(nextOrderId)
    {
      movements := movements + [m];
    }

    /** `UPDATE orders SET status = ? WHERE id = ?`, answering the number of
        affected rows. */
    method UpdateOrderStatus(id: int, status: OrderStatus) returns (affected: nat)
      requires Valid()
      modifies this
      ensures Valid()
      ensures affected == 0 <==> !HasOrder(old(orders), id)
      ensures orders == WithStatus(old(orders), id, status)
      ensures products == old(products) && inventory == old(inventory)
      ensures orderItems == old(orderItems) && movements == old(movements)
      ensures nextProductId == old(nextProductId) && nextOrderId == old(nextOrderId)
    {
      affected := if HasOrder(orders, id) then 1 else 0;
      orders := WithStatus(orders, id, status);
    }

    /** `INSERT INTO products (...)`: appends the product under a fresh id, or
        fails with a duplicate entry when its SKU is taken. */
    method InsertProduct(name: Option<string>, description: Option<string>, category: Option<string>,
                         sku: Option<string>, price: Option<int>, cost: Option<int>)
      returns (r: Result<int, DbError>)
      requires Valid()
      modifies this
      ensures Valid()
      ensures r.Failure? <==> SkuTaken(old(products), sku, old(nextProductId))
      ensures r.Failure? ==> unchanged(this)
      ensures r.Success? ==>
                && r.value == old(nextProductId)
                && !HasProduct(old(products), r.value) && r.value !in old(inventory)
                && products == old(products) + [ProductRow(r.value, name, description, category, sku, price, cost)]
                && nextProductId == r.value + 1
      ensures inventory == old(inventory) && orders == old(orders)
      ensures orderItems == old(orderItems) && movements == old(movements)
      ensures nextOrderId == old(nextOrderId)
    {
      var id := nextProductId;
      if SkuTaken(products, sku, id) {
        return Failure(DuplicateEntry);
      }
      products := products + [ProductRow(id, name, description, category, sku, price, cost)];
      nextProductId := nextProductId + 1;
      r := Success(id);
    }

    /** `INSERT INTO inventory (...)`. */
    method InsertInventory(productId: int, row: InventoryRow)
      requires Valid()
      requires 1 <= productId < nextProductId
      modifies this
      ensures Valid()
      ensures inventory == old(inventory)[productId := row]
      ensures products == old(products) && orders == old(orders)
      ensures orderItems == old(orderItems) && movements == old(movements)
      ensures nextProductId == old(nextProductId) && nextOrderId == old(nextOrderId)
    {
      inventory := inventory[productId := row];
    }

    /** `UPDATE products SET name = ?, ..., cost = ? WHERE id = ?`: every column
        is overwritten; the number of matched rows is returned, or a duplicate
        entry when the new SKU belongs to another product. */
    method UpdateProduct(id: int, name: Option<string>, description: Option<string>, category: Option<string>,
                         sku: Option<string>, price: Option<int>, cost: Option<int>)
      returns (r: Result<nat, DbError>)
      requires Valid()
      modifies this
      ensures Valid()
      ensures r.Failure? <==> HasProduct(old(products), id) && SkuTaken(old(products), sku, id)
      ensures r.Success? ==> (r.value == 0 <==> !HasProduct(old(products), id))
      ensures r.Failure? || r.value == 0 ==> unchanged(this)
      ensures products == if r.Success? && r.value > 0
                          then WithProduct(old(products), id, ProductRow(id, name, description, category, sku, price, cost))
                          else old(products)
      ensures inventory == old(inventory) && orders == old(orders)
      ensures orderItems == old(orderItems) && movements == old(movements)
      ensures nextProductId == old(nextProductId) && nextOrderId == old(nextOrderId)
    {
      if !HasProduct(products, id) {
        return Success(0);
      }
      if SkuTaken(products, sku, id) {
        return Failure(DuplicateEntry);
      }
      var updated := WithProduct(products, id, ProductRow(id, name, description, category, sku, price, cost));
      assert forall i :: 0 <= i < |products| ==> updated[i].id == products[i].id;
      products := updated;
      r := Success(1);
    }

    /** `UPDATE inventory SET quantity = ?, min_stock_level = ?, location = ?
        WHERE product_id = ?`: no effect when the product has no row. */
    method UpdateInventory(productId: int, row: InventoryRow)
      requires Valid()
      modifies this
      ensures Valid()
      ensures inventory == if productId in old(inventory) then old(inventory)[productId := row] else old(inventory)
      ensures products == old(products) && orders == old(orders)
      ensures orderItems == old(orderItems) && movements == old(movements)
      ensures nextProductId == old(nextProductId) && nextOrderId == old(nextOrderId)
    {
      if productId in inventory {
        inventory := inventory[productId := row];
      }
    }

    /** `DELETE FROM products WHERE id = ?`, answering the number of deleted rows. */
    method DeleteProduct(id: int) returns (affected: nat)
      requires Valid()
      modifies this
      ensures Valid()
      ensures affected == 0 <==> !HasProduct(old(products), id)
      ensures affected == 0 ==> unchanged(this)
      ensures affected != 0 ==> exists k :: 0 <= k < |old(products)| && old(products)[k].id == id
                                  && products == old(products)[..k] + old(products)[k + 1..]
      ensures inventory == old(inventory) && orders == old(orders)
      ensures orderItems == old(orderItems) && movements == old(movements)
      ensures nextProductId == old(nextProductId) && nextOrderId == old(nextOrderId)
    {
      if HasProduct(products, id) {
        var k :| 0 <= k < |products| && products[k].id == id;
        products := products[..k] + products[k + 1..];
        affected := 1;
      } else {
        affected := 0;
      }
    }
  }
}
