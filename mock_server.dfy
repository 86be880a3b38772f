/** The database-free server: products and orders kept in two in-memory arrays
    that the handlers change in place with `push`, index assignment and
    `splice`. New ids are the array length plus one, so after a delete a new
    entry can receive an id that an existing entry still holds. */
module MockServer {
  import opened Common
  import opened Seqs

  datatype MockProduct = MockProduct(
    id: int,
    name: string,
    description: string,
    category: string,
    sku: string,
    price: int,
    cost: int,
    quantity: int,
    minStockLevel: int,
    location: string)

  /** A JSON body for `PUT /api/products/:id`: the properties it carries. */
  datatype ProductPatch = ProductPatch(
    id: Option<int>,
    name: Option<string>,
    description: Option<string>,
    category: Option<string>,
    sku: Option<string>,
    price: Option<int>,
    cost: Option<int>,
    quantity: Option<int>,
    minStockLevel: Option<int>,
    location: Option<string>)

  /** One element of an order's `items`, stored as sent. */
  datatype MockItem = MockItem(productId: int, quantity: int, price: int)

  datatype MockOrder = MockOrder(
    id: int,
    orderNumber: string,
    customerName: string,
    customerEmail: string,
    customerPhone: string,
    totalAmount: int,
    status: string,
    items: seq<MockItem>)

  /** The counts `GET /api/dashboard` reports (the clock-dependent
      `ordersToday` is not modelled). */
  datatype DashboardCounts = DashboardCounts(totalProducts: nat, lowStockItems: nat, totalOrders: nat)

  /** The five products the server starts with (prices in cents). */
  const SeedProducts: seq<MockProduct> := [
    MockProduct(1, "Laptop Pro 15\"", "High-performance laptop with 16GB RAM", "Electronics", "LP-001", 129999, 89999, 25, 5, "Warehouse A"),
    MockProduct(2, "Wireless Mouse", "Ergonomic wireless mouse with Bluetooth", "Electronics", "WM-001", 2999, 1599, 150, 20, "Warehouse A"),
    MockProduct(3, "Office Chair", "Comfortable ergonomic office chair", "Furniture", "OC-001", 24999, 14999, 30, 10, "Warehouse B"),
    MockProduct(4, "Standing Desk", "Adjustable height standing desk", "Furniture", "SD-001", 59999, 39999, 12, 5, "Warehouse B"),
    MockProduct(5, "Monitor 27\"", "4K Ultra HD 27-inch monitor", "Electronics", "MN-001", 39999, 24999, 45, 10, "Warehouse A")
  ]

  /** `{ ...p, ...patch }`: every property the patch carries replaces p's. */
  function Overlay(p: MockProduct, patch: ProductPatch): MockProduct
  {
    MockProduct(
      if patch.id.Some? then patch.id.value else p.id,
      if patch.name.Some? then patch.name.value else p.name,
      if patch.description.Some? then patch.description.value else p.description,
      if patch.category.Some? then patch.category.value else p.category,
      if patch.sku.Some? then patch.sku.value else p.sku,
      if patch.price.Some? then patch.price.value else p.price,
      if patch.cost.Some? then patch.cost.value else p.cost,
      if patch.quantity.Some? then patch.quantity.value else p.quantity,
      if patch.minStockLevel.Some? then patch.minStockLevel.value else p.minStockLevel,
      if patch.location.Some? then patch.location.value else p.location)
  }

  /** An empty body changes nothing; applying the same body twice is applying it once. */
  lemma OverlayLaws(p: MockProduct, patch: ProductPatch)
    ensures Overlay(p, ProductPatch(None, None, None, None, None, None, None, None, None, None)) == p
    ensures Overlay(Overlay(p, patch), patch) == Overlay(p, patch)
  {
  }

  /** The low-stock test of the dashboard. */
  predicate IsLowStock(p: MockProduct)
  {
    p.quantity <= p.minStockLevel
  }

  /** What one item adds to an order's total. */
  function ItemAmount(item: MockItem): int
  {
    item.price * item.quantity
  }

  /** `k` is the first position in `s` of a product with this id. */
  ghost predicate FirstProductAt(s: seq<MockProduct>, id: int, k: int)
  {
    0 <= k < |s| && s[k].id == id && forall j :: 0 <= j < k ==> s[j].id != id
  }

  /** `k` is the first position in `s` of an order with this id. */
  ghost predicate FirstOrderAt(s: seq<MockOrder>, id: int, k: int)
  {
    0 <= k < |s| && s[k].id == id && forall j :: 0 <= j < k ==> s[j].id != id
  }

  /** The low-stock filter keeps one product per low-stock position. */
  lemma LowStockCount(products: seq<MockProduct>)
    ensures |Filter(products, IsLowStock)| == |set i | 0 <= i < |products| && IsLowStock(products[i])|
  {
    FilterLength(products, IsLowStock);
    LowStockPositions(products);
  }

  /** The positions `Passing` collects for the low-stock test are the
      low-stock positions. */
  lemma LowStockPositions(products: seq<MockProduct>)
    ensures Passing(products, IsLowStock) == set i | 0 <= i < |products| && IsLowStock(products[i])
  {
  }

  class MockStore {
    var products: seq<MockProduct>
    var orders: seq<MockOrder>

    /** The server at start-up: the seed products and no orders. */
    constructor ()
      ensures products == SeedProducts && orders == []
    {
      products := SeedProducts;
      orders := [];
    }

    /** `GET /api/products/:id`: the first product with that id, or none (404). */
    method GetProduct(id: int) returns (r: Option<MockProduct>)
      ensures r.None? <==> forall i :: 0 <= i < |products| ==> products[i].id != id
      ensures r.Some? ==> exists k :: FirstProductAt(products, id, k) && r.value == products[k]
    {
      var k := FindFirst(products, (p: MockProduct) => p.id == id);
      if k == -1 {
        return None;
      }
      assert FirstProductAt(products, id, k);
      r := Some(products[k]);
    }

    /** `POST /api/products`: appends the product under id length + 1. */
    method CreateProduct(name: string, description: string, category: string, sku: string, price: int,
                         cost: int, quantity: int, minStockLevel: int, location: string) returns (id: int)
      modifies this
      ensures id == |old(products)| + 1
      ensures products == old(products) + [MockProduct(id, name, description, category, sku, price, cost,
                                                       quantity, minStockLevel, location)]
      ensures orders == old(orders)
    {
      id := |products| + 1;
      products := products + [MockProduct(id, name, description, category, sku, price, cost, quantity, minStockLevel, location)];
    }

    /** `PUT /api/products/:id`: overlays the body on the first product with
        that id; every other entry is kept. Unknown id: 404, nothing changes. */
    method UpdateProduct(id: int, patch: ProductPatch) returns (found: bool)
      modifies this
      ensures found <==> exists i :: 0 <= i < |old(products)| && old(products)[i].id == id
      ensures !found ==> products == old(products)
      ensures found ==> exists k :: FirstProductAt(old(products), id, k)
                                    && products == old(products)[k := Overlay(old(products)[k], patch)]
      ensures orders == old(orders)
    {
      var k := FindFirst(products, (p: MockProduct) => p.id == id);
      if k == -1 {
        return false;
      }
      assert FirstProductAt(products, id, k);
      products := products[k := Overlay(products[k], patch)];
      found := true;
    }

    /** `DELETE /api/products/:id`: splices out the first product with that id,
        the others keeping their order. Unknown id: 404, nothing changes. */
    method DeleteProduct(id: int) returns (found: bool)
      modifies this
      ensures found <==> exists i :: 0 <= i < |old(products)| && old(products)[i].id == id
      ensures !found ==> products == old(products)
      ensures found ==> |products| == |old(products)| - 1
                        && exists k :: FirstProductAt(old(products), id, k)
                                       && products == old(products)[..k] + old(products)[k + 1..]
      ensures orders == old(orders)
    {
      var k := FindFirst(products, (p: MockProduct) => p.id == id);
      if k == -1 {
        return false;
      }
      assert FirstProductAt(products, id, k);
      products := products[..k] + products[k + 1..];
      found := true;
    }

    /** `GET /api/orders/:id`: the first order with that id, or none (404). */
    method GetOrder(id: int) returns (r: Option<MockOrder>)
      ensures r.None? <==> forall i :: 0 <= i < |orders| ==> orders[i].id != id
      ensures r.Some? ==> exists k :: FirstOrderAt(orders, id, k) && r.value == orders[k]
    {
      var k := FindFirst(orders, (o: MockOrder) => o.id == id);
      if k == -1 {
        return None;
      }
      assert FirstOrderAt(orders, id, k);
      r := Some(orders[k]);
    }

    /** `POST /api/orders`: appends a pending order under id length + 1 whose
        total is price times quantity summed over the items; no stock is
        checked or changed. A body without `items` makes the sum throw, which
        is answered 500 with nothing appended (`None`). */
    method CreateOrder(orderNumber: string, customerName: string, customerEmail: string, customerPhone: string,
                       items: Option<seq<MockItem>>) returns (id: Option<int>)
      modifies this
      ensures id.None? <==> items.None?
      ensures id.None? ==> orders == old(orders)
      ensures id.Some? ==>
                && id.value == |old(orders)| + 1
                && orders == old(orders) + [MockOrder(id.value, orderNumber, customerName, customerEmail, customerPhone,
                                                      Sum(items.value, ItemAmount), "pending", items.value)]
      ensures products == old(products)
    {
      if items.None? {
        return None;
      }
      var newId := |orders| + 1;
      orders := orders + [MockOrder(newId, orderNumber, customerName, customerEmail, customerPhone,
                                    Sum(items.value, ItemAmount), "pending", items.value)];
      id := Some(newId);
    }

    /** `GET /api/dashboard`: the product count, the number of low-stock
        products and the order count. */
    function Dashboard(): (d: DashboardCounts)
      reads this
      ensures d.totalProducts == |products| && d.totalOrders == |orders|
      ensures d.lowStockItems == |set i | 0 <= i < |products| && IsLowStock(products[i])|
      ensures d.lowStockItems <= d.totalProducts
      ensures d.lowStockItems == 0 <==> forall i :: 0 <= i < |products| ==> !IsLowStock(products[i])
    {
      var low := Filter(products, IsLowStock);
      assert low != [] ==> IsLowStock(low[0]) && low[0] in products;
      LowStockCount(products);
      DashboardCounts(|products|, |low|, |orders|)
    }
  }

  /** Deleting product 2 from the seed data and then creating a product gives
      the new product id 5, which product 5 still holds. */
  method IdReuseAfterDelete() returns (store: MockStore)
    ensures |store.products| == 5
    ensures store.products[3].id == 5 && store.products[4].id == 5
    ensures store.products[3].sku == "MN-001" && store.products[4].sku == "KB-001"
  {
    store := new MockStore();
    var found := store.DeleteProduct(2);
    assert FirstProductAt(SeedProducts, 2, 1);
    var id := store.CreateProduct("Keyboard", "Mechanical keyboard", "Electronics", "KB-001", 8999, 4999, 40, 10, "Warehouse A");
  }
}
