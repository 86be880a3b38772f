/** `POST /api/products`, `PUT /api/products/:id` and `DELETE /api/products/:id`
    of the backend's product routes: request validation, then the writes to
    `products` and `inventory`. A write rejected by the unique index on the SKU
    is answered 409. */
module ProductCatalog {
  import opened Common
  import opened Datastore

  /** The body of `POST /api/products`; a missing field is `None`. */
  datatype CreateRequest = CreateRequest(
    name: Option<string>,
    description: Option<string>,
    category: Option<string>,
    sku: Option<string>,
    price: Option<int>,
    cost: Option<int>,
    quantity: Option<int>,
    minStockLevel: Option<int>,
    location: Option<string>)

  /** The body of `PUT /api/products/:id`. The six product columns are written
      as sent, absent or `null` ones as NULL; price and cost distinguish a field
      left out from one sent as `null`, because the validation does; the three
      inventory values are taken as sent. */
  datatype UpdateRequest = UpdateRequest(
    name: Option<string>,
    description: Option<string>,
    category: Option<string>,
    sku: Option<string>,
    price: Field<int>,
    cost: Field<int>,
    quantity: int,
    minStockLevel: int,
    location: string)

  /** The answers other than success, with their statuses. */
  datatype CatalogError =
    | MissingFields           // 400: name, sku, price or cost missing or empty
    | NonPositivePriceOrCost  // 400, on create
    | NonPositivePrice        // 400, on update
    | NonPositiveCost         // 400, on update
    | DuplicateSku            // 409
    | ProductNotFound         // 404

  /** The product fields are all present and the amounts positive. */
  predicate CreateAcceptable(req: CreateRequest)
  {
    && !FalsyText(req.name) && !FalsyText(req.sku)
    && req.price.Some? && req.price.value > 0
    && req.cost.Some? && req.cost.value > 0
  }

  /** The validation of a create request: missing fields first, then amounts. */
  function CreateError(req: CreateRequest): (e: Option<CatalogError>)
    ensures e.None? <==> CreateAcceptable(req)
    ensures e == Some(MissingFields) <==> FalsyText(req.name) || FalsyText(req.sku) || Falsy(req.price) || Falsy(req.cost)
  {
    if FalsyText(req.name) || FalsyText(req.sku) || Falsy(req.price) || Falsy(req.cost) then Some(MissingFields)
    else if req.price.value <= 0 || req.cost.value <= 0 then Some(NonPositivePriceOrCost)
    else None
  }

  /** The inventory row created with a product. Each value falls back to its
      default when the request's is JavaScript-false, so a stock level of 0 is
      kept as 0 but a minimum of 0 becomes 10 and an empty location becomes
      Warehouse A. */
  function InitialInventory(req: CreateRequest): (row: InventoryRow)
    ensures req.quantity.Some? ==> row.quantity == req.quantity.value
    ensures req.quantity.None? ==> row.quantity == 0
    ensures row.minStockLevel != 0 && row.location != ""
    ensures !Falsy(req.minStockLevel) ==> row.minStockLevel == req.minStockLevel.value
    ensures Falsy(req.minStockLevel) ==> row.minStockLevel == 10
    ensures !FalsyText(req.location) ==> row.location == req.location.value
    ensures FalsyText(req.location) ==> row.location == "Warehouse A"
  {
    InventoryRow(
      if Falsy(req.quantity) then 0 else req.quantity.value,
      if Falsy(req.minStockLevel) then 10 else req.minStockLevel.value,
      if FalsyText(req.location) then "Warehouse A" else req.location.value)
  }

  /** `POST /api/products`: validates, inserts the product under a fresh id,
      then inserts its inventory row. A taken SKU stops the first insert, so
      nothing is written. */
  method CreateProduct(db: Database, req: CreateRequest) returns (r: Result<int, CatalogError>)
    requires db.Valid()
    modifies db
    ensures db.Valid()
    ensures CreateError(req).Some? ==> r == Failure(CreateError(req).value)
    ensures CreateError(req).None? ==>
              (r == Failure(DuplicateSku) <==> SkuTaken(old(db.products), req.sku, old(db.nextProductId)))
    ensures r.Success? <==> CreateAcceptable(req) && !SkuTaken(old(db.products), req.sku, old(db.nextProductId))
    ensures r.Failure? ==> unchanged(db)
    ensures r.Success? ==>
              && r.value == old(db.nextProductId) && db.nextProductId == r.value + 1
              && db.nextOrderId == old(db.nextOrderId)
              && !HasProduct(old(db.products), r.value) && r.value !in old(db.inventory)
              && db.products == old(db.products) + [ProductRow(r.value, req.name, req.description, req.category,
                                                              req.sku, req.price, req.cost)]
              && db.inventory == old(db.inventory)[r.value := InitialInventory(req)]
              && db.orders == old(db.orders) && db.orderItems == old(db.orderItems)
              && db.movements == old(db.movements)
  {
    var invalid := CreateError(req);
    if invalid.Some? {
      return Failure(invalid.value);
    }
    var inserted := db.InsertProduct(req.name, req.description, req.category, req.sku, req.price, req.cost);
    if inserted.Failure? {
      return Failure(DuplicateSku);
    }
    var id := inserted.value;
    db.InsertInventory(id, InitialInventory(req));
    r := Success(id);
  }

  /** An update amount passes its check: left out, or a positive number. A
      `null` is sent on, and `null <= 0` holds in JavaScript, so it is refused. */
  predicate AmountAccepted(f: Field<int>)
  {
    f.Absent? || (f.Present? && f.value > 0)
  }

  /** The validation of an update: price, then cost, each only when sent. */
  function UpdateError(req: UpdateRequest): (e: Option<CatalogError>)
    ensures e.None? <==> AmountAccepted(req.price) && AmountAccepted(req.cost)
    ensures e == Some(NonPositivePrice) <==> req.price.Null? || (req.price.Present? && req.price.value <= 0)
    ensures e == Some(NonPositiveCost) <==> AmountAccepted(req.price) && !AmountAccepted(req.cost)
  {
    if !AmountAccepted(req.price) then Some(NonPositivePrice)
    else if !AmountAccepted(req.cost) then Some(NonPositiveCost)
    else None
  }

  /** `PUT /api/products/:id`: validates, overwrites all six product columns
      with the request's values (not a merge with the stored ones), then all
      three inventory values. An unknown id or a SKU held by another product
      leaves both tables as they were. */
  method UpdateProduct(db: Database, id: int, req: UpdateRequest) returns (r: Result<(), CatalogError>)
    requires db.Valid()
    modifies db
    ensures db.Valid()
    ensures UpdateError(req).Some? ==> r == Failure(UpdateError(req).value)
    ensures UpdateError(req).None? ==>
              && (r == Failure(ProductNotFound) <==> !HasProduct(old(db.products), id))
              && (r == Failure(DuplicateSku) <==> HasProduct(old(db.products), id) && SkuTaken(old(db.products), req.sku, id))
    ensures r.Success? <==> UpdateError(req).None? && HasProduct(old(db.products), id) && !SkuTaken(old(db.products), req.sku, id)
    ensures r.Failure? ==> unchanged(db)
    ensures db.nextProductId == old(db.nextProductId) && db.nextOrderId == old(db.nextOrderId)
    ensures r.Success? ==>
              && db.products == WithProduct(old(db.products), id, ProductRow(id, req.name, req.description,
                                                                           req.category, req.sku, Column(req.price),
                                                                           Column(req.cost)))
              && db.inventory == (if id in old(db.inventory)
                                  then old(db.inventory)[id := InventoryRow(req.quantity, req.minStockLevel, req.location)]
                                  else old(db.inventory))
              && db.orders == old(db.orders) && db.orderItems == old(db.orderItems)
              && db.movements == old(db.movements)
  {
    var invalid := UpdateError(req);
    if invalid.Some? {
      return Failure(invalid.value);
    }
    var updated := db.UpdateProduct(id, req.name, req.description, req.category, req.sku, Column(req.price),
                                    Column(req.cost));
    if updated.Failure? {
      return Failure(DuplicateSku);
    }
    if updated.value == 0 {
      return Failure(ProductNotFound);
    }
    db.UpdateInventory(id, InventoryRow(req.quantity, req.minStockLevel, req.location));
    r := Success(());
  }

  /** `DELETE /api/products/:id`: removes exactly that product, keeping the
      others in order, or answers not found with nothing changed. */
  method DeleteProduct(db: Database, id: int) returns (r: Result<(), CatalogError>)
    requires db.Valid()
    modifies db
    ensures db.Valid()
    ensures r.Failure? <==> !HasProduct(old(db.products), id)
    ensures r.Failure? ==> r.error == ProductNotFound && unchanged(db)
    ensures r.Success? ==> exists k :: 0 <= k < |old(db.products)| && old(db.products)[k].id == id
                                       && db.products == old(db.products)[..k] + old(db.products)[k + 1..]
    ensures db.inventory == old(db.inventory) && db.orders == old(db.orders)
    ensures db.orderItems == old(db.orderItems) && db.movements == old(db.movements)
    ensures db.nextProductId == old(db.nextProductId) && db.nextOrderId == old(db.nextOrderId)
  {
    var affected := db.DeleteProduct(id);
    if affected == 0 {
      return Failure(ProductNotFound);
    }
    r := Success(());
  }
}
