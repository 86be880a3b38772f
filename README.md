# Inventory management: a Dafny model of its bookkeeping core

This project models the inventory bookkeeping of a small Express/MySQL
inventory-management application and its browser front end. It covers:

- **Placing an order** (`POST /api/orders`). The item batch is validated, then
  every item is checked against the stock on hand before any write. The total
  is computed. The order row is inserted, and then, item by item, an order item
  is inserted, the stock is decremented and an outgoing stock movement is
  logged. The writes are not atomic, and nothing is rolled back.
- **Changing an order's status** (`PUT /api/orders/:id/status`). The status must
  be one of `pending`, `processing`, `completed` or `cancelled`.
- **Creating, updating and deleting products** (`/api/products`). This covers
  required fields, positive prices, the inventory defaults of a new product,
  SKU uniqueness, and unknown ids.
- **The database-free mock server**. Products and orders are kept in arrays,
  ids are "length + 1", updates overlay the request body on the product, and
  there are dashboard counts.
- **The order form of the front end**. It covers adding and removing draft
  items, the displayed total, and the payload it submits.
- **The product and inventory list filters**. They search name and SKU
  without regard to case, filter by category or low stock, and show the stock
  status. Before updating inventory, the page checks the quantity.
- **The database setup script's statement splitter**.

The MySQL tables are an in-memory class, `Datastore.Database`. It holds
products, an inventory map from product id to quantity, minimum level and
location, orders, order items, stock movements, and the two auto-increment
counters. Each SQL statement the routes issue is one method of that class,
modelling its effect on the tables. SKU uniqueness, which the database reports
as `ER_DUP_ENTRY`, is a check inside the insert and update methods.

Prices and amounts are integer cents. A missing JSON field is `None`. JavaScript
falsiness is modelled explicitly, because `!x` and `x || d` treat `0` and `""`
like a missing value: a falsy number is `None` or `Some(0)`, and a falsy string
is `None` or `Some("")`.

Modules, one per file:

| file | module | models |
|---|---|---|
| common.dfy | `Common` | Option, Result, JavaScript falsiness |
| seqs.dfy | `Seqs` | `reduce`-style sums, `Array.prototype.filter`, `find`/`findIndex` |
| text.dfy | `Text` | `toLowerCase`, `includes`, `startsWith`, `trim`, `split`/`join` on one character |
| datastore.dfy | `Datastore` | the database tables and the effect of each query |
| order_placement.dfy | `OrderPlacement` | backend/routes/orders.js |
| product_catalog.dfy | `ProductCatalog` | backend/routes/products.js |
| mock_server.dfy | `MockServer` | backend/server-simple.js |
| order_builder.dfy | `OrderBuilder` | frontend/js/orders.js |
| product_list.dfy | `ProductList` | frontend/js/products.js |
| inventory_list.dfy | `InventoryList` | frontend/js/inventory.js |
| schema_setup.dfy | `SchemaSetup` | setup-database.js |

Whether an order is accepted is decided by `OrderPlacement.Admit`, a pure
function of the request and the stock; `OrderPlacement.PlaceOrder` is proved to
succeed exactly when it admits the request. On acceptance the new state is
stated exactly: one order row holding the total, one order item per line in
input order, the stock decremented per line, and one `out` movement per line.

Stock is checked for each item separately, against the stock before the order
(backend/routes/orders.js:81). If a product appears twice in one order, its
quantities are not added together before the check. So stock stays
non-negative only when the ordered product ids are distinct:
`OrderPlacement.StockAfterDistinctOrder` proves it under that hypothesis, and
`OrderPlacement.RepeatedProductCanOversell` exhibits an order that drives a
stock level to -1.

The mock server hands out id "length + 1" (backend/server-simple.js:93). After
a delete, that id can still belong to a product. `MockServer.IdReuseAfterDelete`
exhibits two products with id 5.

The backend does not require a customer name (backend/routes/orders.js:46-66
never reads it), so the model accepts an order without one.

## Model

| member | source | states |
|---|---|---|
| Seqs.Filter | frontend/js/products.js:64-69 | the kept elements are exactly the elements that pass the predicate, each as many times as it occurs in the input; the result is no longer than the input and is a subsequence of it in the original order |
| Seqs.FilterLength | frontend/js/products.js:64-69 | the filtered list has one element per position of the input whose element passes |
| Seqs.FilterFilter | frontend/js/inventory.js:65-73 | filtering twice in a row is filtering once by the conjunction of the two predicates |
| Seqs.FilterKeepsAll | frontend/js/products.js:64-69 | when every element passes, the filter returns the list unchanged |
| Seqs.FindFirst | backend/server-simple.js:101 | `findIndex`: -1 exactly when no element matches; otherwise the index of a matching element with no match before it |
| Text.Lower | frontend/js/products.js:53 | `toLowerCase`: each upper-case ASCII letter becomes its lower-case letter and every other character is kept; the length is kept |
| Text.Includes | frontend/js/products.js:65-66 | `includes` holds exactly when the substring occurs at some position |
| Text.IncludesEmpty | frontend/js/products.js:65-66 | every string includes the empty string |
| Text.StartsWith | setup-database.js:93 | `startsWith`: the string begins with the prefix |
| Text.Trim | setup-database.js:92 | `trim`: a contiguous slice of the input with no white space (the JavaScript white-space and line-terminator set) at either end; empty exactly when the input is all white space |
| Text.Split | setup-database.js:91 | `split(';')` yields at least one piece, and no piece contains the separator |
| Text.JoinSplit | setup-database.js:90-91 | joining the pieces of a split with the separator gives back the original text |
| Text.SplitJoin | setup-database.js:91 | splitting a join of separator-free pieces gives back the pieces |
| Datastore.WithStatus | backend/routes/orders.js:144 | `UPDATE orders SET status`: the same orders, ids unchanged, with the status of the orders having that id replaced |
| Datastore.WithProduct | backend/routes/products.js:94-97 | `UPDATE products SET ...`: the rows with that id replaced by the new row with the same id, and every other row kept |
| Datastore.Database.SelectInventory | backend/routes/orders.js:70-73 | the inventory row of the product, or none when the product has no inventory row |
| Datastore.Database.InsertOrder | backend/routes/orders.js:98-101 | appends a pending order under the next auto-increment id, which was not used before; other tables unchanged |
| Datastore.Database.InsertOrderItem | backend/routes/orders.js:105-108 | appends the order item row; other tables unchanged |
| Datastore.Database.DecrementStock | backend/routes/orders.js:111-114 | lowers the product's quantity by the amount with no lower bound; no effect when the product has no inventory row |
| Datastore.Database.InsertMovement | backend/routes/orders.js:117-120 | appends the stock movement; other tables unchanged |
| Datastore.Database.UpdateOrderStatus | backend/routes/orders.js:144-146 | affects zero rows, with nothing changed, exactly when no order has the id; otherwise overwrites that order's status |
| Datastore.Database.InsertProduct | backend/routes/products.js:59-62 | fails with a duplicate entry, changing nothing, exactly when another product already has the SKU; otherwise appends the product under a fresh id |
| Datastore.Database.InsertInventory | backend/routes/products.js:65-68 | sets the inventory row of the new product id |
| Datastore.Database.UpdateProduct | backend/routes/products.js:94-101 | zero affected rows, with nothing changed, when no product has the id; a duplicate entry, with nothing changed, when another product has the SKU; otherwise all columns of that product are overwritten |
| Datastore.Database.UpdateInventory | backend/routes/products.js:104-107 | overwrites quantity, minimum level and location of an existing inventory row; no effect when there is none |
| Datastore.Database.DeleteProduct | backend/routes/products.js:123-125 | zero affected rows, with nothing changed, when no product has the id; otherwise exactly one product with that id is removed and the others keep their order |
| OrderPlacement.ItemError | backend/routes/orders.js:55-65 | an item is refused exactly when it is not well formed; a missing or falsy product id, quantity or price is reported as a missing field |
| OrderPlacement.ValidateItems | backend/routes/orders.js:54-66 | succeeds exactly when every item is well formed, and then yields one line per item in order; otherwise reports the error of the first bad item |
| OrderPlacement.StockError | backend/routes/orders.js:69-86 | no error exactly when every line's product has an inventory row holding at least the line's quantity; otherwise the error names the first line that fails |
| OrderPlacement.Admit | backend/routes/orders.js:49-86 | an absent or empty item list is refused as an empty order; the request is admitted exactly when items are present, non-empty, all well formed and all in stock, and the admitted lines are the items in order; a stock error is reported only for well-formed batches |
| OrderPlacement.CheckStock | backend/routes/orders.js:69-86 | the loop over the inventory queries returns exactly the stock error the specification function gives |
| OrderPlacement.ComputeTotal | backend/routes/orders.js:92-95 | the accumulated total is the sum of price times quantity over the lines |
| OrderPlacement.TotalOfAdmittedIsPositive | backend/routes/orders.js:92-95 | the total of an admitted order is positive |
| OrderPlacement.Decremented | backend/routes/orders.js:111-114 | after the per-line decrements each product's quantity is lowered by the total quantity ordered of it; the set of products with inventory is unchanged |
| OrderPlacement.QuantityOrderedOfDistinct | backend/routes/orders.js:104-114 | with distinct product ids, the quantity ordered of a listed product is that one line's quantity, and of an unlisted product zero |
| OrderPlacement.StockAfterDistinctOrder | backend/routes/orders.js:81-114 | with distinct product ids that passed the stock check, each ordered product's stock drops by exactly its quantity and stays non-negative, and every other product is unchanged |
| OrderPlacement.RepeatedProductCanOversell | backend/routes/orders.js:81-114 | two lines of 3 for a product with 5 in stock both pass the check, and the stock ends at -1 |
| OrderPlacement.WriteLines | backend/routes/orders.js:104-121 | the write loop appends one order item per line, with the order id and subtotal, in input order; it applies every decrement and appends one `out` "Order sale" movement per line referencing the order; products and orders untouched |
| OrderPlacement.PlaceOrder | backend/routes/orders.js:44-123 | succeeds exactly when the request is admitted; a refusal carries the admission error and changes no table; a success returns the new id and order number, advances the order counter by one, adds one pending order with the total, the order items, the decremented stock and the movements, and leaves products and the product counter unchanged |
| OrderPlacement.ParseStatus | backend/routes/orders.js:136-137 | a status string is accepted exactly when it is one of the four names, and the parsed status has that name |
| OrderPlacement.ParseStatusName | backend/routes/orders.js:136 | each of the four statuses parses back from its own name |
| OrderPlacement.SetOrderStatus | backend/routes/orders.js:131-148 | a missing or unknown status is refused with nothing changed; a valid status for an unknown order id is reported as not found with nothing changed; otherwise that order's status is overwritten, whatever it was; no other table and neither id counter changes |
| ProductCatalog.CreateError | backend/routes/products.js:47-57 | a missing or falsy name, SKU, price or cost is reported as missing fields; otherwise a price or cost at or below zero is refused; no error exactly when the request is acceptable |
| ProductCatalog.InitialInventory | backend/routes/products.js:67 | the new inventory row takes the supplied quantity, minimum level and location when they are truthy, and otherwise 0, 10 and "Warehouse A", so a minimum level of 0 becomes 10 |
| ProductCatalog.CreateProduct | backend/routes/products.js:42-78 | succeeds exactly when the request is acceptable and its SKU is free; a validation error is returned with nothing changed; a SKU already in use is a duplicate with nothing changed; a success adds the product under a fresh id, advances the product counter, and adds its initial inventory row |
| ProductCatalog.UpdateError | backend/routes/products.js:87-92 | price and cost are checked only when sent: a left-out amount passes, while a `null` or an amount at or below zero is refused; price is checked before cost |
| ProductCatalog.UpdateProduct | backend/routes/products.js:82-117 | succeeds exactly when the amounts pass, the product exists and its new SKU is free; a validation error or an unknown id is refused with nothing changed; a SKU used by another product is a duplicate with nothing changed; otherwise all six product columns (a left-out amount as NULL) and the three inventory columns are overwritten from the request; the id counters never change |
| ProductCatalog.DeleteProduct | backend/routes/products.js:121-129 | an unknown id is not found, with nothing changed; otherwise exactly that product is removed; the other tables and the id counters are unchanged |
| MockServer.Overlay | backend/server-simple.js:103 | `{ ...product, ...body }`: each field the body carries replaces the product's, the others are kept |
| MockServer.OverlayLaws | backend/server-simple.js:103 | overlaying an empty body changes nothing, and overlaying the same body twice is overlaying it once |
| MockServer.MockStore.constructor | backend/server-simple.js:16-77 | the store starts with the five seed products and no orders |
| MockServer.MockStore.GetProduct | backend/server-simple.js:84-88 | the first product with the id, or none exactly when no product has it |
| MockServer.MockStore.CreateProduct | backend/server-simple.js:90-98 | appends the product under id previous length + 1; earlier products and the orders unchanged |
| MockServer.MockStore.UpdateProduct | backend/server-simple.js:100-105 | found exactly when some product has the id; then only the first such entry is replaced by its overlay with the body; otherwise nothing changes |
| MockServer.MockStore.DeleteProduct | backend/server-simple.js:107-112 | found exactly when some product has the id; then exactly the first such entry is removed and the others keep their order; otherwise nothing changes |
| MockServer.MockStore.GetOrder | backend/server-simple.js:121-125 | the first order with the id, or none exactly when no order has it |
| MockServer.MockStore.CreateOrder | backend/server-simple.js:127-146 | a body without items appends nothing (the sum throws and the server answers 500); otherwise appends a pending order under id previous length + 1 whose total is the sum of price times quantity; the products are not touched |
| MockServer.LowStockCount | backend/server-simple.js:150 | the low-stock filter keeps one product per position whose product is at or below its minimum |
| MockServer.MockStore.Dashboard | backend/server-simple.js:149-161 | the product and order counts, and the low-stock count: the number of products at or below their minimum, hence at most the product count and zero exactly when no product is low |
| MockServer.IdReuseAfterDelete | backend/server-simple.js:93-110 | deleting product 2 of the seed data and creating a product leaves two products with id 5 |
| OrderBuilder.SpliceOne | frontend/js/orders.js:133 | `splice(index, 1)`: an index inside the list removes exactly that element and keeps the rest in order; an index past the end changes nothing |
| OrderBuilder.DisplayedTotal | frontend/js/orders.js:113 | the running total, the sum of price times quantity over the draft items; its partners are the two lemmas below and `SubmissionAccepted` |
| OrderBuilder.DisplayedTotalAppend | frontend/js/orders.js:94-113 | adding a draft item raises the total by its price times its quantity |
| OrderBuilder.DisplayedTotalRemove | frontend/js/orders.js:113-133 | removing the item at an index inside the list lowers the total by exactly that item's price times its quantity |
| OrderBuilder.PayloadItems | frontend/js/orders.js:150-154 | the payload has one item per draft item, in order, with its product id, quantity and price |
| OrderBuilder.Submission | frontend/js/orders.js:141-155 | an empty order is not submitted; otherwise the payload carries the customer's name, email and phone and the projected items |
| OrderBuilder.SubmissionAccepted | frontend/js/orders.js:113-155 | a submitted order passes the server's item validation with one line per draft item, and the server's total equals the total the form displays |
| OrderBuilder.OrderForm.constructor | frontend/js/orders.js:4-5 | the form starts with no products and no draft items |
| OrderBuilder.OrderForm.LoadProducts | frontend/js/orders.js:47-54 | the fetched products replace the list; the draft items are kept |
| OrderBuilder.OrderForm.ResetOrderItems | frontend/js/orders.js:58-67 | opening or closing the form empties the draft items |
| OrderBuilder.OrderForm.AddOrderItem | frontend/js/orders.js:71-102 | an item is appended exactly when products are loaded, the id names a product, and the quantity is positive and at most its stock; the item holds that product's id, name and price and the quantity; in every other case the list is unchanged |
| OrderBuilder.OrderForm.RemoveOrderItem | frontend/js/orders.js:132-134 | the draft items become the old list spliced at the index |
| ProductList.SearchTerm | frontend/js/products.js:53 | the stored search term is the input lower-cased (so of the same length and unchanged by lower-casing again) |
| ProductList.ApplyFilters | frontend/js/products.js:63-69 | a product is kept exactly when its lower-cased name or SKU contains the term and the category filter is empty or equal to its category, as many times as it is listed; the result is a subsequence of the list |
| ProductList.NoFiltersKeepAll | frontend/js/products.js:65-67 | with an empty search term and no category every product is shown |
| ProductList.SearchIgnoresCase | frontend/js/products.js:53-66 | two inputs that lower-case alike filter alike |
| ProductList.BadgeClass | frontend/js/products.js:37 | the badge is `status-low` exactly when the quantity is at or below the minimum stock level, and `status-ok` otherwise |
| InventoryList.ApplyFilters | frontend/js/inventory.js:64-76 | unticked, the result is exactly the search result; ticked, it is the search result restricted to low-stock rows; either way a row is kept exactly when it passes, as many times as it is listed, and the result is a subsequence of the list |
| InventoryList.StatusText | frontend/js/inventory.js:31-33 | the status reads "Low Stock" exactly when the quantity is at or below the minimum stock level |
| InventoryList.QuantityAccepted | frontend/js/inventory.js:85-89 | the quantity answer is accepted when it parsed and is not negative; zero is accepted |
| InventoryList.Sent | frontend/js/inventory.js:106-107 | a stored amount goes into the body as itself, and a NULL one as `null`, never left out |
| InventoryList.UpdateInventory | frontend/js/inventory.js:82-111 | nothing is sent when a prompt is cancelled or the quantity did not parse or is negative (zero is accepted); otherwise the product's own fields are sent, a NULL price or cost as `null`, with the new quantity, minimum level and location |
| InventoryList.UpdateInventoryValidates | frontend/js/inventory.js:101-111 | the update the page sends passes the server's price and cost checks exactly when the stored price and cost are both set and positive; a NULL one is sent as `null` and refused |
| SchemaSetup.TrimmedChunks | setup-database.js:90-92 | one trimmed piece per `;`-separated chunk of the schema, in order |
| SchemaSetup.TrimKeepsNoSeparator | setup-database.js:91-92 | trimming a piece free of `;` leaves it free of `;` |
| SchemaSetup.TrimmedChunksClean | setup-database.js:91-92 | every trimmed piece is free of `;` and has no white space at either end |
| SchemaSetup.Executable | setup-database.js:93 | the filter's test: non-empty and starting with neither `CREATE DATABASE` nor `USE` |
| SchemaSetup.Statements | setup-database.js:90-93 | each kept statement is non-empty, trimmed, free of `;` and starts with neither `CREATE DATABASE` nor `USE`; every trimmed chunk meeting those conditions is kept, as many times as it occurs; the statements are a subsequence of the trimmed chunks in order |
| SchemaSetup.Executed | setup-database.js:101 | each executed text is a kept statement followed by `;`, which is its only `;` |

## Left out

- The HTTP layer: routing, body parsing, CORS and static files. A handler's reply is its `Result`, and the status codes are the error constructors.
- The `GET` list and single-item routes of backend/routes/products.js and backend/routes/orders.js. They only read and join tables.
- The 500 replies of the database routes: a failing connection or query, and a request whose shape makes the handler throw, such as a `null` element of `items`, which throws at backend/routes/orders.js:55. The model's requests are typed, so none of these is represented.
- Connection pooling and retries (backend/config/database.js) are not part of this model.
- Concurrency. Two orders placed at once can both pass the stock check; the model is sequential and describes the non-atomic writes of one request.
- Clock-dependent values. The order number `ORD-<timestamp>` is an input to `OrderPlacement.PlaceOrder`, and `order_date` is not stored. The dashboard's `ordersToday` count depends on the current date and is not modelled.
- Floating-point prices and `toFixed` formatting. Prices are integer cents, and no rounding is modelled.
- JavaScript coercion: `isNaN` on strings, `parseInt`, and the loose `==` on ids. Inputs arrive already typed, and an unparseable answer is `None`.
- DOM rendering, `alert`, `fetch` and event listeners. Prompt answers are parameters.
- `ProductCatalog.UpdateProduct`: inventory fields missing from the request are written as SQL NULL by the source; the model takes them as present.
- `ProductCatalog.UpdateProduct`: the affected-row count of the update is taken as the number of rows matched, not the number whose values changed.
- `ProductCatalog.DeleteProduct`: inventory rows are left as they are. Foreign-key cascades belong to database/schema.sql, which is not part of this model.
- `InventoryList.UpdateInventory`: the minimum-level answer is taken as a parsed number. A non-numeric answer, sent as JSON `null` by the page, is not modelled.
- `InventoryList.ApplyFilters`: the row's quantity and minimum level are taken as numbers, although the join in the products route can yield NULL for a product without an inventory row.
- `MockServer.MockStore.UpdateProduct`: the body is a fixed set of optional product fields; extra keys a client might send are not modelled.
- `MockServer.MockStore.CreateProduct`: every field is taken as supplied. The mock stores `undefined` for a field the body leaves out; such a product is not represented.
- `MockServer.MockStore.CreateOrder`: the items are taken as carrying a quantity and a price. An item missing one makes the mock's total `NaN`; that is not represented. The customer fields are taken as supplied.
- NULL amounts: a stored NULL price or cost is `None`. Going back to the server, it is sent as `null`, and the update route refuses it.
- `Text.Lower`: lower-casing covers ASCII letters only; Unicode case mapping is not modelled.
- Setup script: the file reading, the connection, the asynchronous `completed` counter and the table-name logging.
