/** The inventory page: the search filter, the optional low-stock restriction,
    the stock status of a row, and the checks `updateInventory` makes before it
    sends a product update. Prompt answers are parameters. */
module InventoryList {
  import opened Common
  import opened Seqs
  import opened Text
  import ProductCatalog

  /** A row of the inventory page: a product with its inventory values. */
  datatype InventoryItem = InventoryItem(
    id: int,
    name: string,
    description: Option<string>,
    category: Option<string>,
    sku: string,
    price: Option<int>,
    cost: Option<int>,
    quantity: int,
    minStockLevel: int,
    location: Option<string>)

  /** The lower-cased name or SKU contains the (lower-cased) term. */
  predicate MatchesSearch(item: InventoryItem, term: string)
  {
    Includes(Lower(item.name), term) || Includes(Lower(item.sku), term)
  }

  /** The low-stock test: at or below the minimum stock level. */
  predicate IsLowStock(item: InventoryItem)
  {
    item.quantity <= item.minStockLevel
  }

  /** The rows the search alone keeps, in order. */
  function SearchResults(all: seq<InventoryItem>, term: string): seq<InventoryItem>
  {
    Filter(all, (item: InventoryItem) => MatchesSearch(item, term))
  }

  /** `applyFilters`: the search results, further restricted to low-stock rows
      when the box is ticked. Whatever the flag, the result is the rows of the
      input that pass, in order. */
  function ApplyFilters(all: seq<InventoryItem>, term: string, lowStockOnly: bool): (r: seq<InventoryItem>)
    ensures !lowStockOnly ==> r == SearchResults(all, term)
    ensures lowStockOnly ==> forall i :: 0 <= i < |r| ==> IsLowStock(r[i])
    ensures lowStockOnly ==> IsSubsequence(r, SearchResults(all, term))
    ensures forall i :: 0 <= i < |r| ==> r[i] in all && MatchesSearch(r[i], term)
    ensures forall i :: 0 <= i < |all| && MatchesSearch(all[i], term) && (!lowStockOnly || IsLowStock(all[i])) ==> all[i] in r
    ensures forall i :: 0 <= i < |all| ==>
              multiset(r)[all[i]] == if MatchesSearch(all[i], term) && (!lowStockOnly || IsLowStock(all[i]))
                                     then multiset(all)[all[i]] else 0
    ensures IsSubsequence(r, all)
  {
    var filtered := SearchResults(all, term);
    if lowStockOnly then
      var search := (item: InventoryItem) => MatchesSearch(item, term);
      FilterFilter(all, search, IsLowStock);
      var both := Filter(all, (item: InventoryItem) => search(item) && IsLowStock(item));
      assert forall i :: 0 <= i < |both| ==> both[i] in all && MatchesSearch(both[i], term);
      assert forall i :: 0 <= i < |all| ==>
               multiset(both)[all[i]] == if MatchesSearch(all[i], term) && IsLowStock(all[i])
                                         then multiset(all)[all[i]] else 0;
      Filter(filtered, IsLowStock)
    else
      filtered
  }

  /** The status cell: the low-stock text exactly when the row is low on stock. */
  function StatusText(item: InventoryItem): (t: string)
    ensures t == "\U{26A0}\U{FE0F} Low Stock" <==> IsLowStock(item)
    ensures t == "\U{26A0}\U{FE0F} Low Stock" || t == "\U{2713} In Stock"
  {
    if IsLowStock(item) then "\U{26A0}\U{FE0F} Low Stock" else "\U{2713} In Stock"
  }

  /** The answer to the quantity prompt is accepted when it parsed as a number
      that is not negative; zero is accepted. */
  predicate QuantityAccepted(parsed: Option<int>)
  {
    parsed.Some? && parsed.value >= 0
  }

  /** How `JSON.stringify` sends a stored amount: a NULL column, which the
      products route lists as `null`, is sent as `null`, not left out. */
  function Sent(amount: Option<int>): (f: Field<int>)
    ensures !f.Absent?
    ensures f.Null? <==> amount.None?
    ensures f.Present? ==> f.value == amount.value
  {
    if amount.Some? then Present(amount.value) else Null
  }

  /** `updateInventory`, from its three prompt answers (`None` for a cancelled
      prompt; the quantity answer is `Some(None)` when it did not parse). It
      sends nothing when a prompt is cancelled or the quantity is refused;
      otherwise the product's own fields with the new inventory values. */
  function UpdateInventory(item: InventoryItem, quantityAnswer: Option<Option<int>>, minStockAnswer: Option<int>,
                           locationAnswer: Option<string>): (r: Option<ProductCatalog.UpdateRequest>)
    ensures quantityAnswer.Some? && !QuantityAccepted(quantityAnswer.value) ==> r.None?
    ensures r.Some? <==> quantityAnswer.Some? && QuantityAccepted(quantityAnswer.value)
                         && minStockAnswer.Some? && locationAnswer.Some?
    ensures r.Some? ==>
              && r.value.quantity == quantityAnswer.value.value >= 0
              && r.value.minStockLevel == minStockAnswer.value
              && r.value.location == locationAnswer.value
              && r.value.name == Some(item.name) && r.value.sku == Some(item.sku)
              && r.value.description == item.description && r.value.category == item.category
              && r.value.price == Sent(item.price) && r.value.cost == Sent(item.cost)
  {
    if quantityAnswer.None? || !QuantityAccepted(quantityAnswer.value) || minStockAnswer.None? || locationAnswer.None? then None
    else Some(ProductCatalog.UpdateRequest(Some(item.name), item.description, item.category, Some(item.sku),
                                           Sent(item.price), Sent(item.cost), quantityAnswer.value.value, minStockAnswer.value,
                                           locationAnswer.value))
  }

  /** The update the page sends passes the server's validation exactly when
      the product's stored price and cost are both set and positive: a NULL
      price or cost goes back as `null`, which the server refuses. */
  lemma UpdateInventoryValidates(item: InventoryItem, quantityAnswer: Option<Option<int>>, minStockAnswer: Option<int>,
                                 locationAnswer: Option<string>)
    requires UpdateInventory(item, quantityAnswer, minStockAnswer, locationAnswer).Some?
    ensures ProductCatalog.UpdateError(UpdateInventory(item, quantityAnswer, minStockAnswer, locationAnswer).value).None?
            <==> item.price.Some? && item.price.value > 0 && item.cost.Some? && item.cost.value > 0
  {
    var body := UpdateInventory(item, quantityAnswer, minStockAnswer, locationAnswer).value;
    assert body.price == Sent(item.price) && body.cost == Sent(item.cost);
  }
}
