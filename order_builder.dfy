/** The order form of the browser client: a list of draft items the user
    builds one prompt at a time, with its running total, and the request body
    it posts to `/api/orders`. Prompts and fetched data are parameters. */
module OrderBuilder {
  import opened Common
  import opened Seqs
  import OrderPlacement

  /** A product as `/api/products` lists it, with its stock on hand. */
  datatype CatalogProduct = CatalogProduct(id: int, name: string, price: int, quantity: int)

  /** An entry of `orderItems`: the product's id, name and price copied when
      it was added, and the quantity asked for. */
  datatype DraftItem = DraftItem(productId: int, name: string, price: int, quantity: int)

  /** How an attempt to add an item ends; only `Added` changes the list. */
  datatype AddOutcome =
    | Added
    | ProductsNotLoaded
    | Cancelled
    | UnknownProduct
    | InvalidQuantity
    | InsufficientStock(available: int)

  /** `k` is the first position of a product with this id. */
  ghost predicate FirstProductAt(products: seq<CatalogProduct>, id: int, k: int)
  {
    0 <= k < |products| && products[k].id == id && forall j :: 0 <= j < k ==> products[j].id != id
  }

  /** Where `splice(index, 1)` starts: a negative index counts from the end,
      and both ends are clamped. */
  function SpliceStart(len: nat, index: int): (start: nat)
    ensures start <= len
    ensures 0 <= index <= len ==> start == index
    ensures index < 0 && len + index >= 0 ==> start == len + index
  {
    if index < 0 then (if len + index < 0 then 0 else len + index)
    else if index > len then len
    else index
  }

  /** `s` after `s.splice(index, 1)`. */
  function SpliceOne<T>(s: seq<T>, index: int): (r: seq<T>)
    ensures 0 <= index < |s| ==> |r| == |s| - 1 && r[..index] == s[..index] && r[index..] == s[index + 1..]
    ensures index >= |s| ==> r == s
    ensures forall i :: 0 <= i < |r| ==> r[i] in s
  {
    var k := SpliceStart(|s|, index);
    if k < |s| then s[..k] + s[k + 1..] else s
  }

  /** What one draft item adds to the displayed total. */
  function DraftAmount(item: DraftItem): int
  {
    item.price * item.quantity
  }

  /** The total the form displays. */
  function DisplayedTotal(items: seq<DraftItem>): int
  {
    Sum(items, DraftAmount)
  }

  /** Adding a draft item raises the displayed total by its price times its
      quantity. */
  lemma DisplayedTotalAppend(items: seq<DraftItem>, item: DraftItem)
    ensures DisplayedTotal(items + [item]) == DisplayedTotal(items) + item.price * item.quantity
  {
    assert (items + [item])[..|items|] == items;
  }

  /** Removing the draft item at an index inside the list lowers the displayed
      total by exactly that item's price times its quantity. */
  lemma DisplayedTotalRemove(items: seq<DraftItem>, index: int)
    requires 0 <= index < |items|
    ensures DisplayedTotal(SpliceOne(items, index)) == DisplayedTotal(items) - items[index].price * items[index].quantity
  {
    var before, after := items[..index], items[index + 1..];
    assert items == before + ([items[index]] + after);
    assert SpliceOne(items, index) == before + after;
    SumAppend(before, [items[index]] + after, DraftAmount);
    SumAppend([items[index]], after, DraftAmount);
    SumAppend(before, after, DraftAmount);
    assert Sum([items[index]], DraftAmount) == DraftAmount(items[index]);
  }

  /** The `items` of the posted body: each draft item cut down to its product
      id, quantity and price, in order. */
  function PayloadItems(items: seq<DraftItem>): (r: seq<OrderPlacement.ItemRequest>)
    ensures |r| == |items|
    ensures forall i :: 0 <= i < |items| ==>
              r[i] == OrderPlacement.ItemRequest(Some(items[i].productId), Some(items[i].quantity), Some(items[i].price))
  {
    seq(|items|, i requires 0 <= i < |items| =>
      OrderPlacement.ItemRequest(Some(items[i].productId), Some(items[i].quantity), Some(items[i].price)))
  }

  /** The submit handler: refuses an empty list, otherwise builds the body
      posted to `/api/orders` from the three customer fields and the items. */
  function Submission(items: seq<DraftItem>, name: string, email: string, phone: string)
    : (r: Option<OrderPlacement.OrderRequest>)
    ensures r.None? <==> items == []
    ensures r.Some? ==> r.value.items == Some(PayloadItems(items)) && r.value.customerName == Some(name)
                        && r.value.customerEmail == Some(email) && r.value.customerPhone == Some(phone)
  {
    if items == [] then None
    else Some(OrderPlacement.OrderRequest(Some(name), Some(email), Some(phone), Some(PayloadItems(items))))
  }

  /** A submitted body passes the server's item validation whenever every draft
      item names a non-zero product and has a positive price (the form itself
      only admits positive quantities), and the server's total then equals the
      total the form displayed. */
  lemma {:induction false} SubmissionAccepted(items: seq<DraftItem>, name: string, email: string, phone: string)
    requires items != []
    requires forall i :: 0 <= i < |items| ==> items[i].productId != 0 && items[i].price > 0 && items[i].quantity > 0
    ensures var req := Submission(items, name, email, phone).value;
            var shape := OrderPlacement.ValidateItems(req.items.value);
            && shape.Success?
            && |shape.value| == |items|
            && (forall i :: 0 <= i < |items| ==>
                  shape.value[i] == OrderPlacement.LineItem(items[i].productId, items[i].quantity, items[i].price))
            && OrderPlacement.Total(shape.value) == DisplayedTotal(items)
  {
    var req := Submission(items, name, email, phone).value;
    var payload := PayloadItems(items);
    assert forall i :: 0 <= i < |payload| ==> OrderPlacement.WellFormed(payload[i]);
    var lines := OrderPlacement.ValidateItems(payload).value;
    SumPointwise(lines, OrderPlacement.Subtotal, items, DraftAmount);
  }

  class OrderForm {
    var allProducts: seq<CatalogProduct>
    var orderItems: seq<DraftItem>

    /** Every draft item has a positive quantity. */
    ghost predicate Valid()
      reads this
    {
      forall i :: 0 <= i < |orderItems| ==> orderItems[i].quantity > 0
    }

    /** The page before products have loaded. */
    constructor ()
      ensures Valid() && allProducts == [] && orderItems == []
    {
      allProducts := [];
      orderItems := [];
    }

    /** `loadProducts`: the list fetched from the server replaces the old one. */
    method LoadProducts(products: seq<CatalogProduct>)
      requires Valid()
      modifies this
      ensures Valid() && allProducts == products && orderItems == old(orderItems)
    {
      allProducts := products;
    }

    /** Opening or closing the order form empties the list. */
    method ResetOrderItems()
      modifies this
      ensures Valid() && orderItems == [] && allProducts == old(allProducts)
    {
      orderItems := [];
    }

    /** `addOrderItem`, with the two prompts' answers as parameters (`None`
        for a cancelled or unparseable answer). Appends one item when products
        are loaded, the id names one, and the quantity is positive and within
        that product's stock; otherwise leaves the list as it was. */
    method AddOrderItem(productIdInput: Option<int>, quantityInput: Option<int>) returns (outcome: AddOutcome)
      requires Valid()
      modifies this
      ensures Valid() && allProducts == old(allProducts)
      ensures outcome == ProductsNotLoaded <==> allProducts == []
      ensures outcome != Added ==> orderItems == old(orderItems)
      ensures outcome == UnknownProduct ==>
                productIdInput.Some? && forall i :: 0 <= i < |allProducts| ==> allProducts[i].id != productIdInput.value
      ensures outcome.InsufficientStock? ==> quantityInput.Some? && quantityInput.value > outcome.available
      ensures outcome == Added <==>
                && allProducts != [] && productIdInput.Some? && quantityInput.Some? && quantityInput.value > 0
                && exists k :: FirstProductAt(allProducts, productIdInput.value, k)
                               && quantityInput.value <= allProducts[k].quantity
      ensures outcome == Added ==>
                exists k :: FirstProductAt(allProducts, productIdInput.value, k)
                            && orderItems == old(orderItems) + [DraftItem(allProducts[k].id, allProducts[k].name,
                                                                          allProducts[k].price, quantityInput.value)]
    {
      if |allProducts| == 0 {
        return ProductsNotLoaded;
      }
      if productIdInput.None? {
        return Cancelled;
      }
      var id := productIdInput.value;
      var k := FindFirst(allProducts, (p: CatalogProduct) => p.id == id);
      if k == -1 {
        return UnknownProduct;
      }
      assert FirstProductAt(allProducts, id, k);
      var product := allProducts[k];
      if Falsy(quantityInput) || quantityInput.value <= 0 {
        return InvalidQuantity;
      }
      var quantity := quantityInput.value;
      if quantity > product.quantity {
        return InsufficientStock(product.quantity);
      }
      orderItems := orderItems + [DraftItem(product.id, product.name, product.price, quantity)];
      outcome := Added;
    }

    /** `removeOrderItem`: `orderItems.splice(index, 1)`. */
    method RemoveOrderItem(index: int)
      requires Valid()
      modifies this
      ensures Valid() && allProducts == old(allProducts)
      ensures orderItems == SpliceOne(old(orderItems), index)
    {
      orderItems := SpliceOne(orderItems, index);
    }
  }
}
