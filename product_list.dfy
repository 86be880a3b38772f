/** The product page's list filter: a search term matched against name and
    SKU, and an optional exact category. */
module ProductList {
  import opened Common
  import opened Seqs
  import opened Text

  /** A product as the page lists it; the category may be NULL. */
  datatype ListedProduct = ListedProduct(
    id: int,
    name: string,
    sku: string,
    category: Option<string>,
    quantity: int,
    minStockLevel: int)

  /** `searchProducts` stores the search box lower-cased. */
  function SearchTerm(input: string): (term: string)
    ensures term == Lower(input)
    ensures |term| == |input|
    ensures Lower(term) == term
  {
    LowerIdempotent(input);
    Lower(input)
  }

  /** The lower-cased name or SKU contains the (lower-cased) term. */
  predicate MatchesSearch(p: ListedProduct, term: string)
  {
    Includes(Lower(p.name), term) || Includes(Lower(p.sku), term)
  }

  /** No category is selected, or the product's is the selected one. */
  predicate MatchesCategory(p: ListedProduct, category: string)
  {
    category == "" || p.category == Some(category)
  }

  /** `applyFilters`: the products that match both the search term and the
      category, in their listed order; the input list is left as it is. */
  function ApplyFilters(all: seq<ListedProduct>, term: string, category: string): (r: seq<ListedProduct>)
    ensures forall i :: 0 <= i < |r| ==> r[i] in all && MatchesSearch(r[i], term) && MatchesCategory(r[i], category)
    ensures forall i :: 0 <= i < |all| && MatchesSearch(all[i], term) && MatchesCategory(all[i], category) ==> all[i] in r
    ensures forall i :: 0 <= i < |all| ==>
              multiset(r)[all[i]] == if MatchesSearch(all[i], term) && MatchesCategory(all[i], category)
                                     then multiset(all)[all[i]] else 0
    ensures IsSubsequence(r, all)
  {
    Filter(all, (p: ListedProduct) => MatchesSearch(p, term) && MatchesCategory(p, category))
  }

  /** With an empty search box and no category every product is listed. */
  lemma NoFiltersKeepAll(all: seq<ListedProduct>)
    ensures ApplyFilters(all, SearchTerm(""), "") == all
  {
    forall i | 0 <= i < |all|
      ensures MatchesSearch(all[i], "")
    {
      IncludesEmpty(Lower(all[i].name));
    }
    FilterKeepsAll(all, (p: ListedProduct) => MatchesSearch(p, "") && MatchesCategory(p, ""));
  }

  /** The search does not depend on the case of what was typed. */
  lemma SearchIgnoresCase(all: seq<ListedProduct>, input1: string, input2: string, category: string)
    requires Lower(input1) == Lower(input2)
    ensures ApplyFilters(all, SearchTerm(input1), category) == ApplyFilters(all, SearchTerm(input2), category)
  {
  }

  /** The stock badge's class: `status-low` exactly when the quantity is at or
      below the minimum stock level. */
  function BadgeClass(p: ListedProduct): (c: string)
    ensures c == "status-low" <==> p.quantity <= p.minStockLevel
    ensures c == "status-low" || c == "status-ok"
  {
    if p.quantity <= p.minStockLevel then "status-low" else "status-ok"
  }
}
