/**
 * The products page's list filter: a case-insensitive search over name, sku and
 * description, then the stock tab ("low", "out", "in"; any other tab shows all).
 */
module ProductsPage {
  import opened Wrappers
  import Text
  import Seqs
  import opened InventoryStatus

  /** `(product.stockAvailable || 0)` is `Stock`; in `<=`/`>` a null reorder level compares as 0. */
  function TabLevel(p: ProductView): int {
    p.reorderLevel.GetOr(0)
  }

  /** The search test, with `query` already lower-cased; an empty description is falsy and never matches. */
  predicate SearchMatches(p: ProductView, query: string)
    ensures query == "" ==> SearchMatches(p, query)
    ensures p.description == Some("") ==>
            (SearchMatches(p, query) <==> Text.Includes(Text.ToLower(p.name), query) || Text.Includes(Text.ToLower(p.sku), query))
  {
    Text.IncludesEmpty(Text.ToLower(p.name));
    Text.Includes(Text.ToLower(p.name), query) ||
    Text.Includes(Text.ToLower(p.sku), query) ||
    (p.description.Some? && p.description.value != "" && Text.Includes(Text.ToLower(p.description.value), query))
  }

  predicate IsLow(p: ProductView) { Stock(p) > 0 && Stock(p) <= TabLevel(p) }
  predicate IsOut(p: ProductView) { Stock(p) == 0 }
  predicate IsIn(p: ProductView) { Stock(p) > TabLevel(p) }

  /** What the tab keeps; a tab other than low, out and in keeps everything. */
  predicate TabKeeps(tab: string, p: ProductView) {
    if tab == "low" then IsLow(p)
    else if tab == "out" then IsOut(p)
    else if tab == "in" then IsIn(p)
    else true
  }

  function SearchTest(query: string): ProductView -> bool {
    p => SearchMatches(p, query)
  }

  /** The search step alone: all products for an empty query. */
  function Searched(products: seq<ProductView>, searchQuery: string): (r: seq<ProductView>)
    ensures |r| <= |products| && forall i :: 0 <= i < |r| ==> r[i] in products
    ensures searchQuery != "" ==> forall i :: 0 <= i < |r| ==> SearchMatches(r[i], Text.ToLower(searchQuery))
  {
    if searchQuery != "" then Seqs.Filter(products, SearchTest(Text.ToLower(searchQuery)))
    else products
  }

  /** The `useEffect` that computes `filteredProducts` from the products, the query and the tab. */
  function FilterProducts(products: seq<ProductView>, searchQuery: string, activeTab: string): (r: seq<ProductView>)
    ensures |r| <= |products|
    ensures forall i :: 0 <= i < |r| ==> r[i] in products && TabKeeps(activeTab, r[i])
    ensures searchQuery != "" ==> forall i :: 0 <= i < |r| ==> SearchMatches(r[i], Text.ToLower(searchQuery))
  {
    var filtered := Searched(products, searchQuery);
    if activeTab == "low" then Seqs.Filter(filtered, IsLow)
    else if activeTab == "out" then Seqs.Filter(filtered, IsOut)
    else if activeTab == "in" then Seqs.Filter(filtered, IsIn)
    else filtered
  }

  /** The combined test a product must pass to be shown. */
  predicate Shown(p: ProductView, searchQuery: string, activeTab: string) {
    (searchQuery == "" || SearchMatches(p, Text.ToLower(searchQuery))) && TabKeeps(activeTab, p)
  }

  /** The two filters in a row are one filter by the combined test. */
  lemma {:induction false} FilterIsOneFilter(products: seq<ProductView>, searchQuery: string, activeTab: string)
    ensures FilterProducts(products, searchQuery, activeTab) ==
            Seqs.Filter(products, p => Shown(p, searchQuery, activeTab))
  {
    var shown := p => Shown(p, searchQuery, activeTab);
    var tab := p => TabKeeps(activeTab, p);
    var searched := Searched(products, searchQuery);
    if activeTab == "low" {
      Seqs.FilterCongruent(searched, IsLow, tab);
    } else if activeTab == "out" {
      Seqs.FilterCongruent(searched, IsOut, tab);
    } else if activeTab == "in" {
      Seqs.FilterCongruent(searched, IsIn, tab);
    } else {
      Seqs.FilterKeepsAll(searched, tab);
    }
    assert FilterProducts(products, searchQuery, activeTab) == Seqs.Filter(searched, tab);
    if searchQuery != "" {
      var search := SearchTest(Text.ToLower(searchQuery));
      Seqs.FilterFilter(products, search, tab, shown);
    } else {
      Seqs.FilterCongruent(products, tab, shown);
    }
  }

  /** A product is shown exactly when it is one of the products and passes the search and the tab. */
  lemma {:induction false} ShownIff(products: seq<ProductView>, searchQuery: string, activeTab: string, p: ProductView)
    ensures p in FilterProducts(products, searchQuery, activeTab) <==>
            p in products && Shown(p, searchQuery, activeTab)
  {
    FilterIsOneFilter(products, searchQuery, activeTab);
    var r := FilterProducts(products, searchQuery, activeTab);
    if p in r {
      var i :| 0 <= i < |r| && r[i] == p;
    }
    if p in products && Shown(p, searchQuery, activeTab) {
      var i :| 0 <= i < |products| && products[i] == p;
    }
  }

  /** The list keeps the order of the products: it is a subsequence of the search result and of the products. */
  lemma {:induction false} FilterKeepsOrder(products: seq<ProductView>, searchQuery: string, activeTab: string)
    ensures Seqs.IsSubsequence(FilterProducts(products, searchQuery, activeTab), Searched(products, searchQuery))
    ensures Seqs.IsSubsequence(FilterProducts(products, searchQuery, activeTab), products)
  {
    FilterIsOneFilter(products, searchQuery, activeTab);
    Seqs.FilterIsSubsequence(products, p => Shown(p, searchQuery, activeTab));
    var searched := Searched(products, searchQuery);
    if activeTab == "low" {
      Seqs.FilterIsSubsequence(searched, IsLow);
    } else if activeTab == "out" {
      Seqs.FilterIsSubsequence(searched, IsOut);
    } else if activeTab == "in" {
      Seqs.FilterIsSubsequence(searched, IsIn);
    } else {
      SubsequenceReflexive(searched);
    }
  }

  lemma {:induction false} SubsequenceReflexive(s: seq<ProductView>)
    ensures Seqs.IsSubsequence(s, s)
    decreases |s|
  {
    if s != [] {
      SubsequenceReflexive(s[1..]);
    }
  }

  /** With an empty query and a tab other than low, out and in, the list is all products. */
  lemma NoQueryOtherTabShowsAll(products: seq<ProductView>, activeTab: string)
    requires activeTab !in {"low", "out", "in"}
    ensures FilterProducts(products, "", activeTab) == products
  {
  }

  /** Filtering the shown list again with the same query and tab changes nothing. */
  lemma {:induction false} FilterIdempotent(products: seq<ProductView>, searchQuery: string, activeTab: string)
    ensures var shown := FilterProducts(products, searchQuery, activeTab);
            FilterProducts(shown, searchQuery, activeTab) == shown
  {
    var shown := FilterProducts(products, searchQuery, activeTab);
    var keep := p => Shown(p, searchQuery, activeTab);
    FilterIsOneFilter(products, searchQuery, activeTab);
    FilterIsOneFilter(shown, searchQuery, activeTab);
    Seqs.FilterKeepsAll(shown, keep);
  }

  /**
   * The low tab excludes the other two; out and in overlap only for a product with
   * no stock and a negative reorder level.
   */
  lemma TabsDisjoint(p: ProductView)
    ensures !(IsLow(p) && IsOut(p)) && !(IsLow(p) && IsIn(p))
    ensures IsOut(p) && IsIn(p) <==> Stock(p) == 0 && TabLevel(p) < 0
  {
  }

  /** With non-negative stock and reorder level, a product falls in exactly one tab. */
  lemma ExactlyOneTab(p: ProductView)
    requires Stock(p) >= 0 && TabLevel(p) >= 0
    ensures (if IsLow(p) then 1 else 0) + (if IsOut(p) then 1 else 0) + (if IsIn(p) then 1 else 0) == 1
  {
  }

  /** The empty query and a tab: out shows exactly the products with no (or zero) stock. */
  lemma {:induction false} OutTabShowsNoStock(products: seq<ProductView>, p: ProductView)
    ensures p in FilterProducts(products, "", "out") <==> p in products && Stock(p) == 0
  {
    ShownIff(products, "", "out", p);
  }
}
