/**
 * The shop's product listing filter (search term, category, price range) and
 * the category list shown in its selector.
 */
module ShopFilter {
  import opened Options
  import opened Seqs
  import opened Catalog

  /** `toLowerCase`, restricted to ASCII letters. */
  function LowerChar(c: char): (d: char)
    ensures 'A' <= c <= 'Z' ==> d as int == c as int + 32
    ensures !('A' <= c <= 'Z') ==> d == c
    ensures !('A' <= d <= 'Z')
  {
    if 'A' <= c <= 'Z' then (c as int + 32) as char else c
  }

  function Lower(s: string): (r: string)
    ensures |r| == |s|
    ensures forall i :: 0 <= i < |s| ==> r[i] == LowerChar(s[i])
  {
    seq(|s|, i requires 0 <= i < |s| => LowerChar(s[i]))
  }

  /** `part` occurs in `text` starting at position `i`. */
  predicate OccursAt(text: string, part: string, i: int) {
    0 <= i && i + |part| <= |text| && text[i..i + |part|] == part
  }

  /** `text.includes(part)`. */
  predicate Includes(text: string, part: string) {
    exists i :: 0 <= i <= |text| && OccursAt(text, part, i)
  }

  /** The filter settings of the page: the search box, the category selector, the price slider. */
  datatype Criteria = Criteria(searchTerm: string, category: string, minPrice: int, maxPrice: int)

  predicate NameMatches(p: Product, term: string) {
    Includes(Lower(p.name), Lower(term))
  }

  predicate InCategory(p: Product, category: string) {
    p.category == Some(category)
  }

  predicate InPriceRange(p: Product, c: Criteria) {
    c.minPrice as real <= p.price <= c.maxPrice as real
  }

  /** The three conditions a listed product meets, each switched off by its neutral setting. */
  predicate Matches(p: Product, c: Criteria) {
    && (c.searchTerm == "" || NameMatches(p, c.searchTerm))
    && (c.category == "All" || InCategory(p, c.category))
    && InPriceRange(p, c)
  }

  /**
   * The filter effect: the search filter when the term is non-empty, the
   * category filter unless "All" is selected, then the price filter. The
   * result is the products that meet every condition, in catalog order.
   */
  function FilterProducts(all: seq<Product>, c: Criteria): (r: seq<Product>)
    ensures Subsequence(r, all)
    ensures forall i :: 0 <= i < |r| ==> r[i] in all && Matches(r[i], c)
    ensures forall i :: 0 <= i < |all| && Matches(all[i], c) ==> all[i] in r
  {
    var bySearch := if c.searchTerm != "" then Filter(all, p => NameMatches(p, c.searchTerm)) else all;
    var byCategory := if c.category != "All" then Filter(bySearch, p => InCategory(p, c.category)) else bySearch;
    var r := Filter(byCategory, p => InPriceRange(p, c));
    FilterProductsIsOneFilter(all, c);
    r
  }

  /** The three successive filters select what one filter by `Matches` selects. */
  lemma FilterProductsIsOneFilter(all: seq<Product>, c: Criteria)
    ensures
      var bySearch := if c.searchTerm != "" then Filter(all, p => NameMatches(p, c.searchTerm)) else all;
      var byCategory := if c.category != "All" then Filter(bySearch, p => InCategory(p, c.category)) else bySearch;
      Filter(byCategory, p => InPriceRange(p, c)) == Filter(all, p => Matches(p, c))
  {
    var search := (p: Product) => c.searchTerm == "" || NameMatches(p, c.searchTerm);
    var category := (p: Product) => c.category == "All" || InCategory(p, c.category);
    var searchAndCategory := (p: Product) => search(p) && category(p);
    var price := (p: Product) => InPriceRange(p, c);
    var matches := (p: Product) => Matches(p, c);
    // Stage one: the optional search filter is a filter by `search`.
    var bySearch := if c.searchTerm != "" then Filter(all, p => NameMatches(p, c.searchTerm)) else all;
    if c.searchTerm != "" {
      FilterAgreeing(all, p => NameMatches(p, c.searchTerm), search);
    } else {
      FilterKeepsAll(all, search);
    }
    assert bySearch == Filter(all, search);
    // Stage two: the optional category filter fuses with it.
    var byCategory := if c.category != "All" then Filter(bySearch, p => InCategory(p, c.category)) else bySearch;
    if c.category != "All" {
      FilterAgreeing(bySearch, p => InCategory(p, c.category), category);
    } else {
      FilterKeepsAll(bySearch, category);
    }
    FilterFusion(all, search, category, searchAndCategory);
    assert byCategory == Filter(all, searchAndCategory);
    // Stage three: the price filter.
    FilterFusion(all, searchAndCategory, price, matches);
  }

  /** The search ignores the case of ASCII letters in the term. */
  lemma SearchIgnoresCase(p: Product, term: string)
    ensures NameMatches(p, term) == NameMatches(p, Lower(term))
  {
    assert Lower(Lower(term)) == Lower(term);
  }

  /** `Boolean(category)`: a category that is present and not the empty string. */
  predicate Truthy(category: Option<string>) {
    category.Some? && category.value != ""
  }

  /** `products.map(p => p.category).filter(Boolean)`. */
  function TruthyCategories(products: seq<Product>): (r: seq<string>)
    ensures forall i :: 0 <= i < |r| ==> r[i] != "" && exists k :: 0 <= k < |products| && products[k].category == Some(r[i])
    ensures forall k :: 0 <= k < |products| && Truthy(products[k].category) ==> products[k].category.value in r
  {
    if products == [] then []
    else
      var rest := TruthyCategories(products[1..]);
      assert forall i :: 0 <= i < |rest| ==> exists k :: 0 <= k < |products| && products[k].category == Some(rest[i]) by {
        forall i | 0 <= i < |rest|
          ensures exists k :: 0 <= k < |products| && products[k].category == Some(rest[i])
        {
          var k :| 0 <= k < |products[1..]| && products[1..][k].category == Some(rest[i]);
          assert products[k + 1].category == Some(rest[i]);
        }
      }
      assert forall k :: 1 <= k < |products| ==> products[k] == products[1..][k - 1];
      if Truthy(products[0].category) then [products[0].category.value] + rest else rest
  }

  /**
   * The category selector's options: "All", then each category that some
   * product carries, once, in order of first appearance.
   */
  function Categories(products: seq<Product>): (r: seq<string>)
    ensures |r| >= 1 && r[0] == "All"
    ensures NoDuplicates(r[1..])
    ensures forall i :: 1 <= i < |r| ==> r[i] != "" && exists k :: 0 <= k < |products| && products[k].category == Some(r[i])
    ensures forall k :: 0 <= k < |products| && Truthy(products[k].category) ==> products[k].category.value in r[1..]
  {
    var found := TruthyCategories(products);
    var r := ["All"] + Distinct(found);
    assert r[1..] == Distinct(found);
    r
  }

  /** The categories after "All" come in the order of their first appearance among the products. */
  lemma CategoriesInFirstAppearanceOrder(products: seq<Product>)
    ensures var r := Categories(products)[1..];
      forall i, j :: 0 <= i < j < |r| ==>
        FirstIndex(TruthyCategories(products), r[i]) < FirstIndex(TruthyCategories(products), r[j])
  {
    var found := TruthyCategories(products);
    assert Categories(products)[1..] == Distinct(found);
    DistinctFirstAppearanceOrder(found);
  }

  /** Without products, as after a failed fetch, the selector offers only "All". */
  lemma NoProductsOnlyAll()
    ensures Categories([]) == ["All"]
  {
  }
}
