/** The product-list query shared by the mock server handler
    (packages/core/server/api/products/index.get.ts) and the mock branch of
    `useProducts`: an exact category filter followed by a case-insensitive
    substring search on name or brand. The mock product list is a parameter.

    A query value is `None` when it is missing; otherwise it holds the text
    `String(value)`. A missing value and the empty string are both falsy, so
    neither applies a filter. */
module ProductQuery {
  import opened Common
  import opened Catalog

  /** `if (value)` on a string-or-missing query value. */
  predicate Given(value: Option<string>)
  {
    value.Some? && value.value != ""
  }

  /** `p.category === category`; a product without a category never matches. */
  predicate InCategory(p: Product, category: string)
  {
    p.category == Some(category)
  }

  /** `name.toLowerCase().includes(q) || brand.toLowerCase().includes(q)`
      with `q = search.toLowerCase()`. */
  predicate MatchesSearch(p: Product, search: string)
  {
    IsSubstring(Lower(search), Lower(p.name)) || IsSubstring(Lower(search), Lower(p.brand))
  }

  /** The reference condition: a product survives the query when it passes
      every filter that is switched on. */
  predicate Keeps(p: Product, category: Option<string>, search: Option<string>)
  {
    (Given(category) ==> InCategory(p, category.value))
    && (Given(search) ==> MatchesSearch(p, search.value))
  }

  function CategoryTest(category: string): Product -> bool
  {
    p => InCategory(p, category)
  }

  function SearchTest(search: string): Product -> bool
  {
    p => MatchesSearch(p, search)
  }

  function KeepsTest(category: Option<string>, search: Option<string>): Product -> bool
  {
    p => Keeps(p, category, search)
  }

  /** The first step: `products.filter(p => p.category === category)`. */
  function ByCategory(products: seq<Product>, category: Option<string>): (r: seq<Product>)
    ensures IsSubsequence(r, products)
    ensures forall i :: 0 <= i < |r| ==> Given(category) ==> InCategory(r[i], category.value)
    ensures forall i :: 0 <= i < |products| && (Given(category) ==> InCategory(products[i], category.value)) ==> products[i] in r
  {
    if Given(category) then Filter(products, CategoryTest(category.value))
    else SubsequenceReflexive(products); products
  }

  /** The second step, on the output of the first. */
  function BySearch(products: seq<Product>, search: Option<string>): (r: seq<Product>)
    ensures IsSubsequence(r, products)
    ensures forall i :: 0 <= i < |r| ==> Given(search) ==> MatchesSearch(r[i], search.value)
    ensures forall i :: 0 <= i < |products| && (Given(search) ==> MatchesSearch(products[i], search.value)) ==> products[i] in r
  {
    if Given(search) then Filter(products, SearchTest(search.value))
    else SubsequenceReflexive(products); products
  }

  /** The two steps together select what the single reference test selects. */
  lemma PipelineIsKeeps(products: seq<Product>, category: Option<string>, search: Option<string>)
    ensures BySearch(ByCategory(products, category), search) == Filter(products, KeepsTest(category, search))
  {
    var keeps := KeepsTest(category, search);
    if Given(category) && Given(search) {
      FilterFilter(products, CategoryTest(category.value), SearchTest(search.value), keeps);
    } else if Given(category) {
      FilterCongruent(products, CategoryTest(category.value), keeps);
    } else if Given(search) {
      FilterCongruent(products, SearchTest(search.value), keeps);
    } else {
      FilterAll(products, keeps);
    }
  }

  /** The filter pipeline: category first, then search. Its result is the
      order-preserving selection of the products that `Keeps` accepts. */
  function FilterProducts(products: seq<Product>, category: Option<string>, search: Option<string>): (r: seq<Product>)
    ensures r == Filter(products, KeepsTest(category, search))
    ensures IsSubsequence(r, products)
    ensures forall i :: 0 <= i < |r| ==> Keeps(r[i], category, search)
    ensures forall i :: 0 <= i < |products| && Keeps(products[i], category, search) ==> products[i] in r
  {
    PipelineIsKeeps(products, category, search);
    BySearch(ByCategory(products, category), search)
  }

  /** The handler's response `{ products, total: products.length }`. */
  datatype ProductList = ProductList(products: seq<Product>, total: int)

  /** `GET /api/products`: the filtered copy of the mock products and its length. */
  function HandleProductList(mockProducts: seq<Product>, category: Option<string>, search: Option<string>): (r: ProductList)
    ensures r.total == |r.products|
    ensures r.products == Filter(mockProducts, KeepsTest(category, search))
    ensures IsSubsequence(r.products, mockProducts)
  {
    var products := FilterProducts(mockProducts, category, search);
    ProductList(products, |products|)
  }

  // ---------------------------------------------------------------------------
  // What the query promises
  // ---------------------------------------------------------------------------

  /** With no category and no search the handler returns every product, in order. */
  lemma NoQueryReturnsAll(mockProducts: seq<Product>, category: Option<string>, search: Option<string>)
    requires !Given(category) && !Given(search)
    ensures HandleProductList(mockProducts, category, search).products == mockProducts
    ensures HandleProductList(mockProducts, category, search).total == |mockProducts|
  {
  }

  /** An empty query string is the same as a missing one. */
  lemma EmptyValueIsAbsent(products: seq<Product>, category: Option<string>, search: Option<string>)
    ensures FilterProducts(products, Some(""), search) == FilterProducts(products, None, search)
    ensures FilterProducts(products, category, Some("")) == FilterProducts(products, category, None)
  {
  }

  /** The category filter keeps exactly the products of that category, and
      drops every product without one. */
  lemma CategoryFilterExact(products: seq<Product>, category: string, i: nat)
    requires category != "" && i < |products|
    ensures products[i] in FilterProducts(products, Some(category), None) <==> products[i].category == Some(category)
  {
    var r := FilterProducts(products, Some(category), None);
    if products[i] in r {
      var k :| 0 <= k < |r| && r[k] == products[i];
      assert Keeps(r[k], Some(category), None);
    }
  }

  /** The search filter keeps exactly the products whose lower-cased name or
      brand contains the lower-cased query. */
  lemma SearchFilterExact(products: seq<Product>, search: string, i: nat)
    requires search != "" && i < |products|
    ensures products[i] in FilterProducts(products, None, Some(search)) <==>
      IsSubstring(Lower(search), Lower(products[i].name)) || IsSubstring(Lower(search), Lower(products[i].brand))
  {
    var r := FilterProducts(products, None, Some(search));
    if products[i] in r {
      var k :| 0 <= k < |r| && r[k] == products[i];
      assert Keeps(r[k], None, Some(search));
    }
  }

  /** The search is case-insensitive: lower-casing the query first changes nothing. */
  lemma SearchIgnoresQueryCase(p: Product, search: string)
    ensures MatchesSearch(p, search) <==> MatchesSearch(p, Lower(search))
  {
    LowerIdempotent(search);
  }

  /** A query never adds products: the result is never longer than the input
      and holds only input products. */
  lemma ResultWithinInput(mockProducts: seq<Product>, category: Option<string>, search: Option<string>)
    ensures |HandleProductList(mockProducts, category, search).products| <= |mockProducts|
    ensures forall p :: p in HandleProductList(mockProducts, category, search).products ==> p in mockProducts
  {
    var r := HandleProductList(mockProducts, category, search).products;
        forall p | p in r
      ensures p in mockProducts
    {
      var k :| 0 <= k < |r| && r[k] == p;
    }
  }
}
