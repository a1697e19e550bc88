/** The data side of `useProducts` and `useProduct`
    (packages/core/composables/useProducts.ts): in mock mode, the filtered mock
    list and the lookup by string-coerced id; in live mode, the request path
    built with `URLSearchParams`. The mock product list and the
    form-urlencoding of names and values are parameters. */
module UseProducts {
  import opened Common
  import opened Catalog
  import opened ProductQuery

  /** The mock-mode result of `useProducts`: the same selection the server
      handler returns for the same category and search. */
  function MockProducts(mockProducts: seq<Product>, categoryVal: Option<string>, searchVal: Option<string>): (r: seq<Product>)
    ensures r == HandleProductList(mockProducts, categoryVal, searchVal).products
    ensures IsSubsequence(r, mockProducts)
    ensures forall i :: 0 <= i < |r| ==> Keeps(r[i], categoryVal, searchVal)
    ensures forall i :: 0 <= i < |mockProducts| && Keeps(mockProducts[i], categoryVal, searchVal) ==> mockProducts[i] in r
  {
    var results := ByCategory(mockProducts, categoryVal);
    PipelineIsKeeps(mockProducts, categoryVal, searchVal);
    BySearch(results, searchVal)
  }

  /** With neither option set, mock mode returns every mock product in order. */
  lemma MockNoOptionsReturnsAll(mockProducts: seq<Product>)
    ensures MockProducts(mockProducts, None, None) == mockProducts
  {
  }

  // ---------------------------------------------------------------------------
  // Live mode: the request path
  // ---------------------------------------------------------------------------

  type Entry = (string, string)

  /** The values stored under `name`, in order. */
  function ValuesOf(entries: seq<Entry>, name: string): seq<string>
  {
    if entries == [] then []
    else (if entries[0].0 == name then [entries[0].1] else []) + ValuesOf(entries[1..], name)
  }

  /** The entries under any other name, in order. */
  function Others(entries: seq<Entry>, name: string): seq<Entry>
  {
    if entries == [] then []
    else (if entries[0].0 != name then [entries[0]] else []) + Others(entries[1..], name)
  }

  /** The entries after `entries[0]` with every `name` entry removed and the
      first `name` entry's value replaced by `value`. */
  function ReplaceFirstDropRest(entries: seq<Entry>, name: string, value: string): seq<Entry>
  {
    if entries == [] then []
    else if entries[0].0 == name then [(name, value)] + Others(entries[1..], name)
    else [entries[0]] + ReplaceFirstDropRest(entries[1..], name, value)
  }

  predicate HasName(entries: seq<Entry>, name: string)
  {
    exists i :: 0 <= i < |entries| && entries[i].0 == name
  }

  /** URLSearchParams `set`: the first entry with that name takes the new
      value and the later ones are removed; without such an entry the pair
      is appended. */
  function SetEntry(entries: seq<Entry>, name: string, value: string): seq<Entry>
  {
    if HasName(entries, name) then ReplaceFirstDropRest(entries, name, value) else entries + [(name, value)]
  }

  lemma {:induction false} OthersWithoutName(entries: seq<Entry>, name: string)
    requires !HasName(entries, name)
    ensures Others(entries, name) == entries
    ensures ValuesOf(entries, name) == []
    decreases |entries|
  {
    if entries != [] {
      assert !HasName(entries[1..], name) by {
        forall i | 0 <= i < |entries[1..]|
          ensures entries[1..][i].0 != name
        {
          assert entries[1..][i] == entries[i + 1];
        }
      }
      OthersWithoutName(entries[1..], name);
    }
  }

  lemma {:induction false} OthersIdempotent(entries: seq<Entry>, name: string)
    ensures Others(Others(entries, name), name) == Others(entries, name)
    ensures ValuesOf(Others(entries, name), name) == []
    decreases |entries|
  {
    if entries != [] {
      OthersIdempotent(entries[1..], name);
      OthersConcat(if entries[0].0 != name then [entries[0]] else [], Others(entries[1..], name), name);
    }
  }

  lemma {:induction false} OthersConcat(a: seq<Entry>, b: seq<Entry>, name: string)
    ensures Others(a + b, name) == Others(a, name) + Others(b, name)
    ensures ValuesOf(a + b, name) == ValuesOf(a, name) + ValuesOf(b, name)
    decreases |a|
  {
    if a != [] {
      assert (a + b)[1..] == a[1..] + b;
      OthersConcat(a[1..], b, name);
    } else {
      assert a + b == b;
    }
  }

  lemma {:induction false} ReplaceFirstDefines(entries: seq<Entry>, name: string, value: string)
    requires HasName(entries, name)
    ensures ValuesOf(ReplaceFirstDropRest(entries, name, value), name) == [value]
    ensures Others(ReplaceFirstDropRest(entries, name, value), name) == Others(entries, name)
    decreases |entries|
  {
    var r := ReplaceFirstDropRest(entries, name, value);
    if entries[0].0 == name {
      OthersIdempotent(entries[1..], name);
      OthersConcat([(name, value)], Others(entries[1..], name), name);
    } else {
      assert HasName(entries[1..], name) by {
        var i :| 0 <= i < |entries| && entries[i].0 == name;
        assert entries[1..][i - 1] == entries[i];
      }
      ReplaceFirstDefines(entries[1..], name, value);
      OthersConcat([entries[0]], ReplaceFirstDropRest(entries[1..], name, value), name);
    }
  }

  /** After `set(name, value)` there is exactly one `name` entry, holding
      `value`, and the entries under other names are as they were. */
  lemma SetEntryDefines(entries: seq<Entry>, name: string, value: string)
    ensures ValuesOf(SetEntry(entries, name, value), name) == [value]
    ensures Others(SetEntry(entries, name, value), name) == Others(entries, name)
  {
    if HasName(entries, name) {
      ReplaceFirstDefines(entries, name, value);
    } else {
      OthersWithoutName(entries, name);
      OthersConcat(entries, [(name, value)], name);
    }
  }

  /** `toString()`: `name=value` pairs, encoded, joined with `&`. */
  function Serialize(entries: seq<Entry>, encode: string -> string): (r: string)
    ensures r == "" <==> entries == []
  {
    if entries == [] then ""
    else
      var pair := encode(entries[0].0) + "=" + encode(entries[0].1);
      assert pair[|encode(entries[0].0)|] == '=';
      if |entries| == 1 then pair else pair + "&" + Serialize(entries[1..], encode)
  }

  class SearchParams {
    var entries: seq<Entry>

    constructor ()
      ensures entries == []
    {
      entries := [];
    }

    method Set(name: string, value: string)
      modifies this
      ensures entries == SetEntry(old(entries), name, value)
      ensures ValuesOf(entries, name) == [value]
      ensures Others(entries, name) == Others(old(entries), name)
    {
      SetEntryDefines(entries, name, value);
      entries := SetEntry(entries, name, value);
    }

    function ToString(encode: string -> string): string
      reads this
    {
      Serialize(entries, encode)
    }
  }

  /** The pair as `toString()` writes it. */
  function Pair(name: string, value: string, encode: string -> string): string
  {
    encode(name) + "=" + encode(value)
  }

  /** The live-mode request path: `/products` alone when no parameter is
      set, otherwise `/products?` and the query, category before search. */
  method LivePath(categoryVal: Option<string>, searchVal: Option<string>, encode: string -> string) returns (path: string)
    ensures path == "/products" <==> !Given(categoryVal) && !Given(searchVal)
    ensures Given(categoryVal) && !Given(searchVal) ==> path == "/products?" + Pair("category", categoryVal.value, encode)
    ensures !Given(categoryVal) && Given(searchVal) ==> path == "/products?" + Pair("search", searchVal.value, encode)
    ensures Given(categoryVal) && Given(searchVal) ==>
      path == "/products?" + Pair("category", categoryVal.value, encode) + "&" + Pair("search", searchVal.value, encode)
  {
    var params := new SearchParams();
    if Given(categoryVal) {
      params.Set("category", categoryVal.value);
    }
    if Given(searchVal) {
      assert !HasName(params.entries, "search") by {
        if Given(categoryVal) {
          assert params.entries == [("category", categoryVal.value)];
          assert "category" != "search";
        }
      }
      params.Set("search", searchVal.value);
    }
    var queryStr := params.ToString(encode);
    if Given(categoryVal) && Given(searchVal) {
      var entries := params.entries;
      assert entries == [("category", categoryVal.value), ("search", searchVal.value)];
      assert Serialize(entries[1..], encode) == Pair("search", searchVal.value, encode);
      assert queryStr == Pair("category", categoryVal.value, encode) + "&" + Pair("search", searchVal.value, encode);
    }
    path := "/products" + (if queryStr != "" then "?" + queryStr else "");
    assert path == "/products" ==> queryStr == "" by {
      if queryStr != "" {
        assert |path| > |"/products"|;
      }
    }
  }

  // ---------------------------------------------------------------------------
  // Mock mode: one product by id
  // ---------------------------------------------------------------------------

  predicate FirstWithId(products: seq<Product>, idVal: Id, i: int)
  {
    0 <= i < |products| && SameId(products[i].id, idVal)
    && forall j :: 0 <= j < i ==> !SameId(products[j].id, idVal)
  }

  /** `mockProducts.find(p => String(p.id) === String(idVal)) ?? null`. */
  function FindProduct(products: seq<Product>, idVal: Id): (r: Option<Product>)
    ensures r.Some? ==> exists i :: FirstWithId(products, idVal, i) && r.value == products[i]
    ensures r.None? <==> forall i :: 0 <= i < |products| ==> !SameId(products[i].id, idVal)
    decreases |products|
  {
    if products == [] then None
    else if SameId(products[0].id, idVal) then
      assert FirstWithId(products, idVal, 0);
      Some(products[0])
    else
      var rest := FindProduct(products[1..], idVal);
      if rest.Some? then
        var k :| FirstWithId(products[1..], idVal, k) && rest.value == products[1..][k];
        assert products[k + 1] == products[1..][k];
        assert FirstWithId(products, idVal, k + 1);
        rest
      else
        assert forall i :: 1 <= i < |products| ==> products[i] == products[1..][i - 1];
        None
  }

  /** The lookup returns the first product whose id is String-equal to the
      requested one, whichever form either id has. */
  lemma FindProductIsFirst(products: seq<Product>, idVal: Id, i: nat)
    requires FirstWithId(products, idVal, i)
    ensures FindProduct(products, idVal) == Some(products[i])
  {
    var r := FindProduct(products, idVal);
    var k :| FirstWithId(products, idVal, k) && r.value == products[k];
    assert !(k < i) && !(i < k);
  }

  /** A route parameter "1" finds the product whose numeric id is 1. */
  lemma RouteParamFindsNumericId(p: Product, rest: seq<Product>)
    requires p.id == IntId(1)
    ensures FindProduct([p] + rest, StrId("1")) == Some(p)
  {
    NumberAndStringOne();
    assert ([p] + rest)[0] == p;
    FindProductIsFirst([p] + rest, StrId("1"), 0);
  }
}
