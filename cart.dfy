/** The shopping-cart store (packages/core/stores/cart.ts).

    The store holds a list of `{product, quantity}` entries. `addItem`,
    `removeItem`, `updateQuantity` and `clear` change that list in place;
    `isInCart` and three totals read it. Product ids are compared with `===`,
    which is structural equality on `Id`. Quantities are not validated, so an
    entry may hold a zero or negative quantity. */
module Cart {
  import opened Common
  import opened Catalog

  datatype CartItem = CartItem(product: Product, quantity: int)

  /** Some entry's product id is strictly equal to `id` (`items.some(...)`). */
  predicate InCart(items: seq<CartItem>, id: Id)
  {
    exists i :: 0 <= i < |items| && items[i].product.id == id
  }

  /** `i` is the first entry whose product id is `id`. */
  predicate FirstMatch(items: seq<CartItem>, id: Id, i: int)
  {
    0 <= i < |items| && items[i].product.id == id &&
    forall j :: 0 <= j < i ==> items[j].product.id != id
  }

  /** No two entries share a product id. */
  predicate DistinctIds(items: seq<CartItem>)
  {
    forall i, j :: 0 <= i < j < |items| ==> items[i].product.id != items[j].product.id
  }

  /** `items.findIndex(item => item.product.id === id)`, with `None` for -1;
      `items.find(...)` is the entry at this index. */
  function FindItem(items: seq<CartItem>, id: Id): (r: Option<nat>)
    ensures r.Some? ==> FirstMatch(items, id, r.value)
    ensures r.None? <==> !InCart(items, id)
    decreases |items|
  {
    if items == [] then None
    else if items[0].product.id == id then Some(0)
    else match FindItem(items[1..], id)
      case None => None
      case Some(k) => Some(k + 1)
  }

  lemma FindItemIsFirstMatch(items: seq<CartItem>, id: Id, i: int)
    requires FirstMatch(items, id, i)
    ensures FindItem(items, id) == Some(i)
  {
  }

  // ---------------------------------------------------------------------------
  // The list after each mutation
  // ---------------------------------------------------------------------------

  /** `addItem(product, quantity)`: raise the quantity of the entry already
      holding that id (its product record stays as it was), or push a new
      entry at the end. */
  function AfterAdd(items: seq<CartItem>, product: Product, quantity: int): (r: seq<CartItem>)
    ensures InCart(r, product.id)
    ensures |r| == if InCart(items, product.id) then |items| else |items| + 1
  {
    match FindItem(items, product.id)
    case Some(i) =>
      var r := items[i := items[i].(quantity := items[i].quantity + quantity)];
      assert r[i].product.id == product.id;
      r
    case None =>
      var r := items + [CartItem(product, quantity)];
      assert r[|items|].product.id == product.id;
      r
  }

  /** `removeItem(id)`: splice out the first entry with that id, if any. */
  function AfterRemove(items: seq<CartItem>, id: Id): (r: seq<CartItem>)
    ensures |r| == if InCart(items, id) then |items| - 1 else |items|
    ensures forall k :: 0 <= k < |r| ==> r[k] in items
  {
    match FindItem(items, id)
    case Some(i) => RemoveAt(items, i)
    case None => items
  }

  /** `updateQuantity(id, quantity)`: nothing when the id is absent; otherwise
      a quantity of zero or less removes the entry and a positive one
      replaces its quantity. */
  function AfterUpdate(items: seq<CartItem>, id: Id, quantity: int): (r: seq<CartItem>)
    ensures |r| == if InCart(items, id) && quantity <= 0 then |items| - 1 else |items|
    ensures InCart(items, id) && quantity > 0 ==> InCart(r, id)
  {
    match FindItem(items, id)
    case Some(i) =>
      if quantity <= 0 then AfterRemove(items, id)
      else
        var r := items[i := items[i].(quantity := quantity)];
        assert r[i].product.id == id;
        r
    case None => items
  }

  // ---------------------------------------------------------------------------
  // Totals: each `reduce` folds the entries from the first to the last
  // ---------------------------------------------------------------------------

  function TotalItemsOf(items: seq<CartItem>): int
  {
    if items == [] then 0
    else TotalItemsOf(items[..|items| - 1]) + items[|items| - 1].quantity
  }

  function LinePrice(item: CartItem): real
  {
    item.product.price * item.quantity as real
  }

  function TotalPriceOf(items: seq<CartItem>): real
  {
    if items == [] then 0.0
    else TotalPriceOf(items[..|items| - 1]) + LinePrice(items[|items| - 1])
  }

  /** What an entry adds to `totalSavings`: only a present, non-zero
      `saveAmount` is truthy. */
  function LineSavings(item: CartItem): real
  {
    match item.product.saveAmount
    case Some(s) => if s != 0.0 then s * item.quantity as real else 0.0
    case None => 0.0
  }

  function TotalSavingsOf(items: seq<CartItem>): real
  {
    if items == [] then 0.0
    else TotalSavingsOf(items[..|items| - 1]) + LineSavings(items[|items| - 1])
  }

  lemma {:induction false} TotalsConcat(a: seq<CartItem>, b: seq<CartItem>)
    ensures TotalItemsOf(a + b) == TotalItemsOf(a) + TotalItemsOf(b)
    ensures TotalPriceOf(a + b) == TotalPriceOf(a) + TotalPriceOf(b)
    ensures TotalSavingsOf(a + b) == TotalSavingsOf(a) + TotalSavingsOf(b)
    decreases |b|
  {
    if b == [] {
      assert a + b == a;
    } else {
      var n := |b| - 1;
      assert (a + b)[..|a + b| - 1] == a + b[..n];
      assert (a + b)[|a + b| - 1] == b[n];
      TotalsConcat(a, b[..n]);
    }
  }

  lemma TotalsSingle(x: CartItem)
    ensures TotalItemsOf([x]) == x.quantity
    ensures TotalPriceOf([x]) == LinePrice(x)
    ensures TotalSavingsOf([x]) == LineSavings(x)
  {
    assert [x][..0] == [];
  }

  /** The totals decompose around any entry. */
  lemma TotalsSplit(items: seq<CartItem>, i: nat)
    requires i < |items|
    ensures TotalItemsOf(items) == TotalItemsOf(items[..i]) + items[i].quantity + TotalItemsOf(items[i + 1..])
    ensures TotalPriceOf(items) == TotalPriceOf(items[..i]) + LinePrice(items[i]) + TotalPriceOf(items[i + 1..])
    ensures TotalSavingsOf(items) == TotalSavingsOf(items[..i]) + LineSavings(items[i]) + TotalSavingsOf(items[i + 1..])
  {
    assert items == items[..i] + [items[i]] + items[i + 1..];
    TotalsConcat(items[..i] + [items[i]], items[i + 1..]);
    TotalsConcat(items[..i], [items[i]]);
    TotalsSingle(items[i]);
  }

  /** Replacing one entry changes each total by the difference of the two
      entries' contributions. */
  lemma TotalsReplace(items: seq<CartItem>, i: nat, x: CartItem)
    requires i < |items|
    ensures TotalItemsOf(items[i := x]) == TotalItemsOf(items) - items[i].quantity + x.quantity
    ensures TotalPriceOf(items[i := x]) == TotalPriceOf(items) - LinePrice(items[i]) + LinePrice(x)
    ensures TotalSavingsOf(items[i := x]) == TotalSavingsOf(items) - LineSavings(items[i]) + LineSavings(x)
  {
    var u := items[i := x];
    TotalsSplit(items, i);
    TotalsSplit(u, i);
    assert u[..i] == items[..i] && u[i + 1..] == items[i + 1..];
  }

  // ---------------------------------------------------------------------------
  // What each operation promises
  // ---------------------------------------------------------------------------

  /** Adding an id that is not in the cart appends the new entry and leaves
      the others as they are. */
  lemma AddAbsentAppends(items: seq<CartItem>, product: Product, quantity: int)
    requires !InCart(items, product.id)
    ensures AfterAdd(items, product, quantity) == items + [CartItem(product, quantity)]
  {
  }

  /** Adding an id that is in the cart adds `quantity` to its first entry,
      keeps that entry's product record, and changes nothing else. */
  lemma AddPresentIncrements(items: seq<CartItem>, product: Product, quantity: int, i: nat)
    requires FirstMatch(items, product.id, i)
    ensures |AfterAdd(items, product, quantity)| == |items|
    ensures AfterAdd(items, product, quantity)[i] == CartItem(items[i].product, items[i].quantity + quantity)
    ensures forall j :: 0 <= j < |items| && j != i ==> AfterAdd(items, product, quantity)[j] == items[j]
  {
    FindItemIsFirstMatch(items, product.id, i);
  }

  lemma AddKeepsDistinct(items: seq<CartItem>, product: Product, quantity: int)
    requires DistinctIds(items)
    ensures DistinctIds(AfterAdd(items, product, quantity))
    ensures InCart(AfterAdd(items, product, quantity), product.id)
  {
    var r := AfterAdd(items, product, quantity);
    match FindItem(items, product.id)
    case Some(i) =>
      assert forall j :: 0 <= j < |r| ==> r[j].product.id == items[j].product.id;
    case None =>
      assert r[|items|].product.id == product.id;
  }

  /** Adding a new id raises `totalItems` by the quantity and `totalPrice`
      by the product's price times the quantity. */
  lemma TotalsAfterAddAbsent(items: seq<CartItem>, product: Product, quantity: int)
    requires !InCart(items, product.id)
    ensures TotalItemsOf(AfterAdd(items, product, quantity)) == TotalItemsOf(items) + quantity
    ensures TotalPriceOf(AfterAdd(items, product, quantity)) == TotalPriceOf(items) + product.price * quantity as real
  {
    TotalsConcat(items, [CartItem(product, quantity)]);
    TotalsSingle(CartItem(product, quantity));
  }

  /** Adding an id already present also raises `totalItems` by the quantity;
      `totalPrice` grows by the quantity times the price of the product record
      already in the cart, not that of the record passed in. */
  lemma TotalsAfterAddPresent(items: seq<CartItem>, product: Product, quantity: int, i: nat)
    requires FirstMatch(items, product.id, i)
    ensures TotalItemsOf(AfterAdd(items, product, quantity)) == TotalItemsOf(items) + quantity
    ensures TotalPriceOf(AfterAdd(items, product, quantity)) == TotalPriceOf(items) + items[i].product.price * quantity as real
  {
    FindItemIsFirstMatch(items, product.id, i);
    TotalsAfterIncrement(items, i, quantity);
  }

  lemma TotalsAfterIncrement(items: seq<CartItem>, i: nat, quantity: int)
    requires i < |items|
    ensures TotalItemsOf(items[i := items[i].(quantity := items[i].quantity + quantity)]) == TotalItemsOf(items) + quantity
    ensures TotalPriceOf(items[i := items[i].(quantity := items[i].quantity + quantity)])
         == TotalPriceOf(items) + items[i].product.price * quantity as real
  {
    TotalsReplace(items, i, items[i].(quantity := items[i].quantity + quantity));
    Distribute(items[i].product.price, items[i].quantity, quantity);
  }

  lemma Distribute(p: real, a: int, b: int)
    ensures p * (a + b) as real == p * a as real + p * b as real
  {
  }

  lemma TotalItemsAfterAdd(items: seq<CartItem>, product: Product, quantity: int)
    ensures TotalItemsOf(AfterAdd(items, product, quantity)) == TotalItemsOf(items) + quantity
  {
    match FindItem(items, product.id)
    case Some(i) => TotalsAfterAddPresent(items, product, quantity, i);
    case None => TotalsAfterAddAbsent(items, product, quantity);
  }

  /** Removing deletes the first entry with that id and keeps the others in
      order; with distinct ids the id is then no longer in the cart. */
  lemma RemovePresentDeletes(items: seq<CartItem>, id: Id, i: nat)
    requires FirstMatch(items, id, i)
    ensures AfterRemove(items, id) == items[..i] + items[i + 1..]
    ensures DistinctIds(items) ==> !InCart(AfterRemove(items, id), id)
  {
    FindItemIsFirstMatch(items, id, i);
    var r := AfterRemove(items, id);
    if DistinctIds(items) {
      forall k | 0 <= k < |r|
        ensures r[k].product.id != id
      {
        if k < i {
          assert r[k] == items[k];
        } else {
          assert r[k] == items[k + 1];
        }
      }
    }
  }

  lemma RemoveAbsentUnchanged(items: seq<CartItem>, id: Id)
    requires !InCart(items, id)
    ensures AfterRemove(items, id) == items
  {
  }

  lemma RemoveKeepsDistinct(items: seq<CartItem>, id: Id)
    requires DistinctIds(items)
    ensures DistinctIds(AfterRemove(items, id))
  {
    match FindItem(items, id)
    case Some(i) =>
      var r := RemoveAt(items, i);
      forall a, b | 0 <= a < b < |r|
        ensures r[a].product.id != r[b].product.id
      {
        var a', b' := if a < i then a else a + 1, if b < i then b else b + 1;
        assert r[a] == items[a'] && r[b] == items[b'] && a' < b';
      }
    case None =>
  }

  /** Removing an entry takes exactly its contribution out of each total. */
  lemma TotalsAfterRemove(items: seq<CartItem>, id: Id, i: nat)
    requires FirstMatch(items, id, i)
    ensures TotalItemsOf(AfterRemove(items, id)) == TotalItemsOf(items) - items[i].quantity
    ensures TotalPriceOf(AfterRemove(items, id)) == TotalPriceOf(items) - LinePrice(items[i])
    ensures TotalSavingsOf(AfterRemove(items, id)) == TotalSavingsOf(items) - LineSavings(items[i])
  {
    FindItemIsFirstMatch(items, id, i);
    TotalsSplit(items, i);
    TotalsConcat(items[..i], items[i + 1..]);
  }

  lemma UpdateNonPositiveRemoves(items: seq<CartItem>, id: Id, quantity: int)
    requires quantity <= 0
    ensures AfterUpdate(items, id, quantity) == AfterRemove(items, id)
  {
  }

  /** A positive quantity replaces only the first matching entry's quantity. */
  lemma UpdatePositiveSets(items: seq<CartItem>, id: Id, quantity: int, i: nat)
    requires FirstMatch(items, id, i) && quantity > 0
    ensures |AfterUpdate(items, id, quantity)| == |items|
    ensures AfterUpdate(items, id, quantity)[i] == CartItem(items[i].product, quantity)
    ensures forall j :: 0 <= j < |items| && j != i ==> AfterUpdate(items, id, quantity)[j] == items[j]
    ensures TotalItemsOf(AfterUpdate(items, id, quantity)) == TotalItemsOf(items) - items[i].quantity + quantity
  {
    FindItemIsFirstMatch(items, id, i);
    TotalsReplace(items, i, items[i].(quantity := quantity));
  }

  lemma UpdateAbsentUnchanged(items: seq<CartItem>, id: Id, quantity: int)
    requires !InCart(items, id)
    ensures AfterUpdate(items, id, quantity) == items
  {
  }

  lemma UpdateKeepsDistinct(items: seq<CartItem>, id: Id, quantity: int)
    requires DistinctIds(items)
    ensures DistinctIds(AfterUpdate(items, id, quantity))
  {
    match FindItem(items, id)
    case Some(i) =>
      if quantity <= 0 {
        RemoveKeepsDistinct(items, id);
      } else {
        var r := AfterUpdate(items, id, quantity);
        assert forall j :: 0 <= j < |r| ==> r[j].product.id == items[j].product.id;
      }
    case None =>
  }

  /** With no negative quantity, price or `saveAmount` in the cart, none of
      the three totals is negative. */
  lemma {:induction false} TotalsNonNegative(items: seq<CartItem>)
    requires forall i :: 0 <= i < |items| ==> items[i].quantity >= 0 && items[i].product.price >= 0.0
    requires forall i :: 0 <= i < |items| ==> items[i].product.saveAmount.Some? ==> items[i].product.saveAmount.value >= 0.0
    ensures TotalItemsOf(items) >= 0
    ensures TotalPriceOf(items) >= 0.0
    ensures TotalSavingsOf(items) >= 0.0
    decreases |items|
  {
    if items != [] {
      var last := items[|items| - 1];
      TotalsNonNegative(items[..|items| - 1]);
      assert LinePrice(last) >= 0.0 by {
        NonNegativeProduct(last.product.price, last.quantity);
      }
      match last.product.saveAmount
      case Some(a) => NonNegativeProduct(a, last.quantity);
      case None =>
    }
  }

  lemma NonNegativeProduct(p: real, q: int)
    requires p >= 0.0 && q >= 0
    ensures p * q as real >= 0.0
  {
  }

  /** Without a truthy `saveAmount` anywhere, `totalSavings` is 0. */
  lemma {:induction false} NoSavingsWithoutSaveAmount(items: seq<CartItem>)
    requires forall i :: 0 <= i < |items| ==> items[i].product.saveAmount.None? || items[i].product.saveAmount == Some(0.0)
    ensures TotalSavingsOf(items) == 0.0
    decreases |items|
  {
    if items != [] {
      NoSavingsWithoutSaveAmount(items[..|items| - 1]);
    }
  }

  /** Membership is strict: a cart holding product 1 does not hold "1". */
  lemma InCartIsStrict(p: Product, quantity: int)
    requires p.id == IntId(1)
    ensures InCart([CartItem(p, quantity)], IntId(1))
    ensures !InCart([CartItem(p, quantity)], StrId("1"))
  {
    assert [CartItem(p, quantity)][0].product.id == IntId(1);
  }

  // ---------------------------------------------------------------------------
  // The store
  // ---------------------------------------------------------------------------

  class CartStore {
    var items: seq<CartItem>

    /** A new store holds no entries, so every total is 0. */
    constructor ()
      ensures items == []
      ensures TotalItems() == 0 && TotalPrice() == 0.0 && TotalSavings() == 0.0
    {
      items := [];
    }

    function TotalItems(): int
      reads this
    {
      TotalItemsOf(items)
    }

    function TotalPrice(): real
      reads this
    {
      TotalPriceOf(items)
    }

    function TotalSavings(): real
      reads this
    {
      TotalSavingsOf(items)
    }

    function IsInCart(productId: Id): bool
      reads this
    {
      InCart(items, productId)
    }

    method AddItem(product: Product, quantity: int := 1)
      modifies this
      ensures items == AfterAdd(old(items), product, quantity)
      ensures !old(IsInCart(product.id)) ==> items == old(items) + [CartItem(product, quantity)]
      ensures old(IsInCart(product.id)) ==> |items| == |old(items)|
      ensures DistinctIds(old(items)) ==> DistinctIds(items) && IsInCart(product.id)
      ensures TotalItems() == old(TotalItems()) + quantity
    {
      var existing := FindItem(items, product.id);
      if existing.Some? {
        var i := existing.value;
        items := items[i := items[i].(quantity := items[i].quantity + quantity)];
      } else {
        items := items + [CartItem(product, quantity)];
      }
      TotalItemsAfterAdd(old(items), product, quantity);
      if DistinctIds(old(items)) {
        AddKeepsDistinct(old(items), product, quantity);
      }
    }

    method RemoveItem(productId: Id)
      modifies this
      ensures items == AfterRemove(old(items), productId)
      ensures !old(IsInCart(productId)) ==> items == old(items)
      ensures DistinctIds(old(items)) ==> DistinctIds(items) && !IsInCart(productId)
    {
      var index := FindItem(items, productId);
      if index.Some? {
        var i := index.value;
        items := items[..i] + items[i + 1..];
        RemovePresentDeletes(old(items), productId, i);
      }
      if DistinctIds(old(items)) {
        RemoveKeepsDistinct(old(items), productId);
      }
    }

    method UpdateQuantity(productId: Id, quantity: int)
      modifies this
      ensures items == AfterUpdate(old(items), productId, quantity)
      ensures !old(IsInCart(productId)) ==> items == old(items)
      ensures DistinctIds(old(items)) ==> DistinctIds(items)
    {
      var item := FindItem(items, productId);
      if item.Some? {
        var i := item.value;
        if quantity <= 0 {
          RemoveItem(productId);
        } else {
          items := items[i := items[i].(quantity := quantity)];
        }
      }
      if DistinctIds(old(items)) {
        UpdateKeepsDistinct(old(items), productId, quantity);
      }
    }

    method Clear()
      modifies this
      ensures items == []
      ensures TotalItems() == 0 && TotalPrice() == 0.0 && TotalSavings() == 0.0
    {
      items := [];
    }
  }
}
