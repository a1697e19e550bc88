/** The favorites store (packages/core/stores/favorites.ts).

    The store holds a list of product ids, each kept exactly as it was given
    (number or string). Unlike the cart, ids are compared by their string
    forms, `String(id) === String(x)`, so 1 and "1" name the same favorite. */
module Favorites {
  import opened Common

  /** `productIds.some(id => String(id) === String(x))`. */
  predicate IsFavoriteIn(ids: seq<Id>, x: Id)
  {
    exists i :: 0 <= i < |ids| && SameId(ids[i], x)
  }

  /** `i` is the first stored id String-equal to `x`. */
  predicate FirstSame(ids: seq<Id>, x: Id, i: int)
  {
    0 <= i < |ids| && SameId(ids[i], x) && forall j :: 0 <= j < i ==> !SameId(ids[j], x)
  }

  /** No two stored ids are String-equal. */
  predicate NoStringDuplicates(ids: seq<Id>)
  {
    forall i, j :: 0 <= i < j < |ids| ==> !SameId(ids[i], ids[j])
  }

  /** `productIds.findIndex(id => String(id) === String(x))`, `None` for -1. */
  function FindFavorite(ids: seq<Id>, x: Id): (r: Option<nat>)
    ensures r.Some? ==> FirstSame(ids, x, r.value)
    ensures r.None? <==> !IsFavoriteIn(ids, x)
    decreases |ids|
  {
    if ids == [] then None
    else if SameId(ids[0], x) then Some(0)
    else match FindFavorite(ids[1..], x)
      case None => None
      case Some(k) => assert ids[k + 1] == ids[1..][k]; Some(k + 1)
  }

  lemma FindFavoriteIsFirstSame(ids: seq<Id>, x: Id, i: int)
    requires FirstSame(ids, x, i)
    ensures FindFavorite(ids, x) == Some(i)
  {
  }

  /** `toggle(x)`: splice out the first String-equal id, or push `x` as given. */
  function Toggled(ids: seq<Id>, x: Id): (r: seq<Id>)
    ensures |r| == if IsFavoriteIn(ids, x) then |ids| - 1 else |ids| + 1
    ensures !IsFavoriteIn(ids, x) ==> IsFavoriteIn(r, x)
  {
    match FindFavorite(ids, x)
    case Some(i) => RemoveAt(ids, i)
    case None =>
      var r := ids + [x];
      assert SameId(r[|ids|], x);
      r
  }

  /** `add(x)`: push `x` unless it is already a favorite. */
  function Added(ids: seq<Id>, x: Id): (r: seq<Id>)
    ensures IsFavoriteIn(r, x)
    ensures |ids| <= |r| && r[..|ids|] == ids
  {
    if IsFavoriteIn(ids, x) then ids
    else
      var r := ids + [x];
      assert SameId(r[|ids|], x);
      r
  }

  /** `remove(x)`: splice out the first String-equal id, if any. */
  function Removed(ids: seq<Id>, x: Id): (r: seq<Id>)
    ensures |r| == if IsFavoriteIn(ids, x) then |ids| - 1 else |ids|
    ensures forall k :: 0 <= k < |r| ==> r[k] in ids
  {
    match FindFavorite(ids, x)
    case Some(i) => RemoveAt(ids, i)
    case None => ids
  }

  // ---------------------------------------------------------------------------
  // What the operations promise
  // ---------------------------------------------------------------------------

  /** Toggling removes the first String-equal id when there is one, and
      otherwise appends `x` in its own form. */
  lemma ToggleRemovesOrAppends(ids: seq<Id>, x: Id)
    ensures IsFavoriteIn(ids, x) ==> Toggled(ids, x) == Removed(ids, x)
    ensures !IsFavoriteIn(ids, x) ==> Toggled(ids, x) == ids + [x]
  {
  }

  /** Toggling a value that is not a favorite, then any String-equal value,
      restores the list. */
  lemma ToggleTwiceRestores(ids: seq<Id>, x: Id, y: Id)
    requires !IsFavoriteIn(ids, x) && SameId(x, y)
    ensures Toggled(Toggled(ids, x), y) == ids
  {
    var once := ids + [x];
    assert once[|ids|] == x;
    assert FirstSame(once, y, |ids|);
    FindFavoriteIsFirstSame(once, y, |ids|);
    assert once[..|ids|] == ids;
  }

  /** `toggle(1)` then `toggle('1')` on an empty store leaves it empty. */
  lemma ToggleNumberThenString()
    ensures Toggled(Toggled([], IntId(1)), StrId("1")) == []
  {
    NumberAndStringOne();
    ToggleTwiceRestores([], IntId(1), StrId("1"));
  }

  /** After `add(x)` the value is a favorite; a second `add` changes nothing,
      so adding twice to an empty store gives a count of 1. */
  lemma AddIsIdempotent(ids: seq<Id>, x: Id)
    ensures IsFavoriteIn(Added(ids, x), x)
    ensures Added(Added(ids, x), x) == Added(ids, x)
    ensures |Added(Added([], x), x)| == 1
  {
    if !IsFavoriteIn(ids, x) {
      assert (ids + [x])[|ids|] == x;
    }
    assert Added([], x) == [x];
    assert [x][0] == x && SameId([x][0], x);
  }

  /** Removing deletes the first String-equal id and keeps the rest in order;
      with no String-duplicates the value is then no longer a favorite. */
  lemma RemovePresentDeletes(ids: seq<Id>, x: Id, i: nat)
    requires FirstSame(ids, x, i)
    ensures Removed(ids, x) == ids[..i] + ids[i + 1..]
    ensures |Removed(ids, x)| == |ids| - 1
    ensures NoStringDuplicates(ids) ==> !IsFavoriteIn(Removed(ids, x), x)
  {
    FindFavoriteIsFirstSame(ids, x, i);
    var r := Removed(ids, x);
    if NoStringDuplicates(ids) {
      forall k | 0 <= k < |r|
        ensures !SameId(r[k], x)
      {
        if k < i {
          assert r[k] == ids[k];
        } else {
          assert r[k] == ids[k + 1];
          assert !SameId(ids[i], ids[k + 1]);
        }
      }
    }
  }

  lemma RemoveAbsentUnchanged(ids: seq<Id>, x: Id)
    requires !IsFavoriteIn(ids, x)
    ensures Removed(ids, x) == ids
  {
  }

  lemma RemoveAtKeepsNoDuplicates(ids: seq<Id>, i: nat)
    requires i < |ids| && NoStringDuplicates(ids)
    ensures NoStringDuplicates(RemoveAt(ids, i))
  {
    var r := RemoveAt(ids, i);
    forall a, b | 0 <= a < b < |r|
      ensures !SameId(r[a], r[b])
    {
      var a', b' := if a < i then a else a + 1, if b < i then b else b + 1;
      assert r[a] == ids[a'] && r[b] == ids[b'] && a' < b';
      assert !SameId(ids[a'], ids[b']);
    }
  }

  lemma AppendKeepsNoDuplicates(ids: seq<Id>, x: Id)
    requires NoStringDuplicates(ids) && !IsFavoriteIn(ids, x)
    ensures NoStringDuplicates(ids + [x])
  {
    var r := ids + [x];
    forall a, b | 0 <= a < b < |r|
      ensures !SameId(r[a], r[b])
    {
      if b == |ids| {
        assert r[a] == ids[a] && r[b] == x;
      } else {
        assert r[a] == ids[a] && r[b] == ids[b];
      }
    }
  }

  /** `add`, `toggle` and `remove` keep the stored ids pairwise String-distinct. */
  lemma MutatorsKeepNoDuplicates(ids: seq<Id>, x: Id)
    requires NoStringDuplicates(ids)
    ensures NoStringDuplicates(Added(ids, x))
    ensures NoStringDuplicates(Toggled(ids, x))
    ensures NoStringDuplicates(Removed(ids, x))
  {
    match FindFavorite(ids, x)
    case Some(i) =>
      RemoveAtKeepsNoDuplicates(ids, i);
    case None =>
      AppendKeepsNoDuplicates(ids, x);
  }

  /** Stored ids keep their original form: every id after `add`, `toggle` or
      `remove` was already stored or is `x` itself, never its string form. */
  lemma MutatorsKeepForms(ids: seq<Id>, x: Id)
    ensures forall k :: 0 <= k < |Added(ids, x)| ==> Added(ids, x)[k] in ids || Added(ids, x)[k] == x
    ensures forall k :: 0 <= k < |Toggled(ids, x)| ==> Toggled(ids, x)[k] in ids || Toggled(ids, x)[k] == x
    ensures forall k :: 0 <= k < |Removed(ids, x)| ==> Removed(ids, x)[k] in ids
  {
    match FindFavorite(ids, x)
    case Some(i) =>
      var r := RemoveAt(ids, i);
      assert forall k :: 0 <= k < |r| ==> r[k] == if k < i then ids[k] else ids[k + 1];
    case None =>
  }

  // ---------------------------------------------------------------------------
  // The store
  // ---------------------------------------------------------------------------

  class FavoritesStore {
    var productIds: seq<Id>

    constructor ()
      ensures productIds == [] && Count() == 0
    {
      productIds := [];
    }

    /** `count`: the number of stored ids. */
    function Count(): nat
      reads this
    {
      |productIds|
    }

    function IsFavorite(productId: Id): bool
      reads this
    {
      IsFavoriteIn(productIds, productId)
    }

    method Toggle(productId: Id)
      modifies this
      ensures productIds == Toggled(old(productIds), productId)
      ensures old(IsFavorite(productId)) ==> Count() == old(Count()) - 1
      ensures !old(IsFavorite(productId)) ==> productIds == old(productIds) + [productId]
      ensures NoStringDuplicates(old(productIds)) ==> NoStringDuplicates(productIds)
    {
      var index := FindFavorite(productIds, productId);
      if index.Some? {
        var i := index.value;
        productIds := productIds[..i] + productIds[i + 1..];
      } else {
        productIds := productIds + [productId];
      }
      if NoStringDuplicates(old(productIds)) {
        MutatorsKeepNoDuplicates(old(productIds), productId);
      }
    }

    method Add(productId: Id)
      modifies this
      ensures productIds == Added(old(productIds), productId)
      ensures IsFavorite(productId)
      ensures NoStringDuplicates(old(productIds)) ==> NoStringDuplicates(productIds)
    {
      if !IsFavorite(productId) {
        productIds := productIds + [productId];
      }
      AddIsIdempotent(old(productIds), productId);
      if NoStringDuplicates(old(productIds)) {
        MutatorsKeepNoDuplicates(old(productIds), productId);
      }
    }

    method Remove(productId: Id)
      modifies this
      ensures productIds == Removed(old(productIds), productId)
      ensures !old(IsFavorite(productId)) ==> productIds == old(productIds)
      ensures NoStringDuplicates(old(productIds)) ==> NoStringDuplicates(productIds) && !IsFavorite(productId)
    {
      var index := FindFavorite(productIds, productId);
      if index.Some? {
        var i := index.value;
        productIds := productIds[..i] + productIds[i + 1..];
        RemovePresentDeletes(old(productIds), productId, i);
      }
      if NoStringDuplicates(old(productIds)) {
        MutatorsKeepNoDuplicates(old(productIds), productId);
      }
    }

    method Clear()
      modifies this
      ensures productIds == [] && Count() == 0
    {
      productIds := [];
    }
  }
}
