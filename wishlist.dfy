/** backend/models/Wishlist.js: a wishlist document, its pre-save hook and the
    model methods `addItem`, `removeItem`, `hasItem` and `clearWishlist`. */
module WishlistModel {
  import opened Common

  datatype WishlistItem = WishlistItem(product: Id, addedAt: int)

  datatype WishlistDoc = WishlistDoc(user: Id, items: seq<WishlistItem>, totalItems: int)

  /** What a stored wishlist satisfies: the pre-save hook wrote its count. */
  predicate CountMatches(doc: WishlistDoc) {
    doc.totalItems == |doc.items|
  }

  /** `items.some(item => item.product.toString() === productId)`. */
  predicate HasItem(items: seq<WishlistItem>, productId: Id) {
    exists i :: 0 <= i < |items| && items[i].product == productId
  }

  /** `items.filter(item => item.product.toString() !== productId)`. */
  function WithoutItem(items: seq<WishlistItem>, productId: Id): (r: seq<WishlistItem>)
    ensures |r| <= |items|
    ensures !HasItem(r, productId)
    ensures forall item :: item in r <==> item in items && item.product != productId
  {
    if items == [] then []
    else if items[0].product == productId then WithoutItem(items[1..], productId)
    else [items[0]] + WithoutItem(items[1..], productId)
  }

  /** A product that is not listed is not filtered out. */
  lemma {:induction false} WithoutAbsent(items: seq<WishlistItem>, productId: Id)
    requires !HasItem(items, productId)
    ensures WithoutItem(items, productId) == items
  {
    if items != [] {
      assert !HasItem(items[1..], productId) by {
        forall i | 0 <= i < |items[1..]| ensures items[1..][i].product != productId {
          assert items[1..][i] == items[i + 1];
        }
      }
      WithoutAbsent(items[1..], productId);
    }
  }

  /** The filter keeps the surviving items in their order. */
  lemma {:induction false} WithoutItemConcat(a: seq<WishlistItem>, b: seq<WishlistItem>, productId: Id)
    ensures WithoutItem(a + b, productId) == WithoutItem(a, productId) + WithoutItem(b, productId)
  {
    if a == [] {
      assert a + b == b;
    } else {
      assert (a + b)[1..] == a[1..] + b;
      WithoutItemConcat(a[1..], b, productId);
    }
  }

  /** The items after `addItem(productId)`: a product already listed is not added again. */
  function WithItem(items: seq<WishlistItem>, productId: Id, now: int): (r: seq<WishlistItem>)
    ensures HasItem(r, productId)
    ensures HasItem(items, productId) ==> r == items
    ensures !HasItem(items, productId) ==> r == items + [WishlistItem(productId, now)]
  {
    if HasItem(items, productId) then items
    else
      var r := items + [WishlistItem(productId, now)];
      assert r[|items|].product == productId;
      r
  }

  /** No product appears twice. */
  predicate Distinct(items: seq<WishlistItem>) {
    forall i, j :: 0 <= i < j < |items| ==> items[i].product != items[j].product
  }

  lemma WithItemKeepsDistinct(items: seq<WishlistItem>, productId: Id, now: int)
    requires Distinct(items)
    ensures Distinct(WithItem(items, productId, now))
  {
  }

  /** Adding a product that was absent and then removing it gives back the original items. */
  lemma AddThenRemove(items: seq<WishlistItem>, productId: Id, now: int)
    requires !HasItem(items, productId)
    ensures WithoutItem(WithItem(items, productId, now), productId) == items
  {
    WithoutItemConcat(items, [WishlistItem(productId, now)], productId);
    WithoutAbsent(items, productId);
    assert WithoutItem([WishlistItem(productId, now)], productId) == [];
  }

  /** A loaded wishlist document. */
  class Wishlist {
    var user: Id
    var items: seq<WishlistItem>
    var totalItems: int

    function Doc(): WishlistDoc
      reads this
    {
      WishlistDoc(user, items, totalItems)
    }

    constructor Load(doc: WishlistDoc)
      ensures Doc() == doc
    {
      user := doc.user;
      items := doc.items;
      totalItems := doc.totalItems;
    }

    /** `new Wishlist({ user, items: [] })`. */
    constructor New(owner: Id)
      ensures Doc() == WishlistDoc(owner, [], 0)
    {
      user := owner;
      items := [];
      totalItems := 0;
    }

    /** `save()`: the schema has nothing the model can violate, and the hook
        sets the count. */
    method Save()
      modifies this
      ensures Doc() == old(Doc()).(totalItems := |items|)
      ensures CountMatches(Doc())
    {
      totalItems := |items|;
    }

    /** `addItem(productId)`. */
    method AddItem(productId: Id, now: int)
      modifies this
      ensures items == WithItem(old(items), productId, now) && user == old(user)
      ensures CountMatches(Doc())
    {
      if !HasItem(items, productId) {
        items := items + [WishlistItem(productId, now)];
      }
      Save();
    }

    /** `removeItem(productId)`. */
    method RemoveItem(productId: Id)
      modifies this
      ensures items == WithoutItem(old(items), productId) && user == old(user)
      ensures CountMatches(Doc())
    {
      items := WithoutItem(items, productId);
      Save();
    }

    /** `hasItem(productId)`. */
    function Has(productId: Id): (r: bool)
      reads this
      ensures r <==> exists item :: item in items && item.product == productId
    {
      HasItem(items, productId)
    }

    /** `clearWishlist()`. */
    method ClearWishlist()
      modifies this
      ensures items == [] && totalItems == 0 && user == old(user)
    {
      items := [];
      Save();
    }
  }
}
