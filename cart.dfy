/** backend/models/Cart.js: a cart document, its validation and pre-save hooks
    and the model methods `removeItem`, `updateItemQuantity` and `clearCart`. */
module CartModel {
  import opened Common
  import opened Responses

  /** One line of a cart: a product, how many, the unit price recorded when the
      line was last written, and the variant selection. */
  datatype CartLine = CartLine(product: Id, quantity: int, price: real, variants: Variants)

  /** A cart as stored. */
  datatype CartDoc = CartDoc(user: Option<Id>, sessionId: Option<string>, items: seq<CartLine>,
                             totalItems: int, totalPrice: real, lastUpdated: int)

  /** `items.reduce((total, item) => total + item.quantity, 0)`. */
  function TotalItems(items: seq<CartLine>): int {
    if items == [] then 0 else TotalItems(items[..|items| - 1]) + items[|items| - 1].quantity
  }

  /** What one line contributes to the cart's price. */
  function LineTotal(line: CartLine): real {
    line.price * line.quantity as real
  }

  /** `items.reduce((total, item) => total + item.price * item.quantity, 0)`. */
  function TotalPrice(items: seq<CartLine>): real {
    if items == [] then 0.0 else TotalPrice(items[..|items| - 1]) + LineTotal(items[|items| - 1])
  }

  /** The totals of a concatenation are the sums of the totals. */
  lemma TotalsAppend(a: seq<CartLine>, b: seq<CartLine>)
    ensures TotalItems(a + b) == TotalItems(a) + TotalItems(b)
    ensures TotalPrice(a + b) == TotalPrice(a) + TotalPrice(b)
  {
    ItemsAppend(a, b);
    PriceAppend(a, b);
  }

  lemma {:induction false} ItemsAppend(a: seq<CartLine>, b: seq<CartLine>)
    ensures TotalItems(a + b) == TotalItems(a) + TotalItems(b)
    decreases |b|
  {
    if b == [] {
      assert a + b == a;
    } else {
      var b' := b[..|b| - 1];
      assert (a + b)[..|a + b| - 1] == a + b';
      ItemsAppend(a, b');
    }
  }

  lemma {:induction false} PriceAppend(a: seq<CartLine>, b: seq<CartLine>)
    ensures TotalPrice(a + b) == TotalPrice(a) + TotalPrice(b)
    decreases |b|
  {
    if b == [] {
      assert a + b == a;
    } else {
      var b' := b[..|b| - 1];
      assert (a + b)[..|a + b| - 1] == a + b';
      PriceAppend(a, b');
    }
  }

  /** Replacing one line changes the totals by the difference of that line alone. */
  lemma TotalsUpdate(items: seq<CartLine>, i: nat, line: CartLine)
    requires i < |items|
    ensures TotalItems(items[i := line]) == TotalItems(items) - items[i].quantity + line.quantity
    ensures TotalPrice(items[i := line]) == TotalPrice(items) - LineTotal(items[i]) + LineTotal(line)
  {
    var front, back := items[..i], items[i + 1..];
    assert items == front + [items[i]] + back;
    assert items[i := line] == front + [line] + back;
    TotalsAppend(front + [items[i]], back);
    TotalsAppend(front + [line], back);
    TotalsAppend(front, [items[i]]);
    TotalsAppend(front, [line]);
    assert [items[i]][..0] == [] && [line][..0] == [];
  }

  /** When every line holds at least one unit, the item count is at least the number of lines. */
  lemma {:induction false} TotalItemsAtLeastLines(items: seq<CartLine>)
    requires QuantitiesValid(items)
    ensures TotalItems(items) >= |items|
  {
    if items != [] {
      TotalItemsAtLeastLines(items[..|items| - 1]);
    }
  }

  const OwnerMessage: string := "Either user or sessionId must be provided"

  /** The pre-validate hook: `!this.user && !this.sessionId` fails; an empty
      session id counts as absent. */
  predicate HasOwner(user: Option<Id>, sessionId: Option<string>) {
    user.Some? || (sessionId.Some? && sessionId.value != "")
  }

  /** The `min: 1` validator on every line quantity. */
  predicate QuantitiesValid(items: seq<CartLine>) {
    forall i :: 0 <= i < |items| ==> items[i].quantity >= 1
  }

  /** Validation as `save` runs it: the pre-validate hook first (its plain
      `Error` is not a `ValidationError`), then the schema. */
  function ValidateCart(user: Option<Id>, sessionId: Option<string>, items: seq<CartLine>): (r: Option<ErrorValue>)
    ensures r.None? <==> HasOwner(user, sessionId) && QuantitiesValid(items)
    ensures !HasOwner(user, sessionId) ==> r == Some(PlainError(OwnerMessage))
    ensures HasOwner(user, sessionId) && !QuantitiesValid(items) ==>
      r.Some? && r.value.Failure? && r.value.name == "ValidationError"
  {
    if !HasOwner(user, sessionId) then Some(PlainError(OwnerMessage))
    else if !QuantitiesValid(items) then
      Some(Failure("ValidationError", "Cart validation failed", None, ["Quantity must be at least 1"], ""))
    else None
  }

  /** What a stored cart satisfies: it passed validation and the pre-save hook
      wrote its totals. */
  predicate Consistent(doc: CartDoc) {
    HasOwner(doc.user, doc.sessionId) && QuantitiesValid(doc.items)
    && doc.totalItems == TotalItems(doc.items) && doc.totalPrice == TotalPrice(doc.items)
  }

  /** The document as the pre-save hook leaves it: totals recomputed and the
      update time stamped. */
  function Recomputed(doc: CartDoc, now: int): (r: CartDoc)
    ensures r.items == doc.items && r.user == doc.user && r.sessionId == doc.sessionId
    ensures HasOwner(doc.user, doc.sessionId) && QuantitiesValid(doc.items) ==> Consistent(r)
  {
    doc.(totalItems := TotalItems(doc.items), totalPrice := TotalPrice(doc.items), lastUpdated := now)
  }

  /** `items.filter(item => !item.product.equals(productId))`. */
  function WithoutProduct(items: seq<CartLine>, productId: Id): (r: seq<CartLine>)
    ensures |r| <= |items|
    ensures forall line :: line in r <==> line in items && line.product != productId
  {
    if items == [] then []
    else if items[0].product == productId then WithoutProduct(items[1..], productId)
    else [items[0]] + WithoutProduct(items[1..], productId)
  }

  /** The filter keeps the surviving lines in their order. */
  lemma {:induction false} WithoutProductConcat(a: seq<CartLine>, b: seq<CartLine>, productId: Id)
    ensures WithoutProduct(a + b, productId) == WithoutProduct(a, productId) + WithoutProduct(b, productId)
  {
    if a == [] {
      assert a + b == b;
    } else {
      assert (a + b)[1..] == a[1..] + b;
      WithoutProductConcat(a[1..], b, productId);
    }
  }

  /** Removing a product that has no line changes nothing, and removing twice is removing once. */
  lemma {:induction false} WithoutProductIdempotent(items: seq<CartLine>, productId: Id)
    ensures (forall i :: 0 <= i < |items| ==> items[i].product != productId) ==> WithoutProduct(items, productId) == items
    ensures WithoutProduct(WithoutProduct(items, productId), productId) == WithoutProduct(items, productId)
  {
    if items != [] {
      WithoutProductIdempotent(items[1..], productId);
    }
  }

  /** `items.find(item => item.product.equals(productId))`, as an index. */
  function FirstLineOf(items: seq<CartLine>, productId: Id): (r: Option<nat>)
    ensures r.Some? ==> r.value < |items| && items[r.value].product == productId
                        && forall j :: 0 <= j < r.value ==> items[j].product != productId
    ensures r.None? ==> forall j :: 0 <= j < |items| ==> items[j].product != productId
  {
    if items == [] then None
    else if items[0].product == productId then Some(0)
    else match FirstLineOf(items[1..], productId)
      case None => None
      case Some(k) => Some(k + 1)
  }

  /** The items after `updateItemQuantity(productId, newQuantity)`. */
  function QuantityUpdated(items: seq<CartLine>, productId: Id, newQuantity: int): (r: seq<CartLine>)
    ensures FirstLineOf(items, productId).None? ==> r == items
    ensures FirstLineOf(items, productId).Some? && newQuantity <= 0 ==> r == WithoutProduct(items, productId)
    ensures FirstLineOf(items, productId).Some? && newQuantity > 0 ==>
      var i := FirstLineOf(items, productId).value;
      |r| == |items| && r[i].quantity == newQuantity && r[i].product == productId
      && r[i].price == items[i].price && r[i].variants == items[i].variants
      && forall j :: 0 <= j < |items| && j != i ==> r[j] == items[j]
  {
    match FirstLineOf(items, productId)
    case None => items
    case Some(i) =>
      if newQuantity <= 0 then WithoutProduct(items, productId)
      else items[i := items[i].(quantity := newQuantity)]
  }

  /** A loaded cart document. */
  class Cart {
    var user: Option<Id>
    var sessionId: Option<string>
    var items: seq<CartLine>
    var totalItems: int
    var totalPrice: real
    var lastUpdated: int

    function Doc(): CartDoc
      reads this
    {
      CartDoc(user, sessionId, items, totalItems, totalPrice, lastUpdated)
    }

    constructor Load(doc: CartDoc)
      ensures Doc() == doc
    {
      user := doc.user;
      sessionId := doc.sessionId;
      items := doc.items;
      totalItems := doc.totalItems;
      totalPrice := doc.totalPrice;
      lastUpdated := doc.lastUpdated;
    }

    /** `new Cart({ user, items: [] })`: the schema defaults fill the rest. */
    constructor New(owner: Id, now: int)
      ensures Doc() == CartDoc(Some(owner), None, [], 0, 0.0, now)
    {
      user := Some(owner);
      sessionId := None;
      items := [];
      totalItems := 0;
      totalPrice := 0.0;
      lastUpdated := now;
    }

    /** `save()`: validation, then the pre-save hook. A failed validation leaves
        the document as it was; a successful one leaves it consistent. */
    method Save(now: int) returns (err: Option<ErrorValue>)
      modifies this
      ensures err == ValidateCart(old(user), old(sessionId), old(items))
      ensures err.Some? ==> Doc() == old(Doc())
      ensures err.None? ==> Doc() == Recomputed(old(Doc()), now) && Consistent(Doc())
    {
      err := ValidateCart(user, sessionId, items);
      if err.None? {
        totalItems := TotalItems(items);
        totalPrice := TotalPrice(items);
        lastUpdated := now;
      }
    }

    /** `removeItem(productId)`: the filter is applied in memory whatever the save does. */
    method RemoveItem(productId: Id, now: int) returns (err: Option<ErrorValue>)
      modifies this
      ensures items == WithoutProduct(old(items), productId)
      ensures user == old(user) && sessionId == old(sessionId)
      ensures err == ValidateCart(user, sessionId, items)
      ensures err.None? ==> Consistent(Doc()) && lastUpdated == now
    {
      items := WithoutProduct(items, productId);
      err := Save(now);
    }

    /** `updateItemQuantity(productId, newQuantity)`: acts on the first line of the
        product; a quantity of 0 or less removes every line of it. */
    method UpdateItemQuantity(productId: Id, newQuantity: int, now: int) returns (err: Option<ErrorValue>)
      modifies this
      ensures items == QuantityUpdated(old(items), productId, newQuantity)
      ensures user == old(user) && sessionId == old(sessionId)
      ensures err == ValidateCart(user, sessionId, items)
      ensures err.None? ==> Consistent(Doc()) && lastUpdated == now
    {
      var found := FirstLineOf(items, productId);
      if found.Some? {
        if newQuantity <= 0 {
          err := RemoveItem(productId, now);
          return;
        }
        items := items[found.value := items[found.value].(quantity := newQuantity)];
      }
      err := Save(now);
    }

    /** `clearCart()`. */
    method ClearCart(now: int) returns (err: Option<ErrorValue>)
      modifies this
      ensures items == [] && user == old(user) && sessionId == old(sessionId)
      ensures err == ValidateCart(user, sessionId, [])
      ensures err.None? ==> totalItems == 0 && totalPrice == 0.0 && lastUpdated == now
    {
      items := [];
      err := Save(now);
    }
  }

  /** Clearing an owned cart always succeeds and twice is the same as once. */
  method ClearTwice(cart: Cart, now: int) returns (first: Option<ErrorValue>, second: Option<ErrorValue>)
    requires HasOwner(cart.user, cart.sessionId)
    modifies cart
    ensures first.None? && second.None?
    ensures cart.items == [] && cart.totalItems == 0 && cart.totalPrice == 0.0
  {
    first := cart.ClearCart(now);
    var afterFirst := cart.Doc();
    second := cart.ClearCart(now);
    assert cart.Doc() == afterFirst;
  }

  /** For an owned cart with valid lines, `updateItemQuantity` with a positive
      quantity leaves the totals shifted by exactly the change on that line. */
  lemma UpdateQuantityTotals(items: seq<CartLine>, productId: Id, newQuantity: int)
    requires FirstLineOf(items, productId).Some? && newQuantity > 0
    ensures var i := FirstLineOf(items, productId).value;
      TotalItems(QuantityUpdated(items, productId, newQuantity)) == TotalItems(items) - items[i].quantity + newQuantity
  {
    var i := FirstLineOf(items, productId).value;
    TotalsUpdate(items, i, items[i].(quantity := newQuantity));
  }
}
