/** The four MongoDB collections the handlers read and write, held in memory,
    and the queries the handlers share: finding a user's cart, wishlist or
    order, and the reservation count of `backend/services/cart/handler.js`. */
module Database {
  import opened Common
  import opened Responses
  import opened ProductModel
  import opened CartModel
  import opened WishlistModel
  import opened OrderModel

  /** The collections: products by id, carts in insertion order (`findOne`
      returns the first match; nothing makes `user` unique), wishlists by user
      (the schema makes `user` unique) and orders in insertion order. */
  datatype Db = Db(products: map<Id, Product>, carts: seq<CartDoc>, wishlists: map<Id, WishlistDoc>,
                   orders: seq<OrderDoc>)

  /** One request handled: the reply and the collections afterwards. */
  datatype Step = Step(reply: Reply, after: Db)

  /** What `Model.findById(id)` throws on an id Mongoose cannot turn into an
      ObjectId; the handlers take whether it can as an input, `validId`. */
  function CastFailure(id: string): (e: ErrorValue)
    ensures forall production :: ErrorResponse(e, 500, production) == HttpResponse(400, Json(false, "Invalid ID format", NoDetails))
  {
    Failure("CastError", "Cast to ObjectId failed for value \"" + id + "\"", None, [], "")
  }

  /** Every stored cart passed validation and carries the totals of its hook. */
  predicate CartsStored(carts: seq<CartDoc>) {
    forall i :: 0 <= i < |carts| ==> Consistent(carts[i])
  }

  /** Every stored wishlist is filed under its owner and carries its count. */
  predicate WishlistsStored(wishlists: map<Id, WishlistDoc>) {
    forall u :: u in wishlists ==> wishlists[u].user == u && CountMatches(wishlists[u])
  }

  /** Every stored order passed validation and was numbered by its hook; ids and
      order numbers are unique. */
  predicate OrdersStored(orders: seq<OrderDoc>) {
    (forall i :: 0 <= i < |orders| ==> ValidOrder(orders[i]) && orders[i].orderNumber.Some?)
    && IdsUnique(orders) && NumbersUnique(orders)
  }

  predicate IdsUnique(orders: seq<OrderDoc>) {
    forall i, j :: 0 <= i < j < |orders| ==> orders[i].id != orders[j].id
  }

  predicate NumbersUnique(orders: seq<OrderDoc>) {
    forall i, j :: 0 <= i < j < |orders| ==> orders[i].orderNumber != orders[j].orderNumber
  }

  /** What every handler relies on and preserves. Products are not constrained:
      the `$inc` updates skip validation. */
  predicate ValidDb(d: Db) {
    CartsStored(d.carts) && WishlistsStored(d.wishlists) && OrdersStored(d.orders)
  }

  /** The database connection every handler shares. */
  class Store {
    var products: map<Id, Product>
    var carts: seq<CartDoc>
    var wishlists: map<Id, WishlistDoc>
    var orders: seq<OrderDoc>

    function State(): Db
      reads this
    {
      Db(products, carts, wishlists, orders)
    }

    predicate Valid()
      reads this
    {
      ValidDb(State())
    }

    constructor (d: Db)
      ensures State() == d
    {
      products := d.products;
      carts := d.carts;
      wishlists := d.wishlists;
      orders := d.orders;
    }
  }

  // ---------------------------------------------------------------------------
  // Queries

  /** `Cart.findOne({ user: userId })`. */
  function FindCart(carts: seq<CartDoc>, userId: Id): (r: Option<nat>)
    ensures r.Some? ==> r.value < |carts| && carts[r.value].user == Some(userId)
                        && forall j :: 0 <= j < r.value ==> carts[j].user != Some(userId)
    ensures r.None? ==> forall j :: 0 <= j < |carts| ==> carts[j].user != Some(userId)
  {
    if carts == [] then None
    else if carts[0].user == Some(userId) then Some(0)
    else match FindCart(carts[1..], userId)
      case None => None
      case Some(k) => Some(k + 1)
  }

  /** Writing a cart back: over the document it was loaded from, or as a new one. */
  function PutCart(carts: seq<CartDoc>, at: Option<nat>, doc: CartDoc): (r: seq<CartDoc>)
    requires at.Some? ==> at.value < |carts|
    ensures at.Some? ==> r == carts[at.value := doc]
    ensures at.None? ==> r == carts + [doc]
  {
    if at.Some? then carts[at.value := doc] else carts + [doc]
  }

  /** Writing a consistent cart keeps every stored cart consistent. */
  lemma PutCartStored(carts: seq<CartDoc>, at: Option<nat>, doc: CartDoc)
    requires at.Some? ==> at.value < |carts|
    requires CartsStored(carts) && Consistent(doc)
    ensures CartsStored(PutCart(carts, at, doc))
  {
  }

  /** The lines of a user's cart, none when the user has no cart. */
  function CartLines(d: Db, userId: Id): seq<CartLine> {
    match FindCart(d.carts, userId)
    case None => []
    case Some(i) => d.carts[i].items
  }

  /** Writing a user's cart back keeps it the cart `findOne` returns for that
      user: in its old place, or at the end when the user had none. */
  lemma FindCartAfterPut(carts: seq<CartDoc>, userId: Id, doc: CartDoc)
    requires doc.user == Some(userId)
    ensures var at := FindCart(carts, userId);
      FindCart(PutCart(carts, at, doc), userId) == Some(if at.Some? then at.value else |carts|)
  {
    var at := FindCart(carts, userId);
    var r := PutCart(carts, at, doc);
    var x := if at.Some? then at.value else |carts|;
    forall j | 0 <= j < x ensures r[j].user != Some(userId) {
      assert r[j] == carts[j];
    }
    assert r[x] == doc;
    FirstMatch(r, userId, x);
  }

  /** `findOne` returns the first cart of the user. */
  lemma FirstMatch(carts: seq<CartDoc>, userId: Id, x: nat)
    requires x < |carts| && carts[x].user == Some(userId)
    requires forall j :: 0 <= j < x ==> carts[j].user != Some(userId)
    ensures FindCart(carts, userId) == Some(x)
  {
  }

  /** `Order.findById(orderId)`. */
  function FindOrder(orders: seq<OrderDoc>, orderId: Id): (r: Option<nat>)
    ensures r.Some? ==> r.value < |orders| && orders[r.value].id == orderId
    ensures r.None? ==> forall j :: 0 <= j < |orders| ==> orders[j].id != orderId
  {
    if orders == [] then None
    else if orders[0].id == orderId then Some(0)
    else match FindOrder(orders[1..], orderId)
      case None => None
      case Some(k) => Some(k + 1)
  }

  /** The order holding an order number, if any: the unique index on
      `orderNumber` refuses a second one. */
  function FindOrderNumber(orders: seq<OrderDoc>, number: string): (r: Option<nat>)
    ensures r.Some? ==> r.value < |orders| && orders[r.value].orderNumber == Some(number)
    ensures r.None? ==> forall j :: 0 <= j < |orders| ==> orders[j].orderNumber != Some(number)
  {
    if orders == [] then None
    else if orders[0].orderNumber == Some(number) then Some(0)
    else match FindOrderNumber(orders[1..], number)
      case None => None
      case Some(k) => Some(k + 1)
  }

  /** `requireAdmin` once authentication has succeeded: `Some(e)` is what it throws. */
  function RequireAdmin(user: User): (r: Option<ErrorValue>)
    ensures r.None? <==> user.role == Admin
    ensures r.Some? ==> r.value.Failure? && r.value.message == "Admin access required"
  {
    if user.role != Admin then Some(PlainError("Admin access required")) else None
  }

  /** The refusal of `requireAdmin` reaches the client as a 403. */
  lemma AdminRequiredIsForbidden(user: User)
    requires user.role != Admin
    ensures ErrorResponse(RequireAdmin(user).value).statusCode == 403
  {
    var message := "Admin access required";
    if Contains(message, "Authentication failed") {
      ContainsLength(message, "Authentication failed");
      assert false;
    }
    assert StartsWith(message, message);
    assert Classify(PlainError(message), 500) == (403, message, NoDetails);
  }

  /** Overwriting a stored order with one that is still valid, numbered the same
      and has the same id keeps the collection valid. */
  lemma PutOrderStored(orders: seq<OrderDoc>, i: nat, doc: OrderDoc)
    requires i < |orders| && OrdersStored(orders)
    requires ValidOrder(doc) && doc.id == orders[i].id && doc.orderNumber == orders[i].orderNumber
    ensures OrdersStored(orders[i := doc])
  {
  }

  /** Appending a valid, numbered order whose id and number are new keeps the
      collection valid. */
  lemma AppendOrderStored(orders: seq<OrderDoc>, doc: OrderDoc)
    requires OrdersStored(orders) && ValidOrder(doc) && doc.orderNumber.Some?
    requires forall i :: 0 <= i < |orders| ==> orders[i].id != doc.id
    requires FindOrderNumber(orders, doc.orderNumber.value).None?
    ensures OrdersStored(orders + [doc])
  {
    AppendIdUnique(orders, doc);
    AppendNumberUnique(orders, doc);
    var r := orders + [doc];
    forall i | 0 <= i < |r|
      ensures ValidOrder(r[i]) && r[i].orderNumber.Some?
    {
      if i < |orders| {
        assert r[i] == orders[i];
      }
    }
  }

  lemma AppendIdUnique(orders: seq<OrderDoc>, doc: OrderDoc)
    requires IdsUnique(orders)
    requires forall i :: 0 <= i < |orders| ==> orders[i].id != doc.id
    ensures IdsUnique(orders + [doc])
  {
    var r := orders + [doc];
    forall i, j | 0 <= i < j < |r|
      ensures r[i].id != r[j].id
    {
      assert r[i] == orders[i];
      if j < |orders| {
        assert r[j] == orders[j];
      }
    }
  }

  lemma AppendNumberUnique(orders: seq<OrderDoc>, doc: OrderDoc)
    requires NumbersUnique(orders) && doc.orderNumber.Some?
    requires FindOrderNumber(orders, doc.orderNumber.value).None?
    ensures NumbersUnique(orders + [doc])
  {
    var r := orders + [doc];
    forall i, j | 0 <= i < j < |r|
      ensures r[i].orderNumber != r[j].orderNumber
    {
      assert r[i] == orders[i];
      if j < |orders| {
        assert r[j] == orders[j];
      }
    }
  }

  // ---------------------------------------------------------------------------
  // Reservations

  /** The quantity of the first line of `productId` in one cart, 0 when it has none
      (`cart.items.find(item => item.product.toString() === productId)`). */
  function FirstLineQuantity(items: seq<CartLine>, productId: Id): int {
    match FirstLineOf(items, productId)
    case None => 0
    case Some(i) => items[i].quantity
  }

  /** The reserved total the cart and wishlist handlers compute: over all carts
      holding the product, the quantity of the first matching line of each. */
  function Reserved(carts: seq<CartDoc>, productId: Id): int {
    if carts == [] then 0
    else Reserved(carts[..|carts| - 1], productId) + FirstLineQuantity(carts[|carts| - 1].items, productId)
  }

  /** The `allCarts.forEach` loop that sums the reservations. */
  method CountReserved(carts: seq<CartDoc>, productId: Id) returns (total: int)
    ensures total == Reserved(carts, productId)
  {
    total := 0;
    var k := 0;
    while k < |carts|
      invariant 0 <= k <= |carts|
      invariant total == Reserved(carts[..k], productId)
    {
      var found := FirstLineOf(carts[k].items, productId);
      if found.Some? {
        total := total + carts[k].items[found.value].quantity;
      }
      assert carts[..k + 1][..k] == carts[..k];
      k := k + 1;
    }
    assert carts[..k] == carts;
  }

  /** How many units of a product a cart's lines hold, whatever their variants. */
  function LinesQuantity(items: seq<CartLine>, productId: Id): int {
    if items == [] then 0
    else LinesQuantity(items[..|items| - 1], productId)
         + (if items[|items| - 1].product == productId then items[|items| - 1].quantity else 0)
  }

  /** Units of a product held across all carts. */
  function Held(carts: seq<CartDoc>, productId: Id): int {
    if carts == [] then 0
    else Held(carts[..|carts| - 1], productId) + LinesQuantity(carts[|carts| - 1].items, productId)
  }

  lemma {:induction false} LinesQuantityAppend(a: seq<CartLine>, b: seq<CartLine>, productId: Id)
    ensures LinesQuantity(a + b, productId) == LinesQuantity(a, productId) + LinesQuantity(b, productId)
    decreases |b|
  {
    if b == [] {
      assert a + b == a;
    } else {
      assert (a + b)[..|a + b| - 1] == a + b[..|b| - 1];
      LinesQuantityAppend(a, b[..|b| - 1], productId);
    }
  }

  /** In a cart with valid quantities the first line of a product holds no more
      than all its lines together. */
  lemma {:induction false} FirstLineAtMostLines(items: seq<CartLine>, productId: Id)
    requires QuantitiesValid(items)
    ensures 0 <= FirstLineQuantity(items, productId) <= LinesQuantity(items, productId)
    decreases |items|
  {
    if items != [] {
      var rest := items[1..];
      assert items == [items[0]] + rest;
      LinesQuantityAppend([items[0]], rest, productId);
      assert [items[0]][..0] == [];
      assert QuantitiesValid(rest) by {
        forall i | 0 <= i < |rest| ensures rest[i].quantity >= 1 {
          assert rest[i] == items[i + 1];
        }
      }
      FirstLineAtMostLines(rest, productId);
      LinesNonNegative(rest, productId);
      if items[0].product != productId {
        assert FirstLineOf(items, productId) == (match FirstLineOf(rest, productId)
                                                   case None => None
                                                   case Some(k) => Some(k + 1));
      }
    }
  }

  lemma {:induction false} LinesNonNegative(items: seq<CartLine>, productId: Id)
    requires QuantitiesValid(items)
    ensures LinesQuantity(items, productId) >= 0
    decreases |items|
  {
    if items != [] {
      LinesNonNegative(items[..|items| - 1], productId);
    }
  }

  /** The reserved total never exceeds what the carts hold. */
  lemma {:induction false} ReservedAtMostHeld(carts: seq<CartDoc>, productId: Id)
    requires CartsStored(carts)
    ensures 0 <= Reserved(carts, productId) <= Held(carts, productId)
    decreases |carts|
  {
    if carts != [] {
      ReservedAtMostHeld(carts[..|carts| - 1], productId);
      FirstLineAtMostLines(carts[|carts| - 1].items, productId);
    }
  }

  /** A cart with two lines of one product in different variants holds both, but
      only the first counts as reserved. */
  lemma SecondVariantIsNotReserved(productId: Id, owner: Id, v1: Variants, v2: Variants)
    ensures var items := [CartLine(productId, 1, 1.0, v1), CartLine(productId, 1, 1.0, v2)];
      var carts := [CartDoc(Some(owner), None, items, 2, 2.0, 0)];
      Reserved(carts, productId) == 1 && Held(carts, productId) == 2
  {
    var items := [CartLine(productId, 1, 1.0, v1), CartLine(productId, 1, 1.0, v2)];
    var carts := [CartDoc(Some(owner), None, items, 2, 2.0, 0)];
    assert carts[..0] == [];
    assert items[..1] == [items[0]] && items[..1][..0] == [];
    assert FirstLineOf(items, productId) == Some(0);
    assert LinesQuantity(items[..1], productId) == 1;
    assert LinesQuantity(items, productId) == 2;
  }

  /** Replacing one cart changes the reserved total by that cart's difference alone. */
  lemma ReservedUpdate(carts: seq<CartDoc>, i: nat, doc: CartDoc, productId: Id)
    requires i < |carts|
    ensures Reserved(carts[i := doc], productId)
            == Reserved(carts, productId) - FirstLineQuantity(carts[i].items, productId)
               + FirstLineQuantity(doc.items, productId)
  {
    var front, back := carts[..i], carts[i + 1..];
    assert carts == front + [carts[i]] + back;
    assert carts[i := doc] == front + [doc] + back;
    ReservedAppend(front + [carts[i]], back, productId);
    ReservedAppend(front + [doc], back, productId);
    ReservedAppend(front, [carts[i]], productId);
    ReservedAppend(front, [doc], productId);
    assert [carts[i]][..0] == [] && [doc][..0] == [];
  }

  lemma {:induction false} ReservedAppend(a: seq<CartDoc>, b: seq<CartDoc>, productId: Id)
    ensures Reserved(a + b, productId) == Reserved(a, productId) + Reserved(b, productId)
    decreases |b|
  {
    if b == [] {
      assert a + b == a;
    } else {
      assert (a + b)[..|a + b| - 1] == a + b[..|b| - 1];
      ReservedAppend(a, b[..|b| - 1], productId);
    }
  }

  /** Writing a cart back changes the reserved total by the difference of that cart. */
  lemma ReservedPut(carts: seq<CartDoc>, at: Option<nat>, doc: CartDoc, productId: Id)
    requires at.Some? ==> at.value < |carts|
    ensures Reserved(PutCart(carts, at, doc), productId)
            == Reserved(carts, productId) + FirstLineQuantity(doc.items, productId)
               - (if at.Some? then FirstLineQuantity(carts[at.value].items, productId) else 0)
  {
    if at.Some? {
      ReservedUpdate(carts, at.value, doc, productId);
    } else {
      ReservedAppend(carts, [doc], productId);
      assert [doc][..0] == [];
    }
  }
}
