/** backend/services/cart/handler.js: the cart endpoints. Each endpoint is a
    pure function from the collections and the request to the reply and the
    collections afterwards (`...Step`), and a method on the shared `Store` that
    performs the same steps on loaded documents and is proved to agree with it.
    The Redis cache is taken to miss on every read. */
module CartHandler {
  import opened Common
  import opened Responses
  import opened ProductModel
  import opened CartModel
  import opened Database

  /** The JSON body fields the cart endpoints check; an absent field is `""` or 0,
      both falsy like `undefined`. */
  function CartBody(productId: string, quantity: int): map<string, JsValue> {
    map["productId" := Str(productId), "quantity" := Num(quantity as real)]
  }

  /** `new Cart({ user, items: [] })` at time `now`. */
  function EmptyCart(owner: Id, now: int): CartDoc {
    CartDoc(Some(owner), None, [], 0, 0.0, now)
  }

  /** `cart.items.findIndex(...)` over product and variant selection. */
  function LineIndex(items: seq<CartLine>, productId: Id, variants: Variants): (r: Option<nat>)
    ensures r.Some? ==> r.value < |items| && items[r.value].product == productId && items[r.value].variants == variants
                        && forall j :: 0 <= j < r.value ==> !(items[j].product == productId && items[j].variants == variants)
    ensures r.None? ==> forall j :: 0 <= j < |items| ==> !(items[j].product == productId && items[j].variants == variants)
  {
    if items == [] then None
    else if items[0].product == productId && items[0].variants == variants then Some(0)
    else match LineIndex(items[1..], productId, variants)
      case None => None
      case Some(k) => Some(k + 1)
  }

  /** The lines after adding `quantity` units at `price`: the line of the same
      product and variants grows and takes the new price, or one line is appended.
      No other line changes. */
  function AddedLines(items: seq<CartLine>, productId: Id, quantity: int, price: real, variants: Variants)
    : (r: seq<CartLine>)
    ensures LineIndex(items, productId, variants).Some? ==>
      var i := LineIndex(items, productId, variants).value;
      |r| == |items| && r[i] == CartLine(productId, items[i].quantity + quantity, price, variants)
      && forall j :: 0 <= j < |items| && j != i ==> r[j] == items[j]
    ensures LineIndex(items, productId, variants).None? ==>
      |r| == |items| + 1 && r[..|items|] == items && r[|items|] == CartLine(productId, quantity, price, variants)
  {
    match LineIndex(items, productId, variants)
    case Some(i) => items[i := items[i].(quantity := items[i].quantity + quantity, price := price)]
    case None => items + [CartLine(productId, quantity, price, variants)]
  }

  /** Adding at least one unit to valid lines leaves them valid. */
  lemma AddedLinesValid(items: seq<CartLine>, productId: Id, quantity: int, price: real, variants: Variants)
    requires QuantitiesValid(items) && quantity >= 1
    ensures QuantitiesValid(AddedLines(items, productId, quantity, price, variants))
  {
  }

  /** Two line lists with the same products position by position have the same
      first line of every product. */
  lemma SameProductsSameFirstLine(a: seq<CartLine>, b: seq<CartLine>, productId: Id)
    requires |a| == |b| && forall k :: 0 <= k < |a| ==> a[k].product == b[k].product
    ensures FirstLineOf(a, productId) == FirstLineOf(b, productId)
  {
    var fa, fb := FirstLineOf(a, productId), FirstLineOf(b, productId);
    if fa.Some? && fb.Some? {
      assert !(fa.value < fb.value) && !(fb.value < fa.value);
    }
  }

  /** Adding raises the first-line quantity of the product by at most `quantity`. */
  lemma AddedLinesFirstLine(items: seq<CartLine>, productId: Id, quantity: int, price: real, variants: Variants)
    requires quantity >= 0 && QuantitiesValid(items)
    ensures var after := AddedLines(items, productId, quantity, price, variants);
      FirstLineQuantity(items, productId) <= FirstLineQuantity(after, productId)
      <= FirstLineQuantity(items, productId) + quantity
  {
    var after := AddedLines(items, productId, quantity, price, variants);
    match LineIndex(items, productId, variants)
    case Some(i) =>
      SameProductsSameFirstLine(items, after, productId);
    case None =>
      SameProductsSameFirstLine(items, after[..|items|], productId);
      match FirstLineOf(items, productId)
      case Some(f) =>
        assert forall j :: 0 <= j < |items| ==> after[j] == items[j] by {
          forall j | 0 <= j < |items| ensures after[j] == items[j] {
            assert after[..|items|][j] == after[j];
          }
        }
      case None =>
        assert FirstLineOf(after, productId) == Some(|items|) by {
          forall j | 0 <= j < |items| ensures after[j].product != productId {
            assert after[j] == items[j];
          }
        }
  }

  /** The write-back shared by the endpoints: validation, then the pre-save hook,
      then the document stored over the one it was loaded from or as a new one. */
  function SaveStep(d: Db, at: Option<nat>, doc: CartDoc, message: string, now: int): (s: Step)
    requires at.Some? ==> at.value < |d.carts|
    ensures s.reply.Ok? <==> ValidateCart(doc.user, doc.sessionId, doc.items).None?
    ensures !s.reply.Ok? ==> s.after == d
    ensures s.reply.Ok? ==> s.after == d.(carts := PutCart(d.carts, at, Recomputed(doc, now)))
  {
    match ValidateCart(doc.user, doc.sessionId, doc.items)
    case Some(e) => Step(Threw(e), d)
    case None => Step(Ok(200, message), d.(carts := PutCart(d.carts, at, Recomputed(doc, now))))
  }

  /** A successful write-back keeps the collections valid. */
  lemma SaveStepStored(d: Db, at: Option<nat>, doc: CartDoc, message: string, now: int)
    requires at.Some? ==> at.value < |d.carts|
    requires ValidDb(d)
    ensures ValidDb(SaveStep(d, at, doc, message, now).after)
  {
    if ValidateCart(doc.user, doc.sessionId, doc.items).None? {
      PutCartStored(d.carts, at, Recomputed(doc, now));
    }
  }

  // ---------------------------------------------------------------------------
  // addToCart

  function AddToCartStep(d: Db, user: User, productId: string, validId: bool, quantity: int, variants: Variants, now: int): Step {
    var missing := ValidateRequiredFields(CartBody(productId, quantity), ["productId", "quantity"]);
    if missing.Some? then Step(Threw(missing.value), d)
    else if quantity < 1 then Step(Refused(400, "Quantity must be at least 1"), d)
    else if !validId then Step(Threw(CastFailure(productId)), d)
    else if productId !in d.products then Step(Refused(404, "Product not found"), d)
    else if !IsActive(d.products[productId]) then Step(Refused(400, "Product is not available"), d)
    else
      var product := d.products[productId];
      var reserved := Reserved(d.carts, productId);
      var available := product.inventory.quantity - reserved;
      if available < quantity then
        Step(Refused(400, "Cannot add " + IntToString(quantity) + " items. Only " + IntToString(Max0(available))
                          + " items available (" + IntToString(reserved) + " already in other carts)"), d)
      else
        AddLineStep(d, user, productId, quantity, variants, UnitPrice(product, now), now)
  }

  /** `addToCart` from the cart lookup on: the caller's cart, or a new one, gets
      the added lines and is saved. */
  function AddLineStep(d: Db, user: User, productId: Id, quantity: int, variants: Variants, price: real, now: int): Step {
    var at := FindCart(d.carts, user.id);
    var cart := if at.Some? then d.carts[at.value] else EmptyCart(user.id, now);
    SaveStep(d, at, cart.(items := AddedLines(cart.items, productId, quantity, price, variants)),
             "Item added to cart successfully", now)
  }

  /** `addToCart`. The two stock checks after the first (source lines 140 and
      170) can never fail once the first has passed. */
  method AddToCart(db: Store, user: User, productId: string, validId: bool, quantity: int, variants: Variants, now: int)
    returns (reply: Reply)
    requires db.Valid()
    modifies db
    ensures Step(reply, db.State()) == AddToCartStep(old(db.State()), user, productId, validId, quantity, variants, now)
    ensures db.Valid()
  {
    ghost var d := db.State();
    AddToCartPreservesValidity(d, user, productId, validId, quantity, variants, now);
    var missing := ValidateRequiredFields(CartBody(productId, quantity), ["productId", "quantity"]);
    if missing.Some? {
      return Threw(missing.value);
    }
    if quantity < 1 {
      return Refused(400, "Quantity must be at least 1");
    }
    if !validId {
      return Threw(CastFailure(productId));
    }
    if productId !in db.products {
      return Refused(404, "Product not found");
    }
    var product := db.products[productId];
    if !IsActive(product) {
      return Refused(400, "Product is not available");
    }
    var reserved := CountReserved(db.carts, productId);
    var available := product.inventory.quantity - reserved;
    if available < quantity {
      return Refused(400, "Cannot add " + IntToString(quantity) + " items. Only " + IntToString(Max0(available))
                          + " items available (" + IntToString(reserved) + " already in other carts)");
    }
    if available <= 0 {
      assert false;
    }
    reply := AddLine(db, user, productId, quantity, variants, UnitPrice(product, now),
                     product.inventory.quantity, reserved, now);
  }

  /** The second half of `addToCart`, entered with a quantity that fits in the
      stock left by `reserved`. */
  method AddLine(db: Store, user: User, productId: Id, quantity: int, variants: Variants, price: real,
                 stock: int, reserved: int, now: int) returns (reply: Reply)
    requires 1 <= quantity <= stock - reserved
    modifies db
    ensures Step(reply, db.State()) == AddLineStep(old(db.State()), user, productId, quantity, variants, price, now)
  {
    var at := FindCart(db.carts, user.id);
    var cart: Cart;
    if at.Some? {
      cart := new Cart.Load(db.carts[at.value]);
    } else {
      cart := new Cart.New(user.id, now);
    }
    var index := LineIndex(cart.items, productId, variants);
    if index.Some? {
      var i := index.value;
      var current := cart.items[i].quantity;
      var availableForThisUser := stock - (reserved - current);
      if current + quantity > availableForThisUser {
        assert false;
      }
      cart.items := cart.items[i := cart.items[i].(quantity := current + quantity, price := price)];
    } else {
      cart.items := cart.items + [CartLine(productId, quantity, price, variants)];
    }
    var err := cart.Save(now);
    if err.Some? {
      return Threw(err.value);
    }
    db.carts := PutCart(db.carts, at, cart.Doc());
    reply := Ok(200, "Item added to cart successfully");
  }

  lemma AddToCartPreservesValidity(d: Db, user: User, productId: string, validId: bool, quantity: int, variants: Variants, now: int)
    requires ValidDb(d)
    ensures ValidDb(AddToCartStep(d, user, productId, validId, quantity, variants, now).after)
  {
    var missing := ValidateRequiredFields(CartBody(productId, quantity), ["productId", "quantity"]);
    if missing.None? && quantity >= 1 && validId && productId in d.products && IsActive(d.products[productId]) {
      var at := FindCart(d.carts, user.id);
      var cart := if at.Some? then d.carts[at.value] else EmptyCart(user.id, now);
      var doc := cart.(items := AddedLines(cart.items, productId, quantity, UnitPrice(d.products[productId], now), variants));
      SaveStepStored(d, at, doc, "Item added to cart successfully", now);
    }
  }

  /** `addToCart` succeeds exactly when the body names a product, the quantity is
      at least 1, Mongoose can cast the id, the product exists and is active, and the quantity fits in the
      stock the other reservations leave. Every refusal changes nothing. */
  lemma AddToCartSucceedsIff(d: Db, user: User, productId: string, validId: bool, quantity: int, variants: Variants, now: int)
    requires ValidDb(d)
    ensures var s := AddToCartStep(d, user, productId, validId, quantity, variants, now);
      (s.reply.Ok? <==> productId != "" && quantity >= 1 && validId && productId in d.products
                         && IsActive(d.products[productId])
                         && quantity <= d.products[productId].inventory.quantity - Reserved(d.carts, productId))
      && (!s.reply.Ok? ==> s.after == d)
  {
    CartBodyComplete(productId, quantity);
    if productId != "" && quantity >= 1 && validId && productId in d.products && IsActive(d.products[productId])
       && quantity <= d.products[productId].inventory.quantity - Reserved(d.carts, productId) {
      var price := UnitPrice(d.products[productId], now);
      assert AddToCartStep(d, user, productId, validId, quantity, variants, now) == AddLineStep(d, user, productId, quantity, variants, price, now);
      AddLineSucceeds(d, user, productId, quantity, variants, price, now);
    }
  }

  /** The required-field check of `addToCart` passes exactly when the product
      id is not empty and the quantity not 0. */
  lemma CartBodyComplete(productId: string, quantity: int)
    ensures ValidateRequiredFields(CartBody(productId, quantity), ["productId", "quantity"]).None?
            <==> productId != "" && quantity != 0
  {
    var body := CartBody(productId, quantity);
    assert Field(body, "productId") == Str(productId) && Field(body, "quantity") == Num(quantity as real);
  }

  /** Once the checks have passed, the write-back of `addToCart` cannot fail:
      the cart has an owner and every quantity stays at least 1. */
  lemma AddLineSucceeds(d: Db, user: User, productId: Id, quantity: int, variants: Variants, price: real, now: int)
    requires CartsStored(d.carts) && quantity >= 1
    ensures AddLineStep(d, user, productId, quantity, variants, price, now).reply.Ok?
  {
    var at := FindCart(d.carts, user.id);
    var cart := if at.Some? then d.carts[at.value] else EmptyCart(user.id, now);
    AddedLinesValid(cart.items, productId, quantity, price, variants);
  }

  /** The early refusals of `addToCart`, in the order it checks them; none of them
      touches a cart. */
  lemma AddToCartRefusals(d: Db, user: User, productId: string, validId: bool, quantity: int, variants: Variants, now: int)
    ensures var s := AddToCartStep(d, user, productId, validId, quantity, variants, now);
      (productId != "" && quantity < 0 ==> s == Step(Refused(400, "Quantity must be at least 1"), d))
      && (quantity == 0 ==> s.after == d && s.reply.Threw?)
      && (productId != "" && quantity >= 1 && !validId ==> s == Step(Threw(CastFailure(productId)), d))
      && (productId != "" && quantity >= 1 && validId && productId !in d.products ==> s == Step(Refused(404, "Product not found"), d))
      && (productId != "" && quantity >= 1 && validId && productId in d.products && !IsActive(d.products[productId]) ==>
            s == Step(Refused(400, "Product is not available"), d))
  {
    var body := CartBody(productId, quantity);
    assert Field(body, "productId") == Str(productId) && Field(body, "quantity") == Num(quantity as real);
  }

  /** A successful `addToCart` writes only the caller's cart, whose lines become
      the added lines, and leaves products, other carts, wishlists and orders alone. */
  lemma AddToCartEffect(d: Db, user: User, productId: string, validId: bool, quantity: int, variants: Variants, now: int)
    requires ValidDb(d)
    ensures var s := AddToCartStep(d, user, productId, validId, quantity, variants, now);
      s.reply.Ok? ==>
        s.after.products == d.products && s.after.wishlists == d.wishlists && s.after.orders == d.orders
        && CartLines(s.after, user.id)
           == AddedLines(CartLines(d, user.id), productId, quantity, UnitPrice(d.products[productId], now), variants)
        && |d.carts| <= |s.after.carts| <= |d.carts| + 1
        && forall j :: 0 <= j < |d.carts| && d.carts[j].user != Some(user.id) ==> s.after.carts[j] == d.carts[j]
  {
    var s := AddToCartStep(d, user, productId, validId, quantity, variants, now);
    if s.reply.Ok? {
      var price := UnitPrice(d.products[productId], now);
      assert s == AddLineStep(d, user, productId, quantity, variants, price, now);
      AddLineEffect(d, user, productId, quantity, variants, price, now);
    }
  }

  /** The write-back of `addToCart` touches only the caller's cart, whose lines
      become the added lines. */
  lemma AddLineEffect(d: Db, user: User, productId: Id, quantity: int, variants: Variants, price: real, now: int)
    ensures var s := AddLineStep(d, user, productId, quantity, variants, price, now);
      s.reply.Ok? ==>
        s.after.products == d.products && s.after.wishlists == d.wishlists && s.after.orders == d.orders
        && CartLines(s.after, user.id) == AddedLines(CartLines(d, user.id), productId, quantity, price, variants)
        && |d.carts| <= |s.after.carts| <= |d.carts| + 1
        && forall j :: 0 <= j < |d.carts| && d.carts[j].user != Some(user.id) ==> s.after.carts[j] == d.carts[j]
  {
    var s := AddLineStep(d, user, productId, quantity, variants, price, now);
    if s.reply.Ok? {
      var at := FindCart(d.carts, user.id);
      var cart := if at.Some? then d.carts[at.value] else EmptyCart(user.id, now);
      FindCartAfterPut(d.carts, user.id, Recomputed(cart.(items := AddedLines(cart.items, productId, quantity, price, variants)), now));
    }
  }

  /** A successful `addToCart` raises the product's reserved total by at most the
      quantity added, so reservations that fit in the stock keep fitting. */
  lemma AddToCartKeepsReservationsInStock(d: Db, user: User, productId: string, validId: bool, quantity: int, variants: Variants, now: int)
    requires ValidDb(d)
    requires productId in d.products ==> Reserved(d.carts, productId) <= d.products[productId].inventory.quantity
    ensures var s := AddToCartStep(d, user, productId, validId, quantity, variants, now);
      s.reply.Ok? ==>
        Reserved(d.carts, productId) <= Reserved(s.after.carts, productId) <= Reserved(d.carts, productId) + quantity
        && Reserved(s.after.carts, productId) <= s.after.products[productId].inventory.quantity
  {
    var s := AddToCartStep(d, user, productId, validId, quantity, variants, now);
    AddToCartSucceedsIff(d, user, productId, validId, quantity, variants, now);
    if s.reply.Ok? {
      var at := FindCart(d.carts, user.id);
      var cart := if at.Some? then d.carts[at.value] else EmptyCart(user.id, now);
      var price := UnitPrice(d.products[productId], now);
      var doc := cart.(items := AddedLines(cart.items, productId, quantity, price, variants));
      AddedLinesFirstLine(cart.items, productId, quantity, price, variants);
      ReservedPut(d.carts, at, Recomputed(doc, now), productId);
    }
  }

  // ---------------------------------------------------------------------------
  // updateCartItem

  /** The line `updateCartItem` writes: the new quantity at the current price. */
  function SetLine(items: seq<CartLine>, i: nat, quantity: int, price: real): (r: seq<CartLine>)
    requires i < |items|
    ensures |r| == |items| && r[i] == items[i].(quantity := quantity, price := price)
    ensures forall j :: 0 <= j < |items| && j != i ==> r[j] == items[j]
  {
    items[i := items[i].(quantity := quantity, price := price)]
  }

  function UpdateCartItemStep(d: Db, user: User, productId: string, quantity: int, variants: Variants, now: int): Step {
    var missing := ValidateRequiredFields(CartBody(productId, quantity), ["productId", "quantity"]);
    if missing.Some? then Step(Threw(missing.value), d)
    else if quantity < 0 then Step(Refused(400, "Quantity cannot be negative"), d)
    else match FindCart(d.carts, user.id)
      case None => Step(Refused(404, "Cart not found"), d)
      case Some(c) =>
        var items := d.carts[c].items;
        match LineIndex(items, productId, variants)
        case None => Step(Refused(404, "Item in cart not found"), d)
        case Some(i) =>
          if productId !in d.products then Step(Refused(404, "Product not found"), d)
          else
            var product := d.products[productId];
            var reservedByOthers := Reserved(d.carts, productId) - items[i].quantity;
            var availableForThisUser := product.inventory.quantity - reservedByOthers;
            if quantity > availableForThisUser then
              Step(Refused(400, "Cannot set quantity to " + IntToString(quantity) + ". Only "
                                + IntToString(availableForThisUser) + " items available ("
                                + IntToString(reservedByOthers) + " already reserved in other carts)"), d)
            else
              SaveStep(d, Some(c), d.carts[c].(items := SetLine(items, i, quantity, UnitPrice(product, now))),
                       "Cart updated successfully", now)
  }

  /** `updateCartItem`. The branch for a quantity of 0 (source line 231) is never
      reached: the required-field check has already refused a 0. */
  method UpdateCartItem(db: Store, user: User, productId: string, quantity: int, variants: Variants, now: int)
    returns (reply: Reply)
    requires db.Valid()
    modifies db
    ensures Step(reply, db.State()) == UpdateCartItemStep(old(db.State()), user, productId, quantity, variants, now)
    ensures db.Valid()
  {
    UpdateCartItemPreservesValidity(db.State(), user, productId, quantity, variants, now);
    assert Field(CartBody(productId, quantity), "quantity") == Num(quantity as real);
    var missing := ValidateRequiredFields(CartBody(productId, quantity), ["productId", "quantity"]);
    if missing.Some? {
      return Threw(missing.value);
    }
    if quantity < 0 {
      return Refused(400, "Quantity cannot be negative");
    }
    var at := FindCart(db.carts, user.id);
    if at.None? {
      return Refused(404, "Cart not found");
    }
    var cart := new Cart.Load(db.carts[at.value]);
    var index := LineIndex(cart.items, productId, variants);
    if index.None? {
      return Refused(404, "Item in cart not found");
    }
    var i := index.value;
    if quantity == 0 {
      assert false;
    }
    if productId !in db.products {
      return Refused(404, "Product not found");
    }
    var product := db.products[productId];
    var totalReserved := CountReserved(db.carts, productId);
    var reservedByOthers := totalReserved - cart.items[i].quantity;
    var availableForThisUser := product.inventory.quantity - reservedByOthers;
    if quantity > availableForThisUser {
      return Refused(400, "Cannot set quantity to " + IntToString(quantity) + ". Only "
                          + IntToString(availableForThisUser) + " items available ("
                          + IntToString(reservedByOthers) + " already reserved in other carts)");
    }
    cart.items := SetLine(cart.items, i, quantity, UnitPrice(product, now));
    var err := cart.Save(now);
    if err.Some? {
      return Threw(err.value);
    }
    db.carts := db.carts[at.value := cart.Doc()];
    reply := Ok(200, "Cart updated successfully");
  }

  lemma UpdateCartItemPreservesValidity(d: Db, user: User, productId: string, quantity: int, variants: Variants, now: int)
    requires ValidDb(d)
    ensures ValidDb(UpdateCartItemStep(d, user, productId, quantity, variants, now).after)
  {
    var c := FindCart(d.carts, user.id);
    if c.Some? {
      var items := d.carts[c.value].items;
      var i := LineIndex(items, productId, variants);
      if i.Some? && productId in d.products {
        var doc := d.carts[c.value].(items := SetLine(items, i.value, quantity, UnitPrice(d.products[productId], now)));
        SaveStepStored(d, c, doc, "Cart updated successfully", now);
      }
    }
  }

  /** A quantity of 0 is refused by the required-field check, so the removal the
      endpoint has for it never happens. */
  lemma UpdateCartItemZeroIsRefused(d: Db, user: User, productId: string, variants: Variants, now: int)
    ensures var s := UpdateCartItemStep(d, user, productId, 0, variants, now);
      s.after == d && s.reply.Threw?
  {
    assert Field(CartBody(productId, 0), "quantity") == Num(0.0);
  }

  /** `updateCartItem` succeeds exactly when the caller's cart has a line of the
      product in those variants, the product exists (active or not), and the new
      absolute quantity fits in the stock left by the other reservations; the
      line then holds that quantity at the current price, and nothing else in
      the cart changes. */
  lemma UpdateCartItemSucceedsIff(d: Db, user: User, productId: string, quantity: int, variants: Variants, now: int)
    requires ValidDb(d)
    ensures var s := UpdateCartItemStep(d, user, productId, quantity, variants, now);
      var c := FindCart(d.carts, user.id);
      var i := if c.Some? then LineIndex(d.carts[c.value].items, productId, variants) else None;
      (s.reply.Ok? <==>
         productId != "" && quantity >= 1 && c.Some? && i.Some? && productId in d.products
         && quantity <= d.products[productId].inventory.quantity
                        - (Reserved(d.carts, productId) - d.carts[c.value].items[i.value].quantity))
      && (!s.reply.Ok? ==> s.after == d)
      && (s.reply.Ok? ==>
            s.after.products == d.products && |s.after.carts| == |d.carts|
            && s.after.carts[c.value].items
               == SetLine(d.carts[c.value].items, i.value, quantity, UnitPrice(d.products[productId], now))
            && forall j :: 0 <= j < |d.carts| && j != c.value ==> s.after.carts[j] == d.carts[j])
  {
    var body := CartBody(productId, quantity);
    assert Field(body, "productId") == Str(productId) && Field(body, "quantity") == Num(quantity as real);
  }

  // ---------------------------------------------------------------------------
  // removeFromCart

  /** `items.filter(item => !(same product && same variants))`. */
  function WithoutLine(items: seq<CartLine>, productId: Id, variants: Variants): (r: seq<CartLine>)
    ensures |r| <= |items|
    ensures forall line :: line in r <==> line in items && !(line.product == productId && line.variants == variants)
  {
    if items == [] then []
    else if items[0].product == productId && items[0].variants == variants then WithoutLine(items[1..], productId, variants)
    else [items[0]] + WithoutLine(items[1..], productId, variants)
  }

  /** The filter shortens the lines exactly when one of them matches, and keeps
      them as they are otherwise. */
  lemma {:induction false} WithoutLineShortens(items: seq<CartLine>, productId: Id, variants: Variants)
    ensures LineIndex(items, productId, variants).None? ==> WithoutLine(items, productId, variants) == items
    ensures LineIndex(items, productId, variants).Some? ==> |WithoutLine(items, productId, variants)| < |items|
  {
    if items != [] {
      WithoutLineShortens(items[1..], productId, variants);
      if !(items[0].product == productId && items[0].variants == variants) {
        assert LineIndex(items, productId, variants).None? <==> LineIndex(items[1..], productId, variants).None?;
        assert items == [items[0]] + items[1..];
      }
    }
  }

  /** Removing keeps the lines' validity. */
  lemma {:induction false} WithoutLineValid(items: seq<CartLine>, productId: Id, variants: Variants)
    requires QuantitiesValid(items)
    ensures QuantitiesValid(WithoutLine(items, productId, variants))
  {
    var r := WithoutLine(items, productId, variants);
    forall k | 0 <= k < |r| ensures r[k].quantity >= 1 {
      assert r[k] in items;
    }
  }

  function RemoveFromCartStep(d: Db, user: User, productId: string, variants: Variants, now: int): Step {
    var missing := ValidateRequiredFields(map["productId" := Str(productId)], ["productId"]);
    if missing.Some? then Step(Threw(missing.value), d)
    else match FindCart(d.carts, user.id)
      case None => Step(Refused(404, "Cart not found"), d)
      case Some(c) =>
        var items := d.carts[c].items;
        var kept := WithoutLine(items, productId, variants);
        if |kept| == |items| then Step(Refused(404, "Item in cart not found"), d)
        else SaveStep(d, Some(c), d.carts[c].(items := kept), "Item removed from cart successfully", now)
  }

  /** `removeFromCart`. */
  method RemoveFromCart(db: Store, user: User, productId: string, variants: Variants, now: int) returns (reply: Reply)
    requires db.Valid()
    modifies db
    ensures Step(reply, db.State()) == RemoveFromCartStep(old(db.State()), user, productId, variants, now)
    ensures db.Valid()
  {
    RemoveFromCartPreservesValidity(db.State(), user, productId, variants, now);
    var missing := ValidateRequiredFields(map["productId" := Str(productId)], ["productId"]);
    if missing.Some? {
      return Threw(missing.value);
    }
    var at := FindCart(db.carts, user.id);
    if at.None? {
      return Refused(404, "Cart not found");
    }
    var cart := new Cart.Load(db.carts[at.value]);
    var initialLength := |cart.items|;
    cart.items := WithoutLine(cart.items, productId, variants);
    if |cart.items| == initialLength {
      return Refused(404, "Item in cart not found");
    }
    var err := cart.Save(now);
    if err.Some? {
      return Threw(err.value);
    }
    db.carts := db.carts[at.value := cart.Doc()];
    reply := Ok(200, "Item removed from cart successfully");
  }

  lemma RemoveFromCartPreservesValidity(d: Db, user: User, productId: string, variants: Variants, now: int)
    requires ValidDb(d)
    ensures ValidDb(RemoveFromCartStep(d, user, productId, variants, now).after)
  {
    var c := FindCart(d.carts, user.id);
    if c.Some? {
      var doc := d.carts[c.value].(items := WithoutLine(d.carts[c.value].items, productId, variants));
      SaveStepStored(d, c, doc, "Item removed from cart successfully", now);
    }
  }

  /** `removeFromCart` succeeds exactly when the caller's cart has a line of the
      product in those variants; it then drops every such line, keeps the others
      in order, and touches no other cart. */
  lemma RemoveFromCartSucceedsIff(d: Db, user: User, productId: string, variants: Variants, now: int)
    requires ValidDb(d)
    ensures var s := RemoveFromCartStep(d, user, productId, variants, now);
      var c := FindCart(d.carts, user.id);
      (s.reply.Ok? <==> productId != "" && c.Some? && LineIndex(d.carts[c.value].items, productId, variants).Some?)
      && (!s.reply.Ok? ==> s.after == d)
      && (s.reply.Ok? ==>
            s.after.products == d.products && |s.after.carts| == |d.carts|
            && s.after.carts[c.value].items == WithoutLine(d.carts[c.value].items, productId, variants)
            && forall j :: 0 <= j < |d.carts| && j != c.value ==> s.after.carts[j] == d.carts[j])
  {
    assert Field(map["productId" := Str(productId)], "productId") == Str(productId);
    var c := FindCart(d.carts, user.id);
    if c.Some? {
      WithoutLineShortens(d.carts[c.value].items, productId, variants);
      WithoutLineValid(d.carts[c.value].items, productId, variants);
    }
  }

  // ---------------------------------------------------------------------------
  // clearCart

  function ClearCartStep(d: Db, user: User, now: int): Step {
    match FindCart(d.carts, user.id)
    case None => Step(Refused(404, "Cart not found"), d)
    case Some(c) => SaveStep(d, Some(c), d.carts[c].(items := []), "Cart cleared successfully", now)
  }

  /** `clearCart` (the endpoint, through the model method). */
  method ClearCart(db: Store, user: User, now: int) returns (reply: Reply)
    requires db.Valid()
    modifies db
    ensures Step(reply, db.State()) == ClearCartStep(old(db.State()), user, now)
    ensures db.Valid()
  {
    ClearCartEmpties(db.State(), user, now);
    var at := FindCart(db.carts, user.id);
    if at.None? {
      return Refused(404, "Cart not found");
    }
    var cart := new Cart.Load(db.carts[at.value]);
    var err := cart.ClearCart(now);
    if err.Some? {
      // a cart without lines always passes validation
      assert false;
    }
    db.carts := db.carts[at.value := cart.Doc()];
    reply := Ok(200, "Cart cleared successfully");
  }

  /** Clearing succeeds whenever the caller has a cart and leaves it with no
      lines and zero totals; clearing again at the same time changes nothing more. */
  lemma ClearCartEmpties(d: Db, user: User, now: int)
    requires ValidDb(d)
    ensures var s := ClearCartStep(d, user, now);
      var c := FindCart(d.carts, user.id);
      ValidDb(s.after)
      && (s.reply.Ok? <==> c.Some?)
      && (c.None? ==> s.after == d)
      && (c.Some? ==> s.after.carts[c.value].items == [] && s.after.carts[c.value].totalItems == 0
                      && s.after.carts[c.value].totalPrice == 0.0
                      && ClearCartStep(s.after, user, now).after == s.after)
  {
    var c := FindCart(d.carts, user.id);
    if c.Some? {
      var doc := d.carts[c.value].(items := []);
      SaveStepStored(d, c, doc, "Cart cleared successfully", now);
      var after := ClearCartStep(d, user, now).after;
      FindCartAfterPut(d.carts, user.id, Recomputed(doc, now));
      assert after.carts[c.value].(items := []) == after.carts[c.value];
    }
  }

  // ---------------------------------------------------------------------------
  // syncCart

  /** What the loop body of `syncCart` makes of one line: nothing when its
      product is gone or not active, else the line with its quantity cut to the
      stock, kept only while that quantity is positive. */
  function SyncLine(line: CartLine, products: map<Id, Product>): (r: seq<CartLine>)
    ensures |r| <= 1
    ensures forall l :: l in r ==> l.product in products && IsActive(products[l.product])
                                    && 0 < l.quantity <= products[l.product].inventory.quantity
                                    && l.quantity <= line.quantity && l == line.(quantity := l.quantity)
  {
    if line.product !in products || !IsActive(products[line.product]) then []
    else
      var stock := products[line.product].inventory.quantity;
      var quantity := if line.quantity > stock then stock else line.quantity;
      if quantity > 0 then [line.(quantity := quantity)] else []
  }

  /** Whether the loop body sets `hasChanges` for one line. */
  predicate LineChanges(line: CartLine, products: map<Id, Product>) {
    line.product !in products || !IsActive(products[line.product])
    || line.quantity > products[line.product].inventory.quantity || line.quantity <= 0
  }

  /** `validItems` after the loop. */
  function SyncLines(items: seq<CartLine>, products: map<Id, Product>): seq<CartLine> {
    if items == [] then []
    else SyncLines(items[..|items| - 1], products) + SyncLine(items[|items| - 1], products)
  }

  /** `hasChanges` after the loop. */
  predicate Changed(items: seq<CartLine>, products: map<Id, Product>) {
    items != [] && (Changed(items[..|items| - 1], products) || LineChanges(items[|items| - 1], products))
  }

  /** Every line that survives a sync has an active product and a quantity
      between 1 and its stock. */
  lemma {:induction false} SyncLinesSound(items: seq<CartLine>, products: map<Id, Product>)
    ensures forall l :: l in SyncLines(items, products) ==>
      l.product in products && IsActive(products[l.product]) && 0 < l.quantity <= products[l.product].inventory.quantity
    decreases |items|
  {
    if items != [] {
      SyncLinesSound(items[..|items| - 1], products);
    }
  }

  lemma {:induction false} SyncLinesAppend(a: seq<CartLine>, b: seq<CartLine>, products: map<Id, Product>)
    ensures SyncLines(a + b, products) == SyncLines(a, products) + SyncLines(b, products)
    ensures Changed(a + b, products) <==> Changed(a, products) || Changed(b, products)
    decreases |b|
  {
    if b == [] {
      assert a + b == a;
    } else {
      assert (a + b)[..|a + b| - 1] == a + b[..|b| - 1];
      SyncLinesAppend(a, b[..|b| - 1], products);
    }
  }

  /** `hasChanges` is set exactly when the sync alters the lines: without a
      change the lines are kept as they are, and any change lowers the item count. */
  lemma {:induction false} SyncChangesIff(items: seq<CartLine>, products: map<Id, Product>)
    requires QuantitiesValid(items)
    ensures !Changed(items, products) ==> SyncLines(items, products) == items
    ensures Changed(items, products) ==> TotalItems(SyncLines(items, products)) < TotalItems(items)
    ensures TotalItems(SyncLines(items, products)) <= TotalItems(items)
    ensures Changed(items, products) <==> SyncLines(items, products) != items
    decreases |items|
  {
    if items != [] {
      var front, last := items[..|items| - 1], items[|items| - 1];
      assert items == front + [last];
      SyncChangesIff(front, products);
      SyncLineChanges(last, products);
      ItemsAppend(SyncLines(front, products), SyncLine(last, products));
    }
  }

  /** The same for one line: the loop body keeps it as it is unless it sets
      `hasChanges`, and a change lowers its quantity. */
  lemma SyncLineChanges(line: CartLine, products: map<Id, Product>)
    requires line.quantity >= 1
    ensures !LineChanges(line, products) ==> SyncLine(line, products) == [line]
    ensures LineChanges(line, products) ==> TotalItems(SyncLine(line, products)) < line.quantity
    ensures TotalItems(SyncLine(line, products)) <= line.quantity
  {
    var r := SyncLine(line, products);
    if r != [] {
      assert r == [r[0]] && r[..0] == [];
    }
  }

  /** A second sync against the same products finds nothing to change. */
  lemma {:induction false} SyncIdempotent(items: seq<CartLine>, products: map<Id, Product>)
    ensures !Changed(SyncLines(items, products), products)
    ensures SyncLines(SyncLines(items, products), products) == SyncLines(items, products)
    decreases |items|
  {
    if items != [] {
      var front, last := items[..|items| - 1], items[|items| - 1];
      SyncIdempotent(front, products);
      SyncLinesAppend(SyncLines(front, products), SyncLine(last, products), products);
      var tail := SyncLine(last, products);
      if tail != [] {
        assert tail == [tail[0]];
        assert [tail[0]][..0] == [];
      }
    }
  }

  /** The loop of `syncCart`: walks the lines once, collecting the ones to keep
      and noting whether any had to be dropped or cut. */
  method SyncItems(items: seq<CartLine>, products: map<Id, Product>) returns (validItems: seq<CartLine>, hasChanges: bool)
    ensures validItems == SyncLines(items, products)
    ensures hasChanges == Changed(items, products)
  {
    hasChanges := false;
    validItems := [];
    var k := 0;
    while k < |items|
      invariant 0 <= k <= |items|
      invariant validItems == SyncLines(items[..k], products)
      invariant hasChanges == Changed(items[..k], products)
    {
      var item := items[k];
      assert items[..k + 1][..k] == items[..k];
      if item.product !in products || !IsActive(products[item.product]) {
        hasChanges := true;
      } else {
        var stock := products[item.product].inventory.quantity;
        if item.quantity > stock {
          item := item.(quantity := stock);
          hasChanges := true;
        }
        if item.quantity > 0 {
          validItems := validItems + [item];
        } else {
          hasChanges := true;
        }
      }
      k := k + 1;
    }
    assert items[..k] == items;
  }

  function SyncCartStep(d: Db, user: User, now: int): Step {
    match FindCart(d.carts, user.id)
    case None => Step(Refused(404, "Cart not found"), d)
    case Some(c) =>
      var items := d.carts[c].items;
      if !Changed(items, d.products) then Step(Ok(200, "Cart synchronized successfully"), d)
      else SaveStep(d, Some(c), d.carts[c].(items := SyncLines(items, d.products)), "Cart synchronized successfully", now)
  }

  /** `syncCart`: the `for` loop over the lines, then a save only if something changed. */
  method SyncCart(db: Store, user: User, now: int) returns (reply: Reply)
    requires db.Valid()
    modifies db
    ensures Step(reply, db.State()) == SyncCartStep(old(db.State()), user, now)
    ensures db.Valid()
  {
    SyncCartEffect(db.State(), user, now);
    var at := FindCart(db.carts, user.id);
    if at.None? {
      return Refused(404, "Cart not found");
    }
    var cart := new Cart.Load(db.carts[at.value]);
    var validItems, hasChanges := SyncItems(cart.items, db.products);
    if hasChanges {
      cart.items := validItems;
      var err := cart.Save(now);
      if err.Some? {
        // every synced line has a positive quantity
        assert false;
      }
      db.carts := db.carts[at.value := cart.Doc()];
    }
    reply := Ok(200, "Cart synchronized successfully");
  }

  /** `syncCart` succeeds whenever the caller has a cart. The cart then holds the
      synced lines, each of an active product with a quantity between 1 and its
      stock; it is written only when that changes its lines; nothing else changes. */
  lemma SyncCartEffect(d: Db, user: User, now: int)
    requires ValidDb(d)
    ensures var s := SyncCartStep(d, user, now);
      var c := FindCart(d.carts, user.id);
      ValidDb(s.after)
      && (s.reply.Ok? <==> c.Some?)
      && (c.Some? ==>
            var items := d.carts[c.value].items;
            s.after.carts[c.value].items == SyncLines(items, d.products)
            && (s.after == d <==> SyncLines(items, d.products) == items)
            && (forall l :: l in s.after.carts[c.value].items ==>
                  l.product in d.products && IsActive(d.products[l.product])
                  && 0 < l.quantity <= d.products[l.product].inventory.quantity)
            && s.after.products == d.products && |s.after.carts| == |d.carts|
            && forall j :: 0 <= j < |d.carts| && j != c.value ==> s.after.carts[j] == d.carts[j])
  {
    var c := FindCart(d.carts, user.id);
    if c.Some? {
      var items := d.carts[c.value].items;
      SyncChangesIff(items, d.products);
      SyncLinesSound(items, d.products);
      var doc := d.carts[c.value].(items := SyncLines(items, d.products));
      if Changed(items, d.products) {
        assert QuantitiesValid(doc.items);
        SaveStepStored(d, c, doc, "Cart synchronized successfully", now);
        assert SaveStep(d, c, doc, "Cart synchronized successfully", now).after.carts[c.value].items != items;
      }
    }
  }

  // ---------------------------------------------------------------------------
  // getCart

  /** `cart.items.filter(item => item.product && item.product.status === 'active')`. */
  function ActiveLines(items: seq<CartLine>, products: map<Id, Product>): (r: seq<CartLine>)
    ensures |r| <= |items|
    ensures forall l :: l in r <==> l in items && l.product in products && IsActive(products[l.product])
  {
    if items == [] then []
    else if items[0].product in products && IsActive(products[items[0].product]) then
      [items[0]] + ActiveLines(items[1..], products)
    else ActiveLines(items[1..], products)
  }

  /** The filter drops nothing exactly when it returns the lines unchanged. */
  lemma {:induction false} ActiveLinesSameLength(items: seq<CartLine>, products: map<Id, Product>)
    requires |ActiveLines(items, products)| == |items|
    ensures ActiveLines(items, products) == items
  {
    if items != [] {
      ActiveLinesSameLength(items[1..], products);
    }
  }

  /** `getCart` for an optional caller and an optional `userId` path parameter
      (`""` when absent). */
  function GetCartStep(d: Db, user: Option<User>, userId: string, now: int): Step {
    if user.Some? && userId != "" && userId != user.value.id then Step(Refused(403, "Access denied"), d)
    else if user.None? then Step(Ok(200, "Cart retrieved successfully"), d)
    else
      var target := if userId != "" then userId else user.value.id;
      match FindCart(d.carts, target)
      case None => Step(Ok(200, "Cart retrieved successfully"), d.(carts := d.carts + [EmptyCart(target, now)]))
      case Some(c) =>
        var items := d.carts[c].items;
        var valid := ActiveLines(items, d.products);
        if |valid| == |items| then Step(Ok(200, "Cart retrieved successfully"), d)
        else SaveStep(d, Some(c), d.carts[c].(items := valid), "Cart retrieved successfully", now)
  }

  /** `getCart`. */
  method GetCart(db: Store, user: Option<User>, userId: string, now: int) returns (reply: Reply)
    requires db.Valid()
    modifies db
    ensures Step(reply, db.State()) == GetCartStep(old(db.State()), user, userId, now)
    ensures db.Valid()
  {
    GetCartEffect(db.State(), user, userId, now);
    if user.Some? && userId != "" && userId != user.value.id {
      return Refused(403, "Access denied");
    }
    if user.None? {
      return Ok(200, "Cart retrieved successfully");
    }
    var target := if userId != "" then userId else user.value.id;
    var at := FindCart(db.carts, target);
    if at.None? {
      var created := new Cart.New(target, now);
      var err := created.Save(now);
      assert err.None?;
      db.carts := db.carts + [created.Doc()];
      return Ok(200, "Cart retrieved successfully");
    }
    var items := db.carts[at.value].items;
    if |items| > 0 {
      var valid := ActiveLines(items, db.products);
      if |valid| != |items| {
        var cart := new Cart.Load(db.carts[at.value]);
        cart.items := valid;
        var err := cart.Save(now);
        if err.Some? {
          // the kept lines passed validation before
          assert false;
        }
        db.carts := db.carts[at.value := cart.Doc()];
      }
    }
    reply := Ok(200, "Cart retrieved successfully");
  }

  /** A guest gets an empty answer and the collections are untouched; a caller
      asking for someone else's cart is refused; otherwise the call succeeds, the
      caller has a cart afterwards, and it holds only lines of active products. */
  lemma GetCartEffect(d: Db, user: Option<User>, userId: string, now: int)
    requires ValidDb(d)
    ensures var s := GetCartStep(d, user, userId, now);
      ValidDb(s.after)
      && (user.None? ==> s == Step(Ok(200, "Cart retrieved successfully"), d))
      && (user.Some? && userId != "" && userId != user.value.id ==> s == Step(Refused(403, "Access denied"), d))
      && (user.Some? && (userId == "" || userId == user.value.id) ==>
            s.reply.Ok? && s.after.products == d.products
            && FindCart(s.after.carts, user.value.id).Some?
            && forall l :: l in CartLines(s.after, user.value.id) ==> l.product in d.products && IsActive(d.products[l.product]))
  {
    if user.Some? && (userId == "" || userId == user.value.id) {
      var target := user.value.id;
      var c := FindCart(d.carts, target);
      if c.None? {
        FindCartAfterPut(d.carts, target, EmptyCart(target, now));
      } else {
        var items := d.carts[c.value].items;
        var valid := ActiveLines(items, d.products);
        if |valid| == |items| {
          ActiveLinesSameLength(items, d.products);
        } else {
          var doc := d.carts[c.value].(items := valid);
          assert QuantitiesValid(valid) by {
            forall k | 0 <= k < |valid| ensures valid[k].quantity >= 1 {
              assert valid[k] in items;
            }
          }
          SaveStepStored(d, c, doc, "Cart retrieved successfully", now);
          FindCartAfterPut(d.carts, target, Recomputed(doc, now));
        }
      }
    }
  }
}
