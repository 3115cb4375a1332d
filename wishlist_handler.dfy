/** backend/services/wishlist/handler.js: the wishlist endpoints, written like
    the cart endpoints: a pure `...Step` per endpoint and a method on the shared
    `Store` proved to agree with it. `validId` is what
    `mongoose.Types.ObjectId.isValid(productId)` answers; the Redis cache is
    taken to miss. */
module WishlistHandler {
  import opened Common
  import opened Responses
  import opened ProductModel
  import opened CartModel
  import opened WishlistModel
  import opened Database
  import opened CartHandler

  /** The caller's wishlist, or the empty one `new Wishlist({ user, items: [] })` builds. */
  function WishlistOf(d: Db, userId: Id): (w: WishlistDoc)
    ensures w.user == userId || userId in d.wishlists
  {
    if userId in d.wishlists then d.wishlists[userId] else WishlistDoc(userId, [], 0)
  }

  /** A wishlist as its pre-save hook stores it. */
  function Saved(owner: Id, items: seq<WishlistItem>): (w: WishlistDoc)
    ensures w.user == owner && w.items == items && CountMatches(w)
  {
    WishlistDoc(owner, items, |items|)
  }

  /** Storing a saved wishlist under its owner keeps the collection valid. */
  lemma PutWishlistStored(d: Db, owner: Id, items: seq<WishlistItem>)
    requires ValidDb(d)
    ensures ValidDb(d.(wishlists := d.wishlists[owner := Saved(owner, items)]))
  {
  }

  /** The checks `addToWishlist`, `removeFromWishlist` and `moveToCart` share on
      the path parameter. */
  function ProductIdProblem(productId: string, validId: bool): (r: Option<Reply>)
    ensures r.None? <==> productId != "" && validId
  {
    if productId == "" then Some(Refused(400, "Product ID is required"))
    else if !validId then Some(Refused(400, "Invalid product ID format"))
    else None
  }

  // ---------------------------------------------------------------------------
  // getWishlist

  /** `wishlist.items.filter(item => item.product && item.product.status === 'active')`. */
  function ActiveItems(items: seq<WishlistItem>, products: map<Id, Product>): (r: seq<WishlistItem>)
    ensures |r| <= |items|
    ensures forall item :: item in r <==> item in items && item.product in products && IsActive(products[item.product])
  {
    if items == [] then []
    else if items[0].product in products && IsActive(products[items[0].product]) then
      [items[0]] + ActiveItems(items[1..], products)
    else ActiveItems(items[1..], products)
  }

  /** The filter drops nothing exactly when it returns the items unchanged. */
  lemma {:induction false} ActiveItemsSameLength(items: seq<WishlistItem>, products: map<Id, Product>)
    requires |ActiveItems(items, products)| == |items|
    ensures ActiveItems(items, products) == items
  {
    if items != [] {
      ActiveItemsSameLength(items[1..], products);
    }
  }

  function GetWishlistStep(d: Db, user: User): Step {
    if user.id !in d.wishlists then
      Step(Ok(200, "Wishlist retrieved successfully"), d.(wishlists := d.wishlists[user.id := Saved(user.id, [])]))
    else
      var items := d.wishlists[user.id].items;
      var valid := ActiveItems(items, d.products);
      if |valid| == |items| then Step(Ok(200, "Wishlist retrieved successfully"), d)
      else Step(Ok(200, "Wishlist retrieved successfully"),
                d.(wishlists := d.wishlists[user.id := Saved(user.id, valid)]))
  }

  /** `getWishlist`: find or create, then drop the items of missing or inactive
      products and save when something was dropped. */
  method GetWishlist(db: Store, user: User) returns (reply: Reply)
    requires db.Valid()
    modifies db
    ensures Step(reply, db.State()) == GetWishlistStep(old(db.State()), user)
    ensures db.Valid()
  {
    GetWishlistEffect(db.State(), user);
    if user.id !in db.wishlists {
      var created := new Wishlist.New(user.id);
      created.Save();
      db.wishlists := db.wishlists[user.id := created.Doc()];
      return Ok(200, "Wishlist retrieved successfully");
    }
    var items := db.wishlists[user.id].items;
    if |items| > 0 {
      var valid := ActiveItems(items, db.products);
      if |valid| != |items| {
        var wishlist := new Wishlist.Load(db.wishlists[user.id]);
        wishlist.items := valid;
        wishlist.Save();
        db.wishlists := db.wishlists[user.id := wishlist.Doc()];
      }
    }
    reply := Ok(200, "Wishlist retrieved successfully");
  }

  /** `getWishlist` always answers, leaves the caller with a wishlist that lists
      only active products, keeps every item of an active product, and touches
      no other collection and no other user's wishlist. */
  lemma GetWishlistEffect(d: Db, user: User)
    requires ValidDb(d)
    ensures var s := GetWishlistStep(d, user);
      ValidDb(s.after) && s.reply.Ok?
      && s.after.products == d.products && s.after.carts == d.carts && s.after.orders == d.orders
      && user.id in s.after.wishlists
      && (forall u :: u in d.wishlists && u != user.id ==> u in s.after.wishlists && s.after.wishlists[u] == d.wishlists[u])
      && (forall item :: item in s.after.wishlists[user.id].items <==>
            item in WishlistOf(d, user.id).items && item.product in d.products && IsActive(d.products[item.product]))
  {
    if user.id in d.wishlists {
      var items := d.wishlists[user.id].items;
      if |ActiveItems(items, d.products)| == |items| {
        ActiveItemsSameLength(items, d.products);
      }
    }
  }

  // ---------------------------------------------------------------------------
  // addToWishlist

  function AddToWishlistStep(d: Db, user: User, productId: string, validId: bool, now: int): Step {
    var problem := ProductIdProblem(productId, validId);
    if problem.Some? then Step(problem.value, d)
    else if productId !in d.products then Step(Refused(404, "Product not found"), d)
    else if !IsActive(d.products[productId]) then Step(Refused(400, "Product is not available"), d)
    else
      var wishlist := WishlistOf(d, user.id);
      if HasItem(wishlist.items, productId) then Step(Refused(400, "Product is already in your wishlist"), d)
      else Step(Ok(200, "Item added to wishlist successfully"),
                d.(wishlists := d.wishlists[user.id := Saved(user.id, WithItem(wishlist.items, productId, now))]))
  }

  /** `addToWishlist`. */
  method AddToWishlist(db: Store, user: User, productId: string, validId: bool, now: int) returns (reply: Reply)
    requires db.Valid()
    modifies db
    ensures Step(reply, db.State()) == AddToWishlistStep(old(db.State()), user, productId, validId, now)
    ensures db.Valid()
  {
    PutWishlistStored(db.State(), user.id, WithItem(WishlistOf(db.State(), user.id).items, productId, now));
    var problem := ProductIdProblem(productId, validId);
    if problem.Some? {
      return problem.value;
    }
    if productId !in db.products {
      return Refused(404, "Product not found");
    }
    if !IsActive(db.products[productId]) {
      return Refused(400, "Product is not available");
    }
    var wishlist: Wishlist;
    if user.id in db.wishlists {
      wishlist := new Wishlist.Load(db.wishlists[user.id]);
    } else {
      wishlist := new Wishlist.New(user.id);
    }
    if HasItem(wishlist.items, productId) {
      return Refused(400, "Product is already in your wishlist");
    }
    wishlist.AddItem(productId, now);
    db.wishlists := db.wishlists[user.id := wishlist.Doc()];
    reply := Ok(200, "Item added to wishlist successfully");
  }

  /** `addToWishlist` succeeds exactly when the id is present and well formed,
      the product exists and is active, and the caller's wishlist does not list
      it yet; it then appends exactly one item and changes nothing else. Every
      refusal changes nothing. */
  lemma AddToWishlistSucceedsIff(d: Db, user: User, productId: string, validId: bool, now: int)
    requires ValidDb(d)
    ensures var s := AddToWishlistStep(d, user, productId, validId, now);
      ValidDb(s.after)
      && (s.reply.Ok? <==> productId != "" && validId && productId in d.products && IsActive(d.products[productId])
                           && !HasItem(WishlistOf(d, user.id).items, productId))
      && (!s.reply.Ok? ==> s.after == d)
      && (s.reply.Ok? ==>
            s.after == d.(wishlists := s.after.wishlists)
            && s.after.wishlists == d.wishlists[user.id := s.after.wishlists[user.id]]
            && s.after.wishlists[user.id].items == WishlistOf(d, user.id).items + [WishlistItem(productId, now)])
  {
    PutWishlistStored(d, user.id, WithItem(WishlistOf(d, user.id).items, productId, now));
  }

  /** A wishlist whose products are distinct stays so through `addToWishlist`. */
  lemma AddToWishlistKeepsDistinct(d: Db, user: User, productId: string, validId: bool, now: int)
    requires Distinct(WishlistOf(d, user.id).items)
    ensures var s := AddToWishlistStep(d, user, productId, validId, now);
      user.id in s.after.wishlists ==> Distinct(s.after.wishlists[user.id].items)
  {
    var s := AddToWishlistStep(d, user, productId, validId, now);
    if s.after != d {
      WithItemKeepsDistinct(WishlistOf(d, user.id).items, productId, now);
    }
  }

  // ---------------------------------------------------------------------------
  // removeFromWishlist

  function RemoveFromWishlistStep(d: Db, user: User, productId: string, validId: bool): Step {
    var problem := ProductIdProblem(productId, validId);
    if problem.Some? then Step(problem.value, d)
    else if user.id !in d.wishlists then Step(Refused(404, "Wishlist not found"), d)
    else
      var items := d.wishlists[user.id].items;
      if !HasItem(items, productId) then Step(Refused(400, "Product not found in wishlist"), d)
      else Step(Ok(200, "Item removed from wishlist successfully"),
                d.(wishlists := d.wishlists[user.id := Saved(user.id, WithoutItem(items, productId))]))
  }

  /** `removeFromWishlist`. */
  method RemoveFromWishlist(db: Store, user: User, productId: string, validId: bool) returns (reply: Reply)
    requires db.Valid()
    modifies db
    ensures Step(reply, db.State()) == RemoveFromWishlistStep(old(db.State()), user, productId, validId)
    ensures db.Valid()
  {
    PutWishlistStored(db.State(), user.id, WithoutItem(WishlistOf(db.State(), user.id).items, productId));
    var problem := ProductIdProblem(productId, validId);
    if problem.Some? {
      return problem.value;
    }
    if user.id !in db.wishlists {
      return Refused(404, "Wishlist not found");
    }
    var wishlist := new Wishlist.Load(db.wishlists[user.id]);
    if !wishlist.Has(productId) {
      return Refused(400, "Product not found in wishlist");
    }
    wishlist.RemoveItem(productId);
    db.wishlists := db.wishlists[user.id := wishlist.Doc()];
    reply := Ok(200, "Item removed from wishlist successfully");
  }

  /** `removeFromWishlist` succeeds exactly when the id is present and well
      formed, the caller has a wishlist and it lists the product; the product is
      then gone from it and every other item stays. */
  lemma RemoveFromWishlistSucceedsIff(d: Db, user: User, productId: string, validId: bool)
    requires ValidDb(d)
    ensures var s := RemoveFromWishlistStep(d, user, productId, validId);
      ValidDb(s.after)
      && (s.reply.Ok? <==> productId != "" && validId && user.id in d.wishlists
                           && HasItem(d.wishlists[user.id].items, productId))
      && (!s.reply.Ok? ==> s.after == d)
      && (s.reply.Ok? ==>
            s.after == d.(wishlists := d.wishlists[user.id := s.after.wishlists[user.id]])
            && !HasItem(s.after.wishlists[user.id].items, productId)
            && forall item :: item in s.after.wishlists[user.id].items <==>
                                item in d.wishlists[user.id].items && item.product != productId)
  {
    PutWishlistStored(d, user.id, WithoutItem(WishlistOf(d, user.id).items, productId));
  }

  /** Adding a product to a stored wishlist and removing it again gives back the
      collections as they were. */
  lemma AddThenRemoveRestores(d: Db, user: User, productId: string, validId: bool, now: int)
    requires ValidDb(d) && user.id in d.wishlists
    requires AddToWishlistStep(d, user, productId, validId, now).reply.Ok?
    ensures var added := AddToWishlistStep(d, user, productId, validId, now).after;
      RemoveFromWishlistStep(added, user, productId, validId) == Step(Ok(200, "Item removed from wishlist successfully"), d)
  {
    var items := d.wishlists[user.id].items;
    var added := AddToWishlistStep(d, user, productId, validId, now).after;
    AddThenRemove(items, productId, now);
    assert Saved(user.id, items) == d.wishlists[user.id];
    assert added.wishlists[user.id := Saved(user.id, items)] == d.wishlists;
  }

  // ---------------------------------------------------------------------------
  // moveToCart

  /** The cart lines after the move: the first line of the product, whatever its
      variants, grows by `quantity` and takes the current price; without one, a
      line with no variants is appended. */
  function MovedLines(items: seq<CartLine>, productId: Id, quantity: int, price: real): (r: seq<CartLine>)
    ensures FirstLineOf(items, productId).Some? ==>
      var i := FirstLineOf(items, productId).value;
      |r| == |items| && r[i] == items[i].(quantity := items[i].quantity + quantity, price := price)
      && forall j :: 0 <= j < |items| && j != i ==> r[j] == items[j]
    ensures FirstLineOf(items, productId).None? ==>
      r == items + [CartLine(productId, quantity, price, NoVariants)]
  {
    match FirstLineOf(items, productId)
    case Some(i) => items[i := items[i].(quantity := items[i].quantity + quantity, price := price)]
    case None => items + [CartLine(productId, quantity, price, NoVariants)]
  }

  /** The cart `moveToCart` saves, before its pre-save hook. */
  function MovedCart(d: Db, user: User, productId: Id, quantity: int, price: real, now: int): CartDoc {
    var at := FindCart(d.carts, user.id);
    var cart := if at.Some? then d.carts[at.value] else EmptyCart(user.id, now);
    cart.(items := MovedLines(cart.items, productId, quantity, price))
  }

  /** The caller's wishlist without the moved product, when the caller has one. */
  function DroppedFromWishlist(d: Db, userId: Id, productId: Id): (r: map<Id, WishlistDoc>)
    ensures r.Keys == d.wishlists.Keys
  {
    if userId in d.wishlists then d.wishlists[userId := Saved(userId, WithoutItem(d.wishlists[userId].items, productId))]
    else d.wishlists
  }

  /** `moveToCart` from the cart lookup on: the cart is saved, and only after a
      successful save is the product taken off the wishlist. */
  function MoveLineStep(d: Db, user: User, productId: Id, quantity: int, price: real, now: int): Step {
    var saved := SaveStep(d, FindCart(d.carts, user.id), MovedCart(d, user, productId, quantity, price, now),
                          "Item moved to cart successfully", now);
    if saved.reply.Ok? then Step(saved.reply, saved.after.(wishlists := DroppedFromWishlist(d, user.id, productId)))
    else saved
  }

  /** `moveToCart` for a body `quantity` (`None` when absent, defaulting to 1). */
  function MoveToCartStep(d: Db, user: User, productId: string, validId: bool, quantity: Option<int>, now: int): Step {
    var q := quantity.GetOr(1);
    var problem := ProductIdProblem(productId, validId);
    if problem.Some? then Step(problem.value, d)
    else if productId !in d.products then Step(Refused(404, "Product not found"), d)
    else if !IsActive(d.products[productId]) then Step(Refused(400, "Product is not available"), d)
    else
      var product := d.products[productId];
      var reserved := Reserved(d.carts, productId);
      var available := product.inventory.quantity - reserved;
      if available < q then
        Step(Refused(400, "Cannot add to cart. Only " + IntToString(Max0(available)) + " items available ("
                          + IntToString(reserved) + " already in other carts)"), d)
      else MoveLineStep(d, user, productId, q, UnitPrice(product, now), now)
  }

  /** `moveToCart`. */
  method MoveToCart(db: Store, user: User, productId: string, validId: bool, quantity: Option<int>, now: int)
    returns (reply: Reply)
    requires db.Valid()
    modifies db
    ensures Step(reply, db.State()) == MoveToCartStep(old(db.State()), user, productId, validId, quantity, now)
    ensures db.Valid()
  {
    MoveToCartPreservesValidity(db.State(), user, productId, validId, quantity, now);
    var q := quantity.GetOr(1);
    var problem := ProductIdProblem(productId, validId);
    if problem.Some? {
      return problem.value;
    }
    if productId !in db.products {
      return Refused(404, "Product not found");
    }
    var product := db.products[productId];
    if !IsActive(product) {
      return Refused(400, "Product is not available");
    }
    var reserved := CountReserved(db.carts, productId);
    var available := product.inventory.quantity - reserved;
    if available < q {
      return Refused(400, "Cannot add to cart. Only " + IntToString(Max0(available)) + " items available ("
                          + IntToString(reserved) + " already in other carts)");
    }
    reply := MoveLine(db, user, productId, q, UnitPrice(product, now), product.inventory.quantity, reserved, now);
  }

  /** The second half of `moveToCart`, entered with a quantity that fits in the
      stock left by `reserved`. */
  method MoveLine(db: Store, user: User, productId: Id, quantity: int, price: real, stock: int, reserved: int, now: int)
    returns (reply: Reply)
    requires db.Valid() && quantity <= stock - reserved
    modifies db
    ensures Step(reply, db.State()) == MoveLineStep(old(db.State()), user, productId, quantity, price, now)
  {
    ghost var d := db.State();
    ghost var doc := MovedCart(d, user, productId, quantity, price, now);
    var at := FindCart(db.carts, user.id);
    var cart: Cart;
    if at.Some? {
      cart := new Cart.Load(db.carts[at.value]);
    } else {
      cart := new Cart.New(user.id, now);
    }
    PutOnLine(cart, productId, quantity, price, stock, reserved);
    assert cart.Doc() == doc;
    var err := cart.Save(now);
    if err.Some? {
      return Threw(err.value);
    }
    StoreMoved(db, at, cart.Doc(), user.id, productId);
    reply := Ok(200, "Item moved to cart successfully");
  }

  /** The writes of a successful `moveToCart`: the saved cart goes back in its
      place (or is added) and the product leaves the caller's wishlist. */
  method StoreMoved(db: Store, at: Option<nat>, doc: CartDoc, userId: Id, productId: Id)
    requires at.Some? ==> at.value < |db.carts|
    requires WishlistsStored(db.wishlists)
    modifies db
    ensures db.State() == old(db.State()).(carts := PutCart(old(db.carts), at, doc),
                                           wishlists := DroppedFromWishlist(old(db.State()), userId, productId))
  {
    db.carts := PutCart(db.carts, at, doc);
    DropFromWishlist(db, userId, productId);
  }

  /** The lines edit of `moveToCart` on the loaded cart. The per-user check on
      an existing line (source line 253) can never fail once the reservation
      check has passed. */
  method PutOnLine(cart: Cart, productId: Id, quantity: int, price: real, stock: int, reserved: int)
    requires quantity <= stock - reserved
    modifies cart
    ensures cart.Doc() == old(cart.Doc()).(items := MovedLines(old(cart.items), productId, quantity, price))
  {
    var existing := FirstLineOf(cart.items, productId);
    if existing.Some? {
      var i := existing.value;
      var current := cart.items[i].quantity;
      var availableForThisUser := stock - (reserved - current);
      if current + quantity > availableForThisUser {
        assert false;
      }
      cart.items := cart.items[i := cart.items[i].(quantity := current + quantity, price := price)];
    } else {
      cart.items := cart.items + [CartLine(productId, quantity, price, NoVariants)];
    }
  }

  /** `wishlist.removeItem(productId)` on the caller's wishlist, if there is one. */
  method DropFromWishlist(db: Store, userId: Id, productId: Id)
    requires WishlistsStored(db.wishlists)
    modifies db
    ensures db.State() == old(db.State()).(wishlists := DroppedFromWishlist(old(db.State()), userId, productId))
  {
    if userId in db.wishlists {
      var wishlist := new Wishlist.Load(db.wishlists[userId]);
      wishlist.RemoveItem(productId);
      db.wishlists := db.wishlists[userId := wishlist.Doc()];
    }
  }

  lemma MoveToCartPreservesValidity(d: Db, user: User, productId: string, validId: bool, quantity: Option<int>, now: int)
    requires ValidDb(d)
    ensures ValidDb(MoveToCartStep(d, user, productId, validId, quantity, now).after)
  {
    var q := quantity.GetOr(1);
    if productId != "" && validId && productId in d.products && IsActive(d.products[productId]) {
      var at := FindCart(d.carts, user.id);
      var doc := MovedCart(d, user, productId, q, UnitPrice(d.products[productId], now), now);
      SaveStepStored(d, at, doc, "Item moved to cart successfully", now);
      var saved := SaveStep(d, at, doc, "Item moved to cart successfully", now);
      if user.id in d.wishlists {
        PutWishlistStored(saved.after, user.id, WithoutItem(d.wishlists[user.id].items, productId));
      }
    }
  }

  /** `moveToCart` succeeds exactly when the id is present and well formed, the
      product exists and is active, the quantity fits in the stock the carts
      leave, and the cart line it lands on ends with at least one unit: the
      quantity is never checked to be positive, so a negative one is accepted
      when the cart already holds enough of the product. Every refusal changes
      nothing. */
  lemma MoveToCartSucceedsIff(d: Db, user: User, productId: string, validId: bool, quantity: Option<int>, now: int)
    requires ValidDb(d)
    ensures var s := MoveToCartStep(d, user, productId, validId, quantity, now);
      var q := quantity.GetOr(1);
      var lines := CartLines(d, user.id);
      (s.reply.Ok? <==>
         productId != "" && validId && productId in d.products && IsActive(d.products[productId])
         && q <= d.products[productId].inventory.quantity - Reserved(d.carts, productId)
         && (match FirstLineOf(lines, productId)
             case Some(i) => lines[i].quantity + q >= 1
             case None => q >= 1))
      && (!s.reply.Ok? ==> s.after == d)
  {
    var q := quantity.GetOr(1);
    if productId != "" && validId && productId in d.products && IsActive(d.products[productId]) {
      var at := FindCart(d.carts, user.id);
      var cart := if at.Some? then d.carts[at.value] else EmptyCart(user.id, now);
      var moved := MovedLines(cart.items, productId, q, UnitPrice(d.products[productId], now));
      assert cart.items == CartLines(d, user.id);
      assert HasOwner(cart.user, cart.sessionId);
      match FirstLineOf(cart.items, productId)
      case Some(i) =>
        assert QuantitiesValid(moved) <==> moved[i].quantity >= 1;
      case None =>
        assert QuantitiesValid(moved) <==> moved[|cart.items|].quantity >= 1;
    }
  }

  /** A successful `moveToCart` puts the units on the first line of the product
      (or a new line without variants), takes the product off the caller's
      wishlist, and leaves products, orders and other users' carts and
      wishlists alone. */
  lemma MoveToCartEffect(d: Db, user: User, productId: string, validId: bool, quantity: Option<int>, now: int)
    requires ValidDb(d)
    ensures var s := MoveToCartStep(d, user, productId, validId, quantity, now);
      s.reply.Ok? ==>
        s.after.products == d.products && s.after.orders == d.orders
        && CartLines(s.after, user.id)
           == MovedLines(CartLines(d, user.id), productId, quantity.GetOr(1), UnitPrice(d.products[productId], now))
        && (forall j :: 0 <= j < |d.carts| && d.carts[j].user != Some(user.id) ==> s.after.carts[j] == d.carts[j])
        && (user.id in s.after.wishlists ==> !HasItem(s.after.wishlists[user.id].items, productId))
        && (forall u :: u != user.id ==> (u in s.after.wishlists <==> u in d.wishlists))
        && (forall u :: u in d.wishlists && u != user.id ==> s.after.wishlists[u] == d.wishlists[u])
  {
    var s := MoveToCartStep(d, user, productId, validId, quantity, now);
    if s.reply.Ok? {
      var q, price := quantity.GetOr(1), UnitPrice(d.products[productId], now);
      assert s == MoveLineStep(d, user, productId, q, price, now);
      MoveLineEffect(d, user, productId, q, price, now);
    }
  }

  lemma MoveLineEffect(d: Db, user: User, productId: Id, quantity: int, price: real, now: int)
    ensures var s := MoveLineStep(d, user, productId, quantity, price, now);
      s.reply.Ok? ==>
        s.after.products == d.products && s.after.orders == d.orders
        && CartLines(s.after, user.id) == MovedLines(CartLines(d, user.id), productId, quantity, price)
        && (forall j :: 0 <= j < |d.carts| && d.carts[j].user != Some(user.id) ==> s.after.carts[j] == d.carts[j])
        && (user.id in s.after.wishlists ==> !HasItem(s.after.wishlists[user.id].items, productId))
        && (forall u :: u != user.id ==> (u in s.after.wishlists <==> u in d.wishlists))
        && (forall u :: u in d.wishlists && u != user.id ==> s.after.wishlists[u] == d.wishlists[u])
  {
    var s := MoveLineStep(d, user, productId, quantity, price, now);
    if s.reply.Ok? {
      var at := FindCart(d.carts, user.id);
      var doc := Recomputed(MovedCart(d, user, productId, quantity, price, now), now);
      assert s.after.carts == PutCart(d.carts, at, doc);
      assert s.after.wishlists == DroppedFromWishlist(d, user.id, productId);
      MovedCartLines(d, user, productId, quantity, price, now);
      DroppedFromWishlistEffect(d, user.id, productId);
    }
  }

  /** The cart written back by `moveToCart` is the caller's cart with the moved
      lines, in the caller's place, and no other cart changes. */
  lemma MovedCartLines(d: Db, user: User, productId: Id, quantity: int, price: real, now: int)
    ensures var at := FindCart(d.carts, user.id);
      var carts := PutCart(d.carts, at, Recomputed(MovedCart(d, user, productId, quantity, price, now), now));
      var at' := FindCart(carts, user.id);
      at'.Some? && carts[at'.value].items == MovedLines(CartLines(d, user.id), productId, quantity, price)
      && (forall j :: 0 <= j < |d.carts| && d.carts[j].user != Some(user.id) ==> carts[j] == d.carts[j])
  {
    var doc := Recomputed(MovedCart(d, user, productId, quantity, price, now), now);
    FindCartAfterPut(d.carts, user.id, doc);
  }

  /** Taking the product off the wishlist touches only the caller's. */
  lemma DroppedFromWishlistEffect(d: Db, userId: Id, productId: Id)
    ensures var w := DroppedFromWishlist(d, userId, productId);
      (userId in w ==> !HasItem(w[userId].items, productId))
      && (forall u :: u in d.wishlists && u != userId ==> w[u] == d.wishlists[u])
  {
  }

  // ---------------------------------------------------------------------------
  // clearWishlist

  function ClearWishlistStep(d: Db, user: User): Step {
    if user.id !in d.wishlists then Step(Refused(404, "Wishlist not found"), d)
    else Step(Ok(200, "Wishlist cleared successfully"), d.(wishlists := d.wishlists[user.id := Saved(user.id, [])]))
  }

  /** `clearWishlist`. */
  method ClearWishlist(db: Store, user: User) returns (reply: Reply)
    requires db.Valid()
    modifies db
    ensures Step(reply, db.State()) == ClearWishlistStep(old(db.State()), user)
    ensures db.Valid()
  {
    PutWishlistStored(db.State(), user.id, []);
    if user.id !in db.wishlists {
      return Refused(404, "Wishlist not found");
    }
    var wishlist := new Wishlist.Load(db.wishlists[user.id]);
    wishlist.ClearWishlist();
    db.wishlists := db.wishlists[user.id := wishlist.Doc()];
    reply := Ok(200, "Wishlist cleared successfully");
  }

  /** Clearing succeeds exactly when the caller has a wishlist, leaves it with no
      items and a count of 0, and clearing again changes nothing more. */
  lemma ClearWishlistEmpties(d: Db, user: User)
    requires ValidDb(d)
    ensures var s := ClearWishlistStep(d, user);
      ValidDb(s.after)
      && (s.reply.Ok? <==> user.id in d.wishlists)
      && (!s.reply.Ok? ==> s.after == d)
      && (s.reply.Ok? ==> s.after.wishlists[user.id].items == [] && s.after.wishlists[user.id].totalItems == 0
                          && ClearWishlistStep(s.after, user).after == s.after)
  {
    PutWishlistStored(d, user.id, []);
  }
}
