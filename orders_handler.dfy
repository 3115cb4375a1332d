/** backend/services/orders/handler.js: placing an order from the caller's
    cart, listing a user's orders, the admin status update and cancellation.
    As for the cart endpoints, each endpoint is a pure `...Step` function and a
    method on the shared `Store` proved to agree with it. */
module OrdersHandler {
  import opened Common
  import opened Responses
  import opened ProductModel
  import opened CartModel
  import opened OrderModel
  import opened Database

  // ---------------------------------------------------------------------------
  // Inventory moves

  /** Units of a product the lines of an order hold. */
  function OrderedQuantity(lines: seq<OrderLine>, productId: Id): int {
    if lines == [] then 0
    else OrderedQuantity(lines[..|lines| - 1], productId)
         + (if lines[|lines| - 1].product == productId then lines[|lines| - 1].quantity else 0)
  }

  /** A line's quantity taken off the stock, or put back when `restock`. */
  function Delta(quantity: int, restock: bool): int {
    if restock then quantity else -quantity
  }

  /** The products after one `$inc` per line, in line order. */
  function Adjusted(products: map<Id, Product>, lines: seq<OrderLine>, restock: bool): (r: map<Id, Product>)
    ensures r.Keys == products.Keys
  {
    if lines == [] then products
    else
      var last := lines[|lines| - 1];
      IncQuantity(Adjusted(products, lines[..|lines| - 1], restock), last.product, Delta(last.quantity, restock))
  }

  /** Each stored product moves by the units the lines hold of it (down for a
      sale, up for a restock), and nothing else about it changes. */
  lemma {:induction false} AdjustedQuantity(products: map<Id, Product>, lines: seq<OrderLine>, restock: bool)
    ensures forall id :: id in products ==>
      Adjusted(products, lines, restock)[id]
      == products[id].(inventory := products[id].inventory.(quantity := products[id].inventory.quantity
                                                                         + Delta(OrderedQuantity(lines, id), restock)))
    decreases |lines|
  {
    if lines != [] {
      AdjustedQuantity(products, lines[..|lines| - 1], restock);
    }
  }

  /** Restocking the lines of an order undoes selling them. */
  lemma RestockUndoesSale(products: map<Id, Product>, lines: seq<OrderLine>)
    ensures Adjusted(Adjusted(products, lines, false), lines, true) == products
  {
    var sold := Adjusted(products, lines, false);
    AdjustedQuantity(products, lines, false);
    AdjustedQuantity(sold, lines, true);
    assert forall id :: id in products ==> Adjusted(sold, lines, true)[id] == products[id];
  }

  /** The `for` loops of `findByIdAndUpdate(..., { $inc: ... })` over an order's lines. */
  method AdjustInventory(db: Store, lines: seq<OrderLine>, restock: bool)
    modifies db
    ensures db.products == Adjusted(old(db.products), lines, restock)
    ensures db.carts == old(db.carts) && db.wishlists == old(db.wishlists) && db.orders == old(db.orders)
  {
    var k := 0;
    while k < |lines|
      invariant 0 <= k <= |lines|
      invariant db.products == Adjusted(old(db.products), lines[..k], restock)
      invariant db.carts == old(db.carts) && db.wishlists == old(db.wishlists) && db.orders == old(db.orders)
    {
      db.products := IncQuantity(db.products, lines[k].product, Delta(lines[k].quantity, restock));
      assert lines[..k + 1][..k] == lines[..k];
      k := k + 1;
    }
    assert lines[..k] == lines;
  }

  // ---------------------------------------------------------------------------
  // createOrder

  /** Why `createOrder` refuses a cart line: its product is gone or not active,
      or its stock is below the line's quantity. */
  function LineProblem(line: CartLine, products: map<Id, Product>): (r: Option<string>)
    ensures r.None? <==> line.product in products && IsActive(products[line.product])
                         && line.quantity <= products[line.product].inventory.quantity
  {
    if line.product !in products || !IsActive(products[line.product]) then
      Some("Product " + (if line.product in products then products[line.product].name else "Unknown")
           + " is no longer available")
    else
      var p := products[line.product];
      if p.inventory.quantity < line.quantity then
        Some("Insufficient stock for " + p.name + ". Available: " + IntToString(p.inventory.quantity))
      else None
  }

  /** The order line for a cart line at time `now`. The product is populated
      with a field list that leaves out `discount`, so `discountedPrice || price`
      is the list price (`OrderLinePrice`). */
  function OrderLineOf(line: CartLine, p: Product, now: int): (r: OrderLine)
    ensures r.product == line.product && r.quantity == line.quantity && r.variants == line.variants
    ensures r.price == p.price && r.productName == p.name
  {
    OrderLine(line.product, p.name, if p.images != [] then p.images[0].url else "", line.quantity,
              p.price, line.variants)
  }

  /** The price an order line records is what `discountedPrice || price` gives
      for the product as populated, without its discount: the list price. */
  lemma OrderLinePrice(line: CartLine, p: Product, now: int)
    ensures OrderLineOf(line, p, now).price == UnitPrice(WithoutDiscount(p), now) == p.price
  {
    WithoutDiscountChargesListPrice(p, now);
  }

  datatype Checked = Priced(lines: seq<OrderLine>) | Unavailable(message: string)

  /** The checking loop of `createOrder`: the order lines, or the refusal of the
      first line that fails. */
  function CheckLines(items: seq<CartLine>, products: map<Id, Product>, now: int): Checked {
    if items == [] then Priced([])
    else match CheckLines(items[..|items| - 1], products, now)
      case Unavailable(m) => Unavailable(m)
      case Priced(lines) =>
        var last := items[|items| - 1];
        match LineProblem(last, products)
        case Some(m) => Unavailable(m)
        case None => Priced(lines + [OrderLineOf(last, products[last.product], now)])
  }

  /** The line validation passes exactly when every line passes; it then prices every line
      in order, and otherwise reports the first line that fails. */
  lemma {:induction false} CheckLinesSpec(items: seq<CartLine>, products: map<Id, Product>, now: int)
    ensures CheckLines(items, products, now).Priced?
            <==> forall i :: 0 <= i < |items| ==> LineProblem(items[i], products).None?
    ensures var c := CheckLines(items, products, now);
      c.Priced? ==> |c.lines| == |items|
                    && forall i :: 0 <= i < |items| ==>
                         items[i].product in products && c.lines[i] == OrderLineOf(items[i], products[items[i].product], now)
    ensures var c := CheckLines(items, products, now);
      c.Unavailable? ==> exists i :: 0 <= i < |items| && LineProblem(items[i], products) == Some(c.message)
                                     && forall j :: 0 <= j < i ==> LineProblem(items[j], products).None?
    decreases |items|
  {
    if items != [] {
      var front, last := items[..|items| - 1], items[|items| - 1];
      CheckLinesSpec(front, products, now);
      assert forall j :: 0 <= j < |front| ==> items[j] == front[j];
      var c := CheckLines(front, products, now);
      if c.Unavailable? {
        var i :| 0 <= i < |front| && LineProblem(front[i], products) == Some(c.message)
                 && forall j :: 0 <= j < i ==> LineProblem(front[j], products).None?;
        assert items[i] == front[i];
      } else if LineProblem(last, products).Some? {
        assert items[|items| - 1] == last;
      }
    }
  }

  /** Once a prefix fails, the whole check fails with the same message. */
  lemma {:induction false} CheckLinesKeepsFailure(a: seq<CartLine>, b: seq<CartLine>, products: map<Id, Product>, now: int)
    requires CheckLines(a, products, now).Unavailable?
    ensures CheckLines(a + b, products, now) == CheckLines(a, products, now)
    decreases |b|
  {
    if b == [] {
      assert a + b == a;
    } else {
      assert (a + b)[..|a + b| - 1] == a + b[..|b| - 1];
      CheckLinesKeepsFailure(a, b[..|b| - 1], products, now);
    }
  }

  /** Units a cart's lines hold of a product equal those of the order lines made from them. */
  lemma {:induction false} OrderedQuantityOfLines(items: seq<CartLine>, lines: seq<OrderLine>, productId: Id)
    requires |items| == |lines|
    requires forall i :: 0 <= i < |items| ==> lines[i].product == items[i].product && lines[i].quantity == items[i].quantity
    ensures OrderedQuantity(lines, productId) == LinesQuantity(items, productId)
    decreases |items|
  {
    if items != [] {
      OrderedQuantityOfLines(items[..|items| - 1], lines[..|lines| - 1], productId);
    }
  }

  /** The figures of `orderSummary`: 10% tax, and shipping of 10 unless the
      subtotal is above 100. */
  function OrderSummary(subtotal: real): (r: Summary)
    ensures r.subtotal == subtotal && r.discount == 0.0
    ensures r.total == r.subtotal + r.tax + r.shipping
    ensures r.shipping == 0.0 <==> subtotal > 100.0
    ensures subtotal >= 0.0 ==> subtotal <= r.total <= subtotal * 1.1 + 10.0
  {
    var tax := subtotal * 0.1;
    var shipping := if subtotal > 100.0 then 0.0 else 10.0;
    Summary(subtotal, tax, shipping, 0.0, subtotal + tax + shipping)
  }

  /** The document `Order.create` is given: the billing address defaults to the
      shipping address, the payment method to `"stripe"` and the notes to `{}`. */
  function NewOrder(id: Id, userId: Id, lines: seq<OrderLine>, summary: Summary, shipping: Address,
                    billing: Option<Address>, paymentMethod: Option<string>, notes: Option<Notes>, now: int): OrderDoc {
    OrderDoc(id, None, userId, lines, summary, shipping, billing.GetOr(shipping),
             PaymentInfo(paymentMethod.GetOr("stripe"), None, PaymentPending, None), Pending, [], NoTracking,
             notes.GetOr(Notes(None, None)), NoRefund, None, now)
  }

  /** What the unique index on `orderNumber` throws for a number already stored. */
  const DuplicateOrderNumber: ErrorValue :=
    Failure("MongoServerError", "E11000 duplicate key error collection: orders index: orderNumber_1 dup key",
            Some(DuplicateKeyCode), [], "orderNumber")

  function ShippingBody(shipping: Option<Address>): map<string, JsValue> {
    map["shippingAddress" := if shipping.Some? then Object else Undefined]
  }

  /** `createOrder`, where `orderId` is the id the new document receives. */
  function CreateOrderStep(d: Db, user: User, shipping: Option<Address>, billing: Option<Address>,
                           paymentMethod: Option<string>, notes: Option<Notes>, orderId: Id, env: Env): Step
    requires env.Valid()
  {
    var missing := ValidateRequiredFields(ShippingBody(shipping), ["shippingAddress"]);
    if missing.Some? then Step(Threw(missing.value), d)
    else match FindCart(d.carts, user.id)
      case None => Step(Refused(400, "Cart is empty"), d)
      case Some(c) =>
        var cart := d.carts[c];
        if cart.items == [] then Step(Refused(400, "Cart is empty"), d)
        else match CheckLines(cart.items, d.products, env.now)
          case Unavailable(m) => Step(Refused(400, m), d)
          case Priced(lines) =>
            var order := NewOrder(orderId, user.id, lines, OrderSummary(Subtotal(lines)), shipping.value,
                                  billing, paymentMethod, notes, env.now);
            match ValidateOrder(order)
            case Some(e) => Step(Threw(e), d)
            case None =>
              var number := OrderNumber(env.now, env.rnd);
              if FindOrderNumber(d.orders, number).Some? then Step(Threw(DuplicateOrderNumber), d)
              else Step(Ok(201, "Order created successfully"),
                        Db(Adjusted(d.products, lines, false), d.carts[c := Recomputed(cart.(items := []), env.now)],
                           d.wishlists, d.orders + [order.(orderNumber := Some(number))]))
  }

  /** The loop of `createOrder` over the cart lines: the order lines and their
      subtotal, or the refusal of the first line that fails. */
  method PriceLines(items: seq<CartLine>, products: map<Id, Product>, now: int)
    returns (orderItems: seq<OrderLine>, subtotal: real, refusal: Option<string>)
    ensures refusal.Some? ==> CheckLines(items, products, now) == Unavailable(refusal.value)
    ensures refusal.None? ==> CheckLines(items, products, now) == Priced(orderItems) && subtotal == Subtotal(orderItems)
  {
    orderItems, subtotal, refusal := [], 0.0, None;
    var k := 0;
    while k < |items|
      invariant 0 <= k <= |items|
      invariant CheckLines(items[..k], products, now) == Priced(orderItems)
      invariant subtotal == Subtotal(orderItems) && refusal.None?
    {
      var item := items[k];
      refusal := LineProblem(item, products);
      CheckLinesStep(items, k, products, now, orderItems);
      if refusal.Some? {
        FirstFailureStops(items, k, products, now);
        return;
      }
      var line := OrderLineOf(item, products[item.product], now);
      var itemTotal := LineAmount(line);
      SubtotalSnoc(orderItems, line, itemTotal);
      orderItems := orderItems + [line];
      subtotal := subtotal + itemTotal;
      k := k + 1;
    }
    assert items[..k] == items;
  }

  /** One more cart line through the line validation. */
  lemma CheckLinesStep(items: seq<CartLine>, k: nat, products: map<Id, Product>, now: int, lines: seq<OrderLine>)
    requires k < |items| && CheckLines(items[..k], products, now) == Priced(lines)
    ensures LineProblem(items[k], products).Some? ==>
      CheckLines(items[..k + 1], products, now) == Unavailable(LineProblem(items[k], products).value)
    ensures LineProblem(items[k], products).None? ==>
      CheckLines(items[..k + 1], products, now) == Priced(lines + [OrderLineOf(items[k], products[items[k].product], now)])
  {
    assert items[..k + 1][..k] == items[..k];
  }

  /** A line that fails decides the line validation, whatever follows it. */
  lemma FirstFailureStops(items: seq<CartLine>, k: nat, products: map<Id, Product>, now: int)
    requires k < |items| && CheckLines(items[..k + 1], products, now).Unavailable?
    ensures CheckLines(items, products, now) == CheckLines(items[..k + 1], products, now)
  {
    CheckLinesKeepsFailure(items[..k + 1], items[k + 1..], products, now);
    assert items[..k + 1] + items[k + 1..] == items;
  }

  lemma SubtotalSnoc(lines: seq<OrderLine>, line: OrderLine, amount: real)
    requires amount == LineAmount(line)
    ensures Subtotal(lines + [line]) == Subtotal(lines) + amount
  {
    assert (lines + [line])[..|lines|] == lines;
  }

  /** `createOrder`. The document's id is a parameter; the database never hands
      out an id twice. */
  method CreateOrder(db: Store, user: User, shipping: Option<Address>, billing: Option<Address>,
                     paymentMethod: Option<string>, notes: Option<Notes>, orderId: Id, env: Env)
    returns (reply: Reply)
    requires db.Valid() && env.Valid()
    requires forall i :: 0 <= i < |db.orders| ==> db.orders[i].id != orderId
    modifies db
    ensures Step(reply, db.State()) == CreateOrderStep(old(db.State()), user, shipping, billing, paymentMethod, notes, orderId, env)
    ensures db.Valid()
  {
    ghost var d := db.State();
    CreateOrderPreservesValidity(d, user, shipping, billing, paymentMethod, notes, orderId, env);
    var missing := ValidateRequiredFields(ShippingBody(shipping), ["shippingAddress"]);
    if missing.Some? {
      return Threw(missing.value);
    }
    var at := FindCart(db.carts, user.id);
    if at.None? || |db.carts[at.value].items| == 0 {
      return Refused(400, "Cart is empty");
    }
    assert Consistent(db.carts[at.value]);
    var cart := new Cart.Load(db.carts[at.value]);
    var orderItems, subtotal, refusal := PriceLines(cart.items, db.products, env.now);
    if refusal.Some? {
      return Refused(400, refusal.value);
    }
    var order := new Order.Load(NewOrder(orderId, user.id, orderItems, OrderSummary(subtotal), shipping.value,
                                         billing, paymentMethod, notes, env.now));
    var err := order.Save(env.now, env.rnd);
    if err.Some? {
      return Threw(err.value);
    }
    if FindOrderNumber(db.orders, order.doc.orderNumber.value).Some? {
      return Threw(DuplicateOrderNumber);
    }
    CreateOrderPlaced(d, user, shipping, billing, paymentMethod, notes, orderId, env, at.value, orderItems);
    CommitOrder(db, at.value, cart, order.doc, orderItems, env.now);
    reply := Ok(201, "Order created successfully");
  }

  /** The writes of a successful `createOrder`: the order is stored, its
      quantities leave stock and the caller's cart is emptied and saved. */
  method CommitOrder(db: Store, c: nat, cart: Cart, doc: OrderDoc, lines: seq<OrderLine>, now: int)
    requires c < |db.carts| && cart.Doc() == db.carts[c] && HasOwner(cart.user, cart.sessionId)
    modifies db, cart
    ensures db.State() == Db(Adjusted(old(db.products), lines, false),
                             old(db.carts)[c := Recomputed(old(db.carts[c]).(items := []), now)],
                             old(db.wishlists), old(db.orders) + [doc])
  {
    db.orders := db.orders + [doc];
    AdjustInventory(db, lines, false);
    var err := cart.ClearCart(now);
    if err.Some? {
      // the caller's cart has an owner and no lines
      assert false;
    }
    db.carts := db.carts[c := cart.Doc()];
  }

  /** The step of `createOrder` once every check has passed. */
  lemma CreateOrderPlaced(d: Db, user: User, shipping: Option<Address>, billing: Option<Address>,
                          paymentMethod: Option<string>, notes: Option<Notes>, orderId: Id, env: Env,
                          c: nat, lines: seq<OrderLine>)
    requires env.Valid()
    requires shipping.Some? && FindCart(d.carts, user.id) == Some(c) && d.carts[c].items != []
    requires CheckLines(d.carts[c].items, d.products, env.now) == Priced(lines)
    requires ValidateOrder(NewOrder(orderId, user.id, lines, OrderSummary(Subtotal(lines)), shipping.value, billing,
                                    paymentMethod, notes, env.now)).None?
    requires FindOrderNumber(d.orders, OrderNumber(env.now, env.rnd)).None?
    ensures var order := NewOrder(orderId, user.id, lines, OrderSummary(Subtotal(lines)), shipping.value, billing,
                                  paymentMethod, notes, env.now);
      CreateOrderStep(d, user, shipping, billing, paymentMethod, notes, orderId, env)
      == Step(Ok(201, "Order created successfully"),
              Db(Adjusted(d.products, lines, false), d.carts[c := Recomputed(d.carts[c].(items := []), env.now)],
                 d.wishlists, d.orders + [order.(orderNumber := Some(OrderNumber(env.now, env.rnd)))]))
  {
    assert ValidateRequiredFields(ShippingBody(shipping), ["shippingAddress"]).None?;
  }

  lemma CreateOrderPreservesValidity(d: Db, user: User, shipping: Option<Address>, billing: Option<Address>,
                                     paymentMethod: Option<string>, notes: Option<Notes>, orderId: Id, env: Env)
    requires ValidDb(d) && env.Valid()
    requires forall i :: 0 <= i < |d.orders| ==> d.orders[i].id != orderId
    ensures ValidDb(CreateOrderStep(d, user, shipping, billing, paymentMethod, notes, orderId, env).after)
  {
    var s := CreateOrderStep(d, user, shipping, billing, paymentMethod, notes, orderId, env);
    if s.reply.Ok? {
      var c, lines := CreateOrderOk(d, user, shipping, billing, paymentMethod, notes, orderId, env);
      var cleared := Recomputed(d.carts[c].(items := []), env.now);
      assert Consistent(cleared);
      PutCartStored(d.carts, Some(c), cleared);
      var number := OrderNumber(env.now, env.rnd);
      var order := NewOrder(orderId, user.id, lines, OrderSummary(Subtotal(lines)), shipping.value, billing,
                            paymentMethod, notes, env.now);
      AppendOrderStored(d.orders, order.(orderNumber := Some(number)));
    }
  }

  /** What a successful `createOrder` found and wrote: the caller's cart `c`,
      its priced lines, and the collections afterwards. */
  lemma CreateOrderOk(d: Db, user: User, shipping: Option<Address>, billing: Option<Address>,
                      paymentMethod: Option<string>, notes: Option<Notes>, orderId: Id, env: Env)
    returns (c: nat, lines: seq<OrderLine>)
    requires env.Valid()
    requires CreateOrderStep(d, user, shipping, billing, paymentMethod, notes, orderId, env).reply.Ok?
    ensures shipping.Some? && FindCart(d.carts, user.id) == Some(c) && d.carts[c].items != []
    ensures CheckLines(d.carts[c].items, d.products, env.now) == Priced(lines)
    ensures var order := NewOrder(orderId, user.id, lines, OrderSummary(Subtotal(lines)), shipping.value, billing,
                                  paymentMethod, notes, env.now);
      ValidateOrder(order).None? && FindOrderNumber(d.orders, OrderNumber(env.now, env.rnd)).None?
      && CreateOrderStep(d, user, shipping, billing, paymentMethod, notes, orderId, env).after
         == Db(Adjusted(d.products, lines, false), d.carts[c := Recomputed(d.carts[c].(items := []), env.now)],
               d.wishlists, d.orders + [order.(orderNumber := Some(OrderNumber(env.now, env.rnd)))])
  {
    c := FindCart(d.carts, user.id).value;
    lines := CheckLines(d.carts[c].items, d.products, env.now).lines;
  }

  /** A successful `createOrder` checked every line of the caller's cart (an
      active product with enough stock) and emptied the cart, leaving other
      carts and the wishlists alone; a refused or failed one changed nothing. */
  lemma CreateOrderEffect(d: Db, user: User, shipping: Option<Address>, billing: Option<Address>,
                          paymentMethod: Option<string>, notes: Option<Notes>, orderId: Id, env: Env)
    requires ValidDb(d) && env.Valid()
    ensures var s := CreateOrderStep(d, user, shipping, billing, paymentMethod, notes, orderId, env);
      var c := FindCart(d.carts, user.id);
      (!s.reply.Ok? ==> s.after == d)
      && (s.reply.Ok? ==>
            c.Some? && shipping.Some? && d.carts[c.value].items != []
            && (forall i :: 0 <= i < |d.carts[c.value].items| ==>
                  LineProblem(d.carts[c.value].items[i], d.products).None?)
            && |s.after.carts| == |d.carts| && s.after.carts[c.value].items == []
            && (forall j :: 0 <= j < |d.carts| && j != c.value ==> s.after.carts[j] == d.carts[j])
            && s.after.wishlists == d.wishlists)
  {
    var s := CreateOrderStep(d, user, shipping, billing, paymentMethod, notes, orderId, env);
    if s.reply.Ok? {
      var c, lines := CreateOrderOk(d, user, shipping, billing, paymentMethod, notes, orderId, env);
      var carts := d.carts[c := Recomputed(d.carts[c].(items := []), env.now)];
      assert s.after.carts == carts;
      forall j | 0 <= j < |d.carts| && j != c
        ensures carts[j] == d.carts[j]
      {
      }
      CheckLinesSpec(d.carts[c].items, d.products, env.now);
    }
  }

  /** The order a successful `createOrder` appends after the stored ones:
      pending, with a pending payment, no history, a fresh number, the caller as
      owner, the shipping address and the summary of its own lines. */
  lemma CreateOrderAppendsOrder(d: Db, user: User, shipping: Option<Address>, billing: Option<Address>,
                                paymentMethod: Option<string>, notes: Option<Notes>, orderId: Id, env: Env)
    requires env.Valid()
    requires CreateOrderStep(d, user, shipping, billing, paymentMethod, notes, orderId, env).reply.Ok?
    ensures var after := CreateOrderStep(d, user, shipping, billing, paymentMethod, notes, orderId, env).after;
      var items := CartLines(d, user.id);
      |after.orders| == |d.orders| + 1 && after.orders[..|d.orders|] == d.orders
      && after.orders[|d.orders|].id == orderId && after.orders[|d.orders|].user == user.id
      && after.orders[|d.orders|].current == Pending && after.orders[|d.orders|].history == []
      && after.orders[|d.orders|].payment.paymentStatus == PaymentPending
      && after.orders[|d.orders|].orderNumber == Some(OrderNumber(env.now, env.rnd))
      && after.orders[|d.orders|].shippingAddress == shipping.value
      && after.orders[|d.orders|].summary == OrderSummary(Subtotal(after.orders[|d.orders|].items))
  {
    var c, lines := CreateOrderOk(d, user, shipping, billing, paymentMethod, notes, orderId, env);
    var after := CreateOrderStep(d, user, shipping, billing, paymentMethod, notes, orderId, env).after;
    var order := NewOrder(orderId, user.id, lines, OrderSummary(Subtotal(lines)), shipping.value, billing,
                          paymentMethod, notes, env.now).(orderNumber := Some(OrderNumber(env.now, env.rnd)));
    assert after.orders == d.orders + [order];
    assert after.orders[|d.orders|] == order;
  }

  /** The lines of the order a successful `createOrder` stores are the caller's
      cart lines, line by line, each at its product's list price. */
  lemma CreateOrderCopiesLines(d: Db, user: User, shipping: Option<Address>, billing: Option<Address>,
                               paymentMethod: Option<string>, notes: Option<Notes>, orderId: Id, env: Env)
    requires env.Valid()
    requires CreateOrderStep(d, user, shipping, billing, paymentMethod, notes, orderId, env).reply.Ok?
    ensures var after := CreateOrderStep(d, user, shipping, billing, paymentMethod, notes, orderId, env).after;
      var items := CartLines(d, user.id);
      |after.orders| == |d.orders| + 1 && |after.orders[|d.orders|].items| == |items|
      && (forall i :: 0 <= i < |items| ==>
            var line := after.orders[|d.orders|].items[i];
            line.product == items[i].product && line.quantity == items[i].quantity
            && line.variants == items[i].variants
            && items[i].product in d.products && line.price == d.products[items[i].product].price)
  {
    var c, lines := CreateOrderOk(d, user, shipping, billing, paymentMethod, notes, orderId, env);
    var after := CreateOrderStep(d, user, shipping, billing, paymentMethod, notes, orderId, env).after;
    assert after.orders[|d.orders|].items == lines;
    CheckLinesSpec(d.carts[c].items, d.products, env.now);
  }

  /** A successful `createOrder` takes off each product's stock exactly the units
      the caller's cart held of it, over all its lines. */
  lemma CreateOrderTakesStock(d: Db, user: User, shipping: Option<Address>, billing: Option<Address>,
                              paymentMethod: Option<string>, notes: Option<Notes>, orderId: Id, env: Env)
    requires env.Valid()
    requires CreateOrderStep(d, user, shipping, billing, paymentMethod, notes, orderId, env).reply.Ok?
    ensures var after := CreateOrderStep(d, user, shipping, billing, paymentMethod, notes, orderId, env).after;
      var items := CartLines(d, user.id);
      after.products.Keys == d.products.Keys
      && forall id :: id in d.products ==>
           after.products[id].inventory.quantity == d.products[id].inventory.quantity - LinesQuantity(items, id)
  {
    var c, lines := CreateOrderOk(d, user, shipping, billing, paymentMethod, notes, orderId, env);
    var items := d.carts[c].items;
    CheckLinesSpec(items, d.products, env.now);
    AdjustedQuantity(d.products, lines, false);
    forall id | id in d.products
      ensures OrderedQuantity(lines, id) == LinesQuantity(items, id)
    {
      OrderedQuantityOfLines(items, lines, id);
    }
  }

  /** The refusals of `createOrder`: no shipping address, an empty or missing
      cart, or the first cart line whose product is unavailable or short. */
  lemma CreateOrderRefusals(d: Db, user: User, shipping: Option<Address>, billing: Option<Address>,
                            paymentMethod: Option<string>, notes: Option<Notes>, orderId: Id, env: Env)
    requires env.Valid()
    ensures var s := CreateOrderStep(d, user, shipping, billing, paymentMethod, notes, orderId, env);
      var c := FindCart(d.carts, user.id);
      (shipping.None? ==> s.reply.Threw?)
      && (shipping.Some? && (c.None? || d.carts[c.value].items == []) ==> s.reply == Refused(400, "Cart is empty"))
      && (shipping.Some? && c.Some? && (exists i :: 0 <= i < |d.carts[c.value].items|
                                                   && LineProblem(d.carts[c.value].items[i], d.products).Some?) ==>
            s.reply.Refused? && s.reply.status == 400
            && exists i :: 0 <= i < |d.carts[c.value].items|
                           && LineProblem(d.carts[c.value].items[i], d.products) == Some(s.reply.message)
                           && forall j :: 0 <= j < i ==> LineProblem(d.carts[c.value].items[j], d.products).None?)
  {
    assert Field(ShippingBody(shipping), "shippingAddress") == (if shipping.Some? then Object else Undefined);
    var c := FindCart(d.carts, user.id);
    if shipping.Some? && c.Some? {
      CheckLinesSpec(d.carts[c.value].items, d.products, env.now);
    }
  }

  /** The stock check looks at one line at a time: two lines of one product in
      different variants each fit a stock of one, and selling both leaves the
      stock at -1. */
  lemma PerLineCheckCanOversell(products: map<Id, Product>, productId: Id, v1: Variants, v2: Variants, now: int)
    requires productId in products && IsActive(products[productId]) && products[productId].inventory.quantity == 1
    ensures var items := [CartLine(productId, 1, 1.0, v1), CartLine(productId, 1, 1.0, v2)];
      var check := CheckLines(items, products, now);
      check.Priced? && Adjusted(products, check.lines, false)[productId].inventory.quantity == -1
  {
    var items := [CartLine(productId, 1, 1.0, v1), CartLine(productId, 1, 1.0, v2)];
    CheckLinesSpec(items, products, now);
    var lines := CheckLines(items, products, now).lines;
    AdjustedQuantity(products, lines, false);
    OrderedQuantityOfLines(items, lines, productId);
    assert items[..1] == [items[0]] && items[..1][..0] == [];
    assert LinesQuantity(items[..1], productId) == 1;
    assert LinesQuantity(items, productId) == 2;
  }

  // ---------------------------------------------------------------------------
  // getOrders

  /** Whose orders `getOrders` lists, given the `userId` path parameter (`""`
      when absent); `None` is the 403 for a customer asking for someone else. */
  function OrdersTarget(user: User, userId: string): (r: Option<Id>)
    ensures r.None? <==> userId != "" && user.role != Admin && userId != user.id
    ensures r.Some? ==> r.value == (if userId == "" then user.id else userId)
    ensures r.Some? && user.role != Admin ==> r.value == user.id
  {
    if userId != "" && user.role == Admin then Some(userId)
    else if userId != "" && userId != user.id then None
    else Some(user.id)
  }

  /** An order `getOrders` selects: one of `target`'s, of the status asked for
      unless `status` is `""`. */
  predicate OrderSelected(o: OrderDoc, target: Id, status: string) {
    o.user == target && (status == "" || StatusName(o.current) == status)
  }

  /** The orders of `target`, restricted to one status name unless `status` is
      `""`, in stored order. */
  function OrdersOf(orders: seq<OrderDoc>, target: Id, status: string): (r: seq<OrderDoc>)
    ensures |r| <= |orders|
    ensures forall o :: o in r <==> o in orders && OrderSelected(o, target, status)
  {
    if orders == [] then []
    else
      var rest := OrdersOf(orders[1..], target, status);
      if OrderSelected(orders[0], target, status) then [orders[0]] + rest
      else rest
  }

  /** The selection keeps every copy of a selected order and no other order,
      so the total `getOrders` reports is the number of selected orders. */
  lemma {:induction false} OrdersOfCounts(orders: seq<OrderDoc>, target: Id, status: string)
    ensures forall o :: multiset(OrdersOf(orders, target, status))[o]
                        == if OrderSelected(o, target, status) then multiset(orders)[o] else 0
  {
    if orders != [] {
      assert orders == [orders[0]] + orders[1..];
      OrdersOfCounts(orders[1..], target, status);
    }
  }

  /** The filter works order by order, so the selected orders keep their
      stored order. */
  lemma {:induction false} OrdersOfConcat(a: seq<OrderDoc>, b: seq<OrderDoc>, target: Id, status: string)
    ensures OrdersOf(a + b, target, status) == OrdersOf(a, target, status) + OrdersOf(b, target, status)
  {
    if a != [] {
      var ab := a + b;
      assert ab[0] == a[0] && ab[1..] == a[1..] + b;
      OrdersOfConcat(a[1..], b, target, status);
      var front := OrdersOf(a[1..], target, status);
      var back := OrdersOf(b, target, status);
      if OrderSelected(a[0], target, status) {
        assert OrdersOf(ab, target, status) == [a[0]] + (front + back);
        assert [a[0]] + (front + back) == ([a[0]] + front) + back;
      } else {
        assert OrdersOf(ab, target, status) == front + back;
      }
    } else {
      assert a + b == b;
    }
  }

  /** The `sort` query parameter's default: newest first. */
  const DefaultOrdersSort: string := "-createdAt"

  /** The single key of the sort object `getOrders` builds, and whether it sorts
      descending. Unlike `getProducts`, `getOrders` knows no field aliases. */
  datatype OrderSort = OrderSort(field: string, descending: bool)

  /** The sort object: a leading `-` sorts descending on the rest. */
  function OrderSortObject(sort: string): (r: OrderSort)
    ensures r.descending <==> StartsWith(sort, "-")
    ensures (if r.descending then "-" else "") + r.field == sort
  {
    if StartsWith(sort, "-") then
      assert sort == sort[..1] + sort[1..];
      OrderSort(sort[1..], true)
    else OrderSort(sort, false)
  }

  /** The value an order is sorted on. The creation time and the total are
      modelled; every other field is one on which all orders tie. */
  function SortKey(o: OrderDoc, field: string): real {
    if field == "createdAt" then o.createdAt as real
    else if field == "orderSummary.total" then o.summary.total
    else 0.0
  }

  /** `a` may be listed before `b`. */
  predicate InOrder(a: OrderDoc, b: OrderDoc, order: OrderSort) {
    if order.descending then SortKey(a, order.field) >= SortKey(b, order.field)
    else SortKey(a, order.field) <= SortKey(b, order.field)
  }

  predicate SortedBy(s: seq<OrderDoc>, order: OrderSort) {
    forall i, j :: 0 <= i < j < |s| ==> InOrder(s[i], s[j], order)
  }

  /** One order put before the first order it may precede. */
  function Insert(x: OrderDoc, s: seq<OrderDoc>, order: OrderSort): (r: seq<OrderDoc>)
    ensures multiset(r) == multiset(s) + multiset{x}
  {
    if s == [] then [x]
    else if InOrder(x, s[0], order) then [x] + s
    else
      assert s == [s[0]] + s[1..];
      [s[0]] + Insert(x, s[1..], order)
  }

  lemma {:induction false} InsertSorted(x: OrderDoc, s: seq<OrderDoc>, order: OrderSort)
    requires SortedBy(s, order)
    ensures SortedBy(Insert(x, s, order), order)
  {
    if s != [] && !InOrder(x, s[0], order) {
      var rest := Insert(x, s[1..], order);
      InsertSorted(x, s[1..], order);
      forall y | y in rest ensures InOrder(s[0], y, order) {
        assert y in multiset(rest);
        if y != x {
          assert y in s[1..];
          var k :| 0 <= k < |s[1..]| && s[1..][k] == y;
          assert s[k + 1] == y;
        }
      }
      SortedCons(s[0], rest, order);
    }
  }

  /** An order that may precede every order of a sorted listing may head it. */
  lemma SortedCons(a: OrderDoc, rest: seq<OrderDoc>, order: OrderSort)
    requires SortedBy(rest, order) && forall y :: y in rest ==> InOrder(a, y, order)
    ensures SortedBy([a] + rest, order)
  {
    var r := [a] + rest;
    forall i, j | 0 <= i < j < |r| ensures InOrder(r[i], r[j], order) {
      if i == 0 {
        assert r[j] == rest[j - 1];
      } else {
        assert r[i] == rest[i - 1] && r[j] == rest[j - 1];
      }
    }
  }

  /** `.sort(sortObject)`: the orders in the order the sort object asks for, of
      orders that tie, the one stored first first. */
  function Sorted(s: seq<OrderDoc>, order: OrderSort): (r: seq<OrderDoc>)
    ensures multiset(r) == multiset(s)
    ensures SortedBy(r, order)
  {
    if s == [] then []
    else
      assert s == [s[0]] + s[1..];
      var rest := Sorted(s[1..], order);
      InsertSorted(s[0], rest, order);
      Insert(s[0], rest, order)
  }

  datatype OrdersReply = Denied(reply: Reply) | Listing(listing: Listed<OrderDoc>)

  /** `getOrders` for a positive `page` and `limit`: the target's matching
      orders, sorted as `sort` asks, one page of them. An admin's `userId`
      becomes the filter's `user`, so one Mongoose cannot cast (`validId`
      false) makes `Order.find` throw the CastError. */
  function GetOrdersResult(d: Db, user: User, userId: string, validId: bool, status: string, sort: string,
                           page: nat, limit: nat): OrdersReply
    requires page >= 1 && limit >= 1
  {
    match OrdersTarget(user, userId)
    case None => Denied(Refused(403, "Access denied"))
    case Some(target) =>
      if userId != "" && user.role == Admin && !validId then Denied(Threw(CastFailure(userId)))
      else
      var matching := OrdersOf(d.orders, target, status);
      Listing(Listed(PageOf(Sorted(matching, OrderSortObject(sort)), page, limit),
                     Pagination(page, limit, TotalPages(|matching|, limit), |matching|)))
  }

  /** A customer sees only their own orders; an admin sees those of the user
      asked for, once the id casts. Every listed order is stored and has the status asked for, the
      page is in the order `sort` asks for, a page holds at most `limit` orders,
      and it is empty exactly past the last page. */
  lemma GetOrdersShowsOnlyTheTarget(d: Db, user: User, userId: string, validId: bool, status: string, sort: string,
                                    page: nat, limit: nat)
    requires page >= 1 && limit >= 1
    ensures var r := GetOrdersResult(d, user, userId, validId, status, sort, page, limit);
      (r.Denied? <==> userId != "" && ((user.role != Admin && userId != user.id) || (user.role == Admin && !validId)))
      && (userId != "" && user.role != Admin && userId != user.id ==> r == Denied(Refused(403, "Access denied")))
      && (userId != "" && user.role == Admin && !validId ==> r == Denied(Threw(CastFailure(userId))))
      && (r.Listing? ==>
            (forall o :: o in r.listing.items ==>
               o in d.orders && o.user == (if userId == "" then user.id else userId)
               && (user.role != Admin ==> o.user == user.id)
               && (status == "" || StatusName(o.current) == status))
            && SortedBy(r.listing.items, OrderSortObject(sort))
            && |r.listing.items| <= limit
            && r.listing.pagination.totalItems == |OrdersOf(d.orders, OrdersTarget(user, userId).value, status)|
            && (r.listing.items != [] <==> page <= r.listing.pagination.totalPages))
  {
    var target := OrdersTarget(user, userId);
    if target.Some? {
      var matching := OrdersOf(d.orders, target.value, status);
      var listed := Sorted(matching, OrderSortObject(sort));
      var items := PageOf(listed, page, limit);
      PageNonEmptyIff(listed, page, limit);
      PageMembers(listed, page, limit);
      forall o | o in items ensures o in matching {
        assert o in multiset(listed);
      }
      PageSorted(listed, page, limit, OrderSortObject(sort));
    }
  }

  /** A page cut from a sorted listing is sorted. */
  lemma PageSorted(listed: seq<OrderDoc>, page: nat, limit: nat, order: OrderSort)
    requires page >= 1 && limit >= 1 && SortedBy(listed, order)
    ensures SortedBy(PageOf(listed, page, limit), order)
  {
    var items := PageOf(listed, page, limit);
    forall i, j | 0 <= i < j < |items| ensures InOrder(items[i], items[j], order) {
      assert items[i] == listed[(page - 1) * limit + i] && items[j] == listed[(page - 1) * limit + j];
    }
  }

  /** A first page cut from a sorted listing holds orders that may precede
      every order it leaves out. */
  lemma FirstPageFirst(listed: seq<OrderDoc>, limit: nat, order: OrderSort)
    requires limit >= 1 && SortedBy(listed, order)
    ensures forall a, b :: a in PageOf(listed, 1, limit) && b in listed && b !in PageOf(listed, 1, limit)
                           ==> InOrder(a, b, order)
  {
    var items := PageOf(listed, 1, limit);
    assert items == listed[..|items|];
    forall a, b | a in items && b in listed && b !in items ensures InOrder(a, b, order) {
      var i :| 0 <= i < |items| && items[i] == a;
      var k :| 0 <= k < |listed| && listed[k] == b;
      assert k >= |items|;
    }
  }

  /** By default the first page holds the newest matching orders: no order it
      leaves out was created after one it lists. */
  lemma GetOrdersNewestFirst(d: Db, user: User, userId: string, validId: bool, status: string, limit: nat)
    requires limit >= 1
    ensures var r := GetOrdersResult(d, user, userId, validId, status, DefaultOrdersSort, 1, limit);
      r.Listing? ==>
        forall a, b ::
          (a in r.listing.items && b in OrdersOf(d.orders, OrdersTarget(user, userId).value, status) && b !in r.listing.items)
          ==> a.createdAt >= b.createdAt
  {
    var target := OrdersTarget(user, userId);
    if target.Some? {
      var order := OrderSortObject(DefaultOrdersSort);
      assert StartsWith(DefaultOrdersSort, "-");
      assert order == OrderSort("createdAt", true);
      var matching := OrdersOf(d.orders, target.value, status);
      var listed := Sorted(matching, order);
      var items := PageOf(listed, 1, limit);
      FirstPageFirst(listed, limit, order);
      forall a, b | a in items && b in matching && b !in items ensures a.createdAt >= b.createdAt {
        assert b in multiset(listed);
        assert InOrder(a, b, order);
      }
    }
  }

  // ---------------------------------------------------------------------------
  // updateOrderStatus

  /** `Object.assign(order.tracking, tracking)`: the fields the patch carries
      replace the stored ones. */
  function Patched(t: Tracking, patch: Tracking): (r: Tracking)
    ensures patch.carrier.Some? ==> r.carrier == patch.carrier
    ensures patch.carrier.None? ==> r.carrier == t.carrier
    ensures patch.trackingNumber.Some? ==> r.trackingNumber == patch.trackingNumber
    ensures patch.trackingNumber.None? ==> r.trackingNumber == t.trackingNumber
    ensures patch.estimatedDelivery.Some? ==> r.estimatedDelivery == patch.estimatedDelivery
    ensures patch.estimatedDelivery.None? ==> r.estimatedDelivery == t.estimatedDelivery
    ensures patch.actualDelivery.Some? ==> r.actualDelivery == patch.actualDelivery
    ensures patch.actualDelivery.None? ==> r.actualDelivery == t.actualDelivery
  {
    Tracking(if patch.carrier.Some? then patch.carrier else t.carrier,
             if patch.trackingNumber.Some? then patch.trackingNumber else t.trackingNumber,
             if patch.estimatedDelivery.Some? then patch.estimatedDelivery else t.estimatedDelivery,
             if patch.actualDelivery.Some? then patch.actualDelivery else t.actualDelivery)
  }

  /** Applying the same patch twice is applying it once, and an empty patch changes nothing. */
  lemma PatchedIdempotent(t: Tracking, patch: Tracking)
    ensures Patched(Patched(t, patch), patch) == Patched(t, patch)
    ensures Patched(t, NoTracking) == t
  {
  }

  /** `updateOrderStatus`; `note` is `""` when absent, as its default is, and
      `validId` says whether Mongoose can cast `orderId`. */
  function UpdateOrderStatusStep(d: Db, user: User, orderId: Id, validId: bool, status: string, note: string,
                                 tracking: Option<Tracking>, env: Env): Step
  {
    match RequireAdmin(user)
    case Some(e) => Step(Threw(e), d)
    case None =>
      var missing := ValidateRequiredFields(map["status" := Str(status)], ["status"]);
      if missing.Some? then Step(Threw(missing.value), d)
      else match ParseStatus(status)
        case None => Step(Refused(400, "Invalid order status"), d)
        case Some(s) =>
          if !validId then Step(Threw(CastFailure(orderId)), d)
          else match FindOrder(d.orders, orderId)
          case None => Step(Refused(404, "Order not found"), d)
          case Some(i) =>
            var updated := WithStatus(d.orders[i], s, note, env.now);
            match ValidateOrder(updated)
            case Some(e) => Step(Threw(e), d)
            case None =>
              var tracked := if tracking.Some? then updated.(tracking := Patched(updated.tracking, tracking.value))
                             else updated;
              Step(Ok(200, "Order status updated successfully"), d.(orders := d.orders[i := tracked]))
  }

  /** `updateOrderStatus`. Its inventory restore for a cancellation
      (backend/services/orders/handler.js:267) never runs: `updateStatus` has
      already made the current status `cancelled` when the guard reads it. */
  method UpdateOrderStatus(db: Store, user: User, orderId: Id, validId: bool, status: string, note: string,
                           tracking: Option<Tracking>, env: Env) returns (reply: Reply)
    requires db.Valid() && env.Valid()
    modifies db
    ensures Step(reply, db.State()) == UpdateOrderStatusStep(old(db.State()), user, orderId, validId, status, note, tracking, env)
    ensures db.Valid()
  {
    UpdateOrderStatusEffect(db.State(), user, orderId, validId, status, note, tracking, env);
    if user.role != Admin {
      return Threw(PlainError("Admin access required"));
    }
    var missing := ValidateRequiredFields(map["status" := Str(status)], ["status"]);
    if missing.Some? {
      return Threw(missing.value);
    }
    var s := ParseStatus(status);
    if s.None? {
      return Refused(400, "Invalid order status");
    }
    if !validId {
      return Threw(CastFailure(orderId));
    }
    var i := FindOrder(db.orders, orderId);
    if i.None? {
      return Refused(404, "Order not found");
    }
    var order := new Order.Load(db.orders[i.value]);
    AnyTransitionAllowed(order.doc, order.doc.current, s.value, note, env.now);
    var err := order.UpdateStatus(s.value, note, env.now, env.rnd);
    if err.Some? {
      assert false;
    }
    if tracking.Some? {
      order.doc := order.doc.(tracking := Patched(order.doc.tracking, tracking.value));
      err := order.Save(env.now, env.rnd);
      if err.Some? {
        assert false;
      }
    }
    if s.value == Cancelled && order.doc.current != Cancelled {
      assert false;
    }
    db.orders := db.orders[i.value := order.doc];
    reply := Ok(200, "Order status updated successfully");
  }

  /** Only an admin can move an order, to any of the seven statuses from any
      other. The move records one history entry and keeps the order's lines and
      number; the products are never touched, so an admin cancellation does not
      put the stock back. */
  lemma UpdateOrderStatusEffect(d: Db, user: User, orderId: Id, validId: bool, status: string, note: string,
                                tracking: Option<Tracking>, env: Env)
    requires ValidDb(d)
    ensures var st := UpdateOrderStatusStep(d, user, orderId, validId, status, note, tracking, env);
      var i := FindOrder(d.orders, orderId);
      ValidDb(st.after)
      && (st.reply.Ok? <==> user.role == Admin && ParseStatus(status).Some? && validId && i.Some?)
      && (user.role == Admin && ParseStatus(status).Some? && !validId ==> st.reply == Threw(CastFailure(orderId)))
      && (!st.reply.Ok? ==> st.after == d)
      && (st.reply.Ok? ==>
            st.after.products == d.products && st.after.carts == d.carts && st.after.wishlists == d.wishlists
            && |st.after.orders| == |d.orders|
            && (forall j :: 0 <= j < |d.orders| && j != i.value ==> st.after.orders[j] == d.orders[j])
            && st.after.orders[i.value].current == ParseStatus(status).value
            && st.after.orders[i.value].history
               == d.orders[i.value].history + [HistoryEntry(ParseStatus(status).value, env.now, note)]
            && st.after.orders[i.value].items == d.orders[i.value].items
            && st.after.orders[i.value].orderNumber == d.orders[i.value].orderNumber)
  {
    assert Field(map["status" := Str(status)], "status") == Str(status);
    var i := FindOrder(d.orders, orderId);
    var s := ParseStatus(status);
    if user.role == Admin && s.Some? && validId && i.Some? {
      var o := d.orders[i.value];
      AnyTransitionAllowed(o, o.current, s.value, note, env.now);
      var updated := WithStatus(o, s.value, note, env.now);
      var tracked := if tracking.Some? then updated.(tracking := Patched(updated.tracking, tracking.value)) else updated;
      PutOrderStored(d.orders, i.value, tracked);
    }
  }

  // ---------------------------------------------------------------------------
  // cancelOrder

  /** The statuses from which an order can still be cancelled. */
  predicate Cancellable(s: OrderStatus) {
    s == Pending || s == Confirmed
  }

  /** `cancelOrder`; `reason` is `""` when absent, and `validId` says whether
      Mongoose can cast `orderId`. */
  function CancelOrderStep(d: Db, user: User, orderId: Id, validId: bool, reason: string, env: Env): Step {
    if !validId then Step(Threw(CastFailure(orderId)), d)
    else match FindOrder(d.orders, orderId)
    case None => Step(Refused(404, "Order not found"), d)
    case Some(i) =>
      var o := d.orders[i];
      if o.user != user.id && user.role != Admin then Step(Refused(403, "Access denied"), d)
      else if !Cancellable(o.current) then Step(Refused(400, "Order cannot be cancelled at this stage"), d)
      else
        var updated := WithStatus(o, Cancelled, "Cancelled by " + (if user.role == Admin then "admin" else "customer"), env.now);
        match ValidateOrder(updated)
        case Some(e) => Step(Threw(e), d)
        case None =>
          var cancelled := updated.(cancellation := Some(Cancellation(if reason == "" then "Cancelled by customer" else reason,
                                                                      env.now, user.id)));
          Step(Ok(200, "Order cancelled successfully"),
               d.(orders := d.orders[i := cancelled], products := Adjusted(d.products, o.items, true)))
  }

  /** `cancelOrder`. */
  method CancelOrder(db: Store, user: User, orderId: Id, validId: bool, reason: string, env: Env) returns (reply: Reply)
    requires db.Valid() && env.Valid()
    modifies db
    ensures Step(reply, db.State()) == CancelOrderStep(old(db.State()), user, orderId, validId, reason, env)
    ensures db.Valid()
  {
    CancelOrderEffect(db.State(), user, orderId, validId, reason, env);
    if !validId {
      return Threw(CastFailure(orderId));
    }
    var i := FindOrder(db.orders, orderId);
    if i.None? {
      return Refused(404, "Order not found");
    }
    var order := new Order.Load(db.orders[i.value]);
    if order.doc.user != user.id && user.role != Admin {
      return Refused(403, "Access denied");
    }
    if !(order.doc.current == Pending || order.doc.current == Confirmed) {
      return Refused(400, "Order cannot be cancelled at this stage");
    }
    var note := "Cancelled by " + (if user.role == Admin then "admin" else "customer");
    AnyTransitionAllowed(order.doc, order.doc.current, Cancelled, note, env.now);
    var err := order.UpdateStatus(Cancelled, note, env.now, env.rnd);
    if err.Some? {
      assert false;
    }
    order.doc := order.doc.(cancellation := Some(Cancellation(if reason == "" then "Cancelled by customer" else reason,
                                                              env.now, user.id)));
    err := order.Save(env.now, env.rnd);
    if err.Some? {
      assert false;
    }
    db.orders := db.orders[i.value := order.doc];
    AdjustInventory(db, order.doc.items, true);
    reply := Ok(200, "Order cancelled successfully");
  }

  /** The owner or an admin can cancel a pending or confirmed order. The order
      then is `cancelled` with one more history entry and the cancellation
      recorded, and every product gets back the units the order holds of it. */
  lemma CancelOrderEffect(d: Db, user: User, orderId: Id, validId: bool, reason: string, env: Env)
    requires ValidDb(d)
    ensures var s := CancelOrderStep(d, user, orderId, validId, reason, env);
      var i := FindOrder(d.orders, orderId);
      ValidDb(s.after)
      && (!validId ==> s.reply == Threw(CastFailure(orderId)))
      && (s.reply.Ok? <==> validId && i.Some? && (d.orders[i.value].user == user.id || user.role == Admin)
                           && Cancellable(d.orders[i.value].current))
      && (!s.reply.Ok? ==> s.after == d)
      && (s.reply.Ok? ==>
            s.after.carts == d.carts && s.after.wishlists == d.wishlists
            && |s.after.orders| == |d.orders|
            && (forall j :: 0 <= j < |d.orders| && j != i.value ==> s.after.orders[j] == d.orders[j])
            && s.after.orders[i.value].current == Cancelled
            && |s.after.orders[i.value].history| == |d.orders[i.value].history| + 1
            && s.after.orders[i.value].items == d.orders[i.value].items
            && s.after.orders[i.value].cancellation.Some?
            && s.after.orders[i.value].cancellation.value.cancelledBy == user.id
            && s.after.products.Keys == d.products.Keys
            && (forall id :: id in d.products ==>
                  s.after.products[id].inventory.quantity
                  == d.products[id].inventory.quantity + OrderedQuantity(d.orders[i.value].items, id)))
  {
    var i := FindOrder(d.orders, orderId);
    if validId && i.Some? {
      var o := d.orders[i.value];
      var note := "Cancelled by " + (if user.role == Admin then "admin" else "customer");
      AnyTransitionAllowed(o, o.current, Cancelled, note, env.now);
      var updated := WithStatus(o, Cancelled, note, env.now);
      var cancelled := updated.(cancellation := Some(Cancellation(if reason == "" then "Cancelled by customer" else reason,
                                                                  env.now, user.id)));
      PutOrderStored(d.orders, i.value, cancelled);
      AdjustedQuantity(d.products, o.items, true);
    }
  }

  /** A cancelled order cannot be cancelled again: the second request is refused
      and changes nothing, so the stock is put back once. */
  lemma CancelTwiceRefused(d: Db, user: User, orderId: Id, validId: bool, reason: string, env: Env, env2: Env)
    requires ValidDb(d)
    requires CancelOrderStep(d, user, orderId, validId, reason, env).reply.Ok?
    ensures var after := CancelOrderStep(d, user, orderId, validId, reason, env).after;
      CancelOrderStep(after, user, orderId, validId, reason, env2) == Step(Refused(400, "Order cannot be cancelled at this stage"), after)
  {
    CancelOrderEffect(d, user, orderId, validId, reason, env);
    var after := CancelOrderStep(d, user, orderId, validId, reason, env).after;
    var i := FindOrder(d.orders, orderId).value;
    assert FindOrder(after.orders, orderId) == Some(i) by {
      forall j | 0 <= j < i ensures after.orders[j].id != orderId {
        assert after.orders[j] == d.orders[j];
      }
    }
  }

  /** Cancelling an order right after placing it gives every product its stock
      back; the id the database generated always casts. */
  lemma CreateThenCancelRestoresStock(d: Db, user: User, shipping: Option<Address>, billing: Option<Address>,
                                      paymentMethod: Option<string>, notes: Option<Notes>, orderId: Id,
                                      env: Env, reason: string, env2: Env)
    requires ValidDb(d) && env.Valid()
    requires forall i :: 0 <= i < |d.orders| ==> d.orders[i].id != orderId
    requires CreateOrderStep(d, user, shipping, billing, paymentMethod, notes, orderId, env).reply.Ok?
    ensures var placed := CreateOrderStep(d, user, shipping, billing, paymentMethod, notes, orderId, env).after;
      var s := CancelOrderStep(placed, user, orderId, true, reason, env2);
      s.reply.Ok? && s.after.products == d.products
  {
    var c, lines := CreateOrderOk(d, user, shipping, billing, paymentMethod, notes, orderId, env);
    CreateOrderPreservesValidity(d, user, shipping, billing, paymentMethod, notes, orderId, env);
    var placed := CreateOrderStep(d, user, shipping, billing, paymentMethod, notes, orderId, env).after;
    var order := NewOrder(orderId, user.id, lines, OrderSummary(Subtotal(lines)), shipping.value, billing,
                          paymentMethod, notes, env.now).(orderNumber := Some(OrderNumber(env.now, env.rnd)));
    assert placed.orders == d.orders + [order] && placed.products == Adjusted(d.products, lines, false);
    CancelNewestRestocks(placed, user, orderId, reason, env2, d.orders, order);
    RestockUndoesSale(d.products, lines);
  }

  /** The caller's own pending order, stored last under a fresh (so castable)
      id, can be cancelled, and the cancellation puts its lines back in stock. */
  lemma CancelNewestRestocks(d: Db, user: User, orderId: Id, reason: string, env: Env,
                             earlier: seq<OrderDoc>, order: OrderDoc)
    requires ValidDb(d) && d.orders == earlier + [order]
    requires forall j :: 0 <= j < |earlier| ==> earlier[j].id != orderId
    requires order.id == orderId && order.user == user.id && order.current == Pending
    ensures var s := CancelOrderStep(d, user, orderId, true, reason, env);
      s.reply.Ok? && s.after.products == Adjusted(d.products, order.items, true)
  {
    var k := |earlier|;
    assert FindOrder(d.orders, orderId) == Some(k) by {
      forall j | 0 <= j < k ensures d.orders[j].id != orderId {
        assert d.orders[j] == earlier[j];
      }
    }
    assert d.orders[k] == order && Cancellable(order.current);
    CancelOrderEffect(d, user, orderId, true, reason, env);
    var s := CancelOrderStep(d, user, orderId, true, reason, env);
    assert s.reply.Ok?;
    assert s.after.products == Adjusted(d.products, d.orders[k].items, true);
  }
}
