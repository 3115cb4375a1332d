/** backend/services/payments/handler.js: the order-side state changes of the
    payment endpoints. What the payment gateway answers is an input of each
    step; the amount a step asks the gateway for is an output of its method.
    Every save here changes only payment, refund and status fields, which the
    order schema does not constrain, so none of them can fail on a stored order. */
module PaymentsHandler {
  import opened Common
  import opened Responses
  import opened OrderModel
  import opened Database

  /** What `stripe.paymentIntents.create` does. */
  datatype IntentOutcome = IntentCreated(intentId: string) | IntentError(message: string)

  /** What `stripe.paymentIntents.retrieve` does: the intent's `status`, or the
      error it throws. */
  datatype Retrieval = Retrieved(status: string) | RetrieveError(message: string)

  /** A webhook call as `stripe.webhooks.constructEvent` reads it; `orderId` is
      the intent's `metadata.orderId`, `""` when absent. */
  datatype WebhookEvent =
    | BadSignature
    | IntentSucceeded(orderId: string)
    | IntentPaymentFailed(orderId: string)
    | OtherEvent

  /** What `stripe.refunds.create` does. */
  datatype RefundOutcome = RefundIssued | RefundError(message: string)

  /** `Math.round(amount * 100)`: the gateway counts cents. */
  function Cents(amount: real): (r: int)
    ensures amount * 100.0 - 0.5 < r as real <= amount * 100.0 + 0.5
  {
    Round(amount * 100.0)
  }

  /** An order written back at its place. */
  function Put(d: Db, i: nat, doc: OrderDoc): Db
    requires i < |d.orders|
  {
    d.(orders := d.orders[i := doc])
  }

  /** Changing only the payment, refund, status and history of a stored order
      keeps the collections valid. */
  lemma PutStored(d: Db, i: nat, doc: OrderDoc)
    requires ValidDb(d) && i < |d.orders|
    requires doc.(payment := d.orders[i].payment, refund := d.orders[i].refund,
                  current := d.orders[i].current, history := d.orders[i].history,
                  tracking := d.orders[i].tracking) == d.orders[i]
    requires doc.payment.paymentMethod == d.orders[i].payment.paymentMethod
    ensures ValidDb(Put(d, i, doc))
  {
    PutOrderStored(d.orders, i, doc);
  }

  /** `FindOrder` looks at ids only. */
  lemma FindOrderByIds(a: seq<OrderDoc>, b: seq<OrderDoc>, orderId: Id)
    requires |a| == |b| && forall j :: 0 <= j < |a| ==> a[j].id == b[j].id
    ensures FindOrder(a, orderId) == FindOrder(b, orderId)
  {
    if a != [] {
      FindOrderByIds(a[1..], b[1..], orderId);
    }
  }

  function OrderIdBody(orderId: string): map<string, JsValue> {
    map["orderId" := Str(orderId)]
  }

  /** `order.paymentInfo.transactionId = id`. */
  function WithTransaction(o: OrderDoc, id: string): OrderDoc {
    o.(payment := o.payment.(transactionId := Some(id)))
  }

  // ---------------------------------------------------------------------------
  // createPaymentIntent

  /** `createPaymentIntent`; `validId` says whether Mongoose can cast `orderId`. */
  function CreatePaymentIntentStep(d: Db, user: User, orderId: string, validId: bool, gateway: IntentOutcome): Step {
    var missing := ValidateRequiredFields(OrderIdBody(orderId), ["orderId"]);
    if missing.Some? then Step(Threw(missing.value), d)
    else if !validId then Step(Threw(CastFailure(orderId)), d)
    else match FindOrder(d.orders, orderId)
      case None => Step(Refused(404, "Order not found"), d)
      case Some(i) =>
        var o := d.orders[i];
        if o.user != user.id then Step(Refused(403, "Access denied"), d)
        else if o.payment.paymentStatus == PaymentCompleted then Step(Refused(400, "Order is already paid"), d)
        else match gateway
          case IntentError(m) => Step(Refused(400, "Payment processing failed: " + m), d)
          case IntentCreated(id) => Step(Ok(200, "Payment intent created successfully"), Put(d, i, WithTransaction(o, id)))
  }

  /** The amount `createPaymentIntent` asks the gateway for, `None` when it
      answers before calling it. */
  function IntentCharge(d: Db, user: User, orderId: string, validId: bool): Option<int> {
    if !validId then None
    else match FindOrder(d.orders, orderId)
    case None => None
    case Some(i) =>
      var o := d.orders[i];
      if orderId == "" || o.user != user.id || o.payment.paymentStatus == PaymentCompleted then None
      else Some(Cents(o.summary.total))
  }

  /** `createPaymentIntent`. */
  method CreatePaymentIntent(db: Store, user: User, orderId: string, validId: bool, gateway: IntentOutcome, env: Env)
    returns (reply: Reply, charged: Option<int>)
    requires db.Valid() && env.Valid()
    modifies db
    ensures Step(reply, db.State()) == CreatePaymentIntentStep(old(db.State()), user, orderId, validId, gateway)
    ensures charged == IntentCharge(old(db.State()), user, orderId, validId)
    ensures db.Valid()
  {
    CreatePaymentIntentSucceedsIff(db.State(), user, orderId, validId, gateway);
    charged := None;
    var missing := ValidateRequiredFields(OrderIdBody(orderId), ["orderId"]);
    if missing.Some? {
      return Threw(missing.value), None;
    }
    if !validId {
      return Threw(CastFailure(orderId)), None;
    }
    var i := FindOrder(db.orders, orderId);
    if i.None? {
      return Refused(404, "Order not found"), None;
    }
    var order := new Order.Load(db.orders[i.value]);
    if order.doc.user != user.id {
      return Refused(403, "Access denied"), None;
    }
    if order.doc.payment.paymentStatus == PaymentCompleted {
      return Refused(400, "Order is already paid"), None;
    }
    charged := Some(Cents(order.doc.summary.total));
    match gateway
    case IntentError(m) =>
      reply := Refused(400, "Payment processing failed: " + m);
    case IntentCreated(id) =>
      order.doc := WithTransaction(order.doc, id);
      var err := order.Save(env.now, env.rnd);
      if err.Some? {
        assert false;
      }
      db.orders := db.orders[i.value := order.doc];
      reply := Ok(200, "Payment intent created successfully");
  }

  /** `createPaymentIntent` succeeds exactly when the id names a stored order
      (an id Mongoose cannot cast is answered 400 "Invalid ID format"), it belongs to
      the caller (an admin gets no exception), is not paid yet and the gateway
      creates the intent; the order then records the intent's id and nothing
      else changes. The gateway is asked for the order's total in cents, rounded
      half up, whenever the order passes those checks. */
  lemma CreatePaymentIntentSucceedsIff(d: Db, user: User, orderId: string, validId: bool, gateway: IntentOutcome)
    requires ValidDb(d)
    ensures var s := CreatePaymentIntentStep(d, user, orderId, validId, gateway);
      var i := FindOrder(d.orders, orderId);
      var charge := IntentCharge(d, user, orderId, validId);
      ValidDb(s.after)
      && (orderId != "" && !validId ==> s.reply == Threw(CastFailure(orderId)))
      && (charge.Some? <==> validId && i.Some? && orderId != "" && d.orders[i.value].user == user.id
                            && d.orders[i.value].payment.paymentStatus != PaymentCompleted)
      && (charge.Some? ==> d.orders[i.value].summary.total * 100.0 - 0.5 < charge.value as real
                                                                  <= d.orders[i.value].summary.total * 100.0 + 0.5)
      && (s.reply.Ok? <==> charge.Some? && gateway.IntentCreated?)
      && (!s.reply.Ok? ==> s.after == d)
      && (s.reply.Ok? ==>
            s.after.orders == d.orders[i.value := s.after.orders[i.value]]
            && s.after.orders[i.value].payment.transactionId == Some(gateway.intentId)
            && s.after.orders[i.value].payment.paymentStatus == d.orders[i.value].payment.paymentStatus
            && s.after.orders[i.value].current == d.orders[i.value].current
            && s.after == d.(orders := s.after.orders))
  {
    assert Field(OrderIdBody(orderId), "orderId") == Str(orderId);
    var i := FindOrder(d.orders, orderId);
    if i.Some? && gateway.IntentCreated? {
      PutStored(d, i.value, WithTransaction(d.orders[i.value], gateway.intentId));
    }
  }

  // ---------------------------------------------------------------------------
  // confirmPayment

  /** `Order.findOne({ 'paymentInfo.transactionId': id })`. */
  function FindTransaction(orders: seq<OrderDoc>, id: string): (r: Option<nat>)
    ensures r.Some? ==> r.value < |orders| && orders[r.value].payment.transactionId == Some(id)
                        && forall j :: 0 <= j < r.value ==> orders[j].payment.transactionId != Some(id)
    ensures r.None? ==> forall j :: 0 <= j < |orders| ==> orders[j].payment.transactionId != Some(id)
  {
    if orders == [] then None
    else if orders[0].payment.transactionId == Some(id) then Some(0)
    else match FindTransaction(orders[1..], id)
      case None => None
      case Some(k) => Some(k + 1)
  }

  /** The orders the fallback query selects: the user's, with the payment still
      pending (`processing` is not a payment status the schema allows). */
  predicate PendingFor(o: OrderDoc, userId: Id) {
    o.user == userId && o.payment.paymentStatus == PaymentPending
  }

  /** `findOne(...).sort({ createdAt: -1 })`: the pending order created last;
      of several created at the same time, the one stored first. */
  function LatestPending(orders: seq<OrderDoc>, userId: Id): (r: Option<nat>)
    ensures r.Some? ==> r.value < |orders| && PendingFor(orders[r.value], userId)
                        && (forall j :: 0 <= j < |orders| && PendingFor(orders[j], userId) ==>
                              orders[j].createdAt <= orders[r.value].createdAt)
                        && (forall j :: 0 <= j < r.value && PendingFor(orders[j], userId) ==>
                              orders[j].createdAt < orders[r.value].createdAt)
    ensures r.None? ==> forall j :: 0 <= j < |orders| ==> !PendingFor(orders[j], userId)
  {
    if orders == [] then None
    else
      var prefix := orders[..|orders| - 1];
      var last := |orders| - 1;
      var best := LatestPending(prefix, userId);
      assert forall j :: 0 <= j < last ==> prefix[j] == orders[j];
      if PendingFor(orders[last], userId) && (best.None? || orders[best.value].createdAt < orders[last].createdAt)
      then Some(last)
      else best
  }

  /** The order `confirmPayment` works on and the collections once the fallback
      has recorded the intent's id on it; `None` when there is none. */
  function ConfirmTarget(d: Db, user: User, intentId: string): (r: Option<(nat, Db)>)
    ensures r.Some? ==> r.value.0 < |d.orders| && r.value.0 < |r.value.1.orders|
  {
    match FindTransaction(d.orders, intentId)
    case Some(i) => Some((i, d))
    case None =>
      match LatestPending(d.orders, user.id)
      case None => None
      case Some(i) => Some((i, Put(d, i, WithTransaction(d.orders[i], intentId))))
  }

  /** The order after a payment the gateway reports as succeeded. */
  function Paid(o: OrderDoc, intentId: Option<string>, note: string, now: int): OrderDoc {
    var paid := o.(payment := o.payment.(paymentStatus := PaymentCompleted, paidAt := Some(now),
                                         transactionId := if intentId.Some? then intentId else o.payment.transactionId));
    WithStatus(paid, Confirmed, note, now)
  }

  function Failed(o: OrderDoc): OrderDoc {
    o.(payment := o.payment.(paymentStatus := PaymentFailed))
  }

  /** `confirmPayment` for the body's `paymentIntentId` and what the gateway
      reports for it. The 404 for a missing intent (source lines 115-117) is
      not modelled: the gateway throws rather than answering nothing, and the
      status has already been read at line 113. */
  function ConfirmPaymentStep(d: Db, user: User, intentId: string, retrieval: Retrieval, now: int): Step {
    var missing := ValidateRequiredFields(map["paymentIntentId" := Str(intentId)], ["paymentIntentId"]);
    if missing.Some? then Step(Threw(missing.value), d)
    else match retrieval
      case RetrieveError(m) => Step(Refused(500, "Payment confirmation failed: " + m), d)
      case Retrieved(status) =>
        match ConfirmTarget(d, user, intentId)
        case None => Step(Refused(404, "No pending orders found. Please create a new order."), d)
        case Some((i, d1)) => SettleStep(d1, user, i, intentId, status, now)
  }

  /** The rest of `confirmPayment` on the order found: the owner check, then the
      branch on the intent's status. */
  function SettleStep(d: Db, user: User, i: nat, intentId: string, status: string, now: int): Step
    requires i < |d.orders|
  {
    var o := d.orders[i];
    if o.user != user.id then Step(Refused(403, "Access denied"), d)
    else if status == "succeeded" then
      Step(Ok(200, "Payment confirmed successfully"), Put(d, i, Paid(o, Some(intentId), "Payment completed successfully", now)))
    else if status == "requires_action" then Step(Ok(200, "Payment requires additional action"), d)
    else Step(Refused(400, "Payment failed"), Put(d, i, Failed(o)))
  }

  /** `confirmPayment`. */
  method ConfirmPayment(db: Store, user: User, intentId: string, retrieval: Retrieval, env: Env) returns (reply: Reply)
    requires db.Valid() && env.Valid()
    modifies db
    ensures Step(reply, db.State()) == ConfirmPaymentStep(old(db.State()), user, intentId, retrieval, env.now)
    ensures db.Valid()
  {
    ConfirmPaymentStored(db.State(), user, intentId, retrieval, env.now);
    var missing := ValidateRequiredFields(map["paymentIntentId" := Str(intentId)], ["paymentIntentId"]);
    if missing.Some? {
      return Threw(missing.value);
    }
    if retrieval.RetrieveError? {
      return Refused(500, "Payment confirmation failed: " + retrieval.message);
    }
    var status := retrieval.status;
    var i := FindTransaction(db.orders, intentId);
    if i.None? {
      i := LatestPending(db.orders, user.id);
      if i.None? {
        return Refused(404, "No pending orders found. Please create a new order.");
      }
      RecordTransaction(db, i.value, intentId, env);
    }
    reply := Settle(db, user, i.value, intentId, status, env);
  }

  /** The fallback of `confirmPayment`: the intent's id is saved on the order. */
  method RecordTransaction(db: Store, i: nat, intentId: string, env: Env)
    requires db.Valid() && env.Valid() && i < |db.orders|
    modifies db
    ensures db.State() == Put(old(db.State()), i, WithTransaction(old(db.orders[i]), intentId))
  {
    var order := new Order.Load(db.orders[i]);
    order.doc := WithTransaction(order.doc, intentId);
    var err := order.Save(env.now, env.rnd);
    if err.Some? {
      assert false;
    }
    db.orders := db.orders[i := order.doc];
  }

  method Settle(db: Store, user: User, i: nat, intentId: string, status: string, env: Env) returns (reply: Reply)
    requires db.Valid() && env.Valid() && i < |db.orders|
    modifies db
    ensures Step(reply, db.State()) == SettleStep(old(db.State()), user, i, intentId, status, env.now)
  {
    var order := new Order.Load(db.orders[i]);
    if order.doc.user != user.id {
      return Refused(403, "Access denied");
    }
    if status == "succeeded" {
      order.doc := order.doc.(payment := order.doc.payment.(paymentStatus := PaymentCompleted, paidAt := Some(env.now),
                                                            transactionId := Some(intentId)));
      var err := order.Save(env.now, env.rnd);
      if err.Some? {
        assert false;
      }
      AnyTransitionAllowed(order.doc, order.doc.current, Confirmed, "Payment completed successfully", env.now);
      err := order.UpdateStatus(Confirmed, "Payment completed successfully", env.now, env.rnd);
      if err.Some? {
        assert false;
      }
      db.orders := db.orders[i := order.doc];
      reply := Ok(200, "Payment confirmed successfully");
    } else if status == "requires_action" {
      reply := Ok(200, "Payment requires additional action");
    } else {
      order.doc := Failed(order.doc);
      var err := order.Save(env.now, env.rnd);
      if err.Some? {
        assert false;
      }
      db.orders := db.orders[i := order.doc];
      reply := Refused(400, "Payment failed");
    }
  }

  /** `confirmPayment` keeps the collections valid and touches only orders;
      a missing id, a gateway error or no order to settle changes nothing. */
  lemma ConfirmPaymentStored(d: Db, user: User, intentId: string, retrieval: Retrieval, now: int)
    requires ValidDb(d)
    ensures var s := ConfirmPaymentStep(d, user, intentId, retrieval, now);
      ValidDb(s.after)
      && s.after.products == d.products && s.after.carts == d.carts && s.after.wishlists == d.wishlists
      && (retrieval.RetrieveError? || intentId == "" || ConfirmTarget(d, user, intentId).None? ==> s.after == d)
  {
    assert Field(map["paymentIntentId" := Str(intentId)], "paymentIntentId") == Str(intentId);
    var s := ConfirmPaymentStep(d, user, intentId, retrieval, now);
    var missing := ValidateRequiredFields(map["paymentIntentId" := Str(intentId)], ["paymentIntentId"]);
    var target := ConfirmTarget(d, user, intentId);
    if missing.None? && retrieval.Retrieved? && target.Some? {
      var i, d1 := target.value.0, target.value.1;
      ConfirmTargetStored(d, user, intentId);
      SettledStored(d1, user, i, intentId, retrieval.status, now);
      assert s == SettleStep(d1, user, i, intentId, retrieval.status, now);
    }
  }

  lemma ConfirmTargetStored(d: Db, user: User, intentId: string)
    requires ValidDb(d)
    ensures var t := ConfirmTarget(d, user, intentId);
      t.Some? ==> ValidDb(t.value.1) && t.value.1 == d.(orders := t.value.1.orders)
  {
    if FindTransaction(d.orders, intentId).None? {
      var i := LatestPending(d.orders, user.id);
      if i.Some? {
        PutStored(d, i.value, WithTransaction(d.orders[i.value], intentId));
      }
    }
  }

  lemma SettledStored(d: Db, user: User, i: nat, intentId: string, status: string, now: int)
    requires ValidDb(d) && i < |d.orders|
    ensures var s := SettleStep(d, user, i, intentId, status, now);
      ValidDb(s.after) && s.after == d.(orders := s.after.orders)
  {
    var o := d.orders[i];
    if o.user == user.id {
      if status == "succeeded" {
        AnyTransitionAllowed(o, o.current, Confirmed, "Payment completed successfully", now);
        PutStored(d, i, Paid(o, Some(intentId), "Payment completed successfully", now));
      } else if status != "requires_action" {
        PutStored(d, i, Failed(o));
      }
    }
  }

  /** An order found by its intent id that belongs to someone else is refused
      with 403 and nothing changes, whatever the intent's status. */
  lemma ConfirmPaymentForeignRefused(d: Db, user: User, intentId: string, status: string, now: int)
    requires intentId != ""
    requires FindTransaction(d.orders, intentId).Some?
    requires d.orders[FindTransaction(d.orders, intentId).value].user != user.id
    ensures ConfirmPaymentStep(d, user, intentId, Retrieved(status), now) == Step(Refused(403, "Access denied"), d)
  {
    assert Field(map["paymentIntentId" := Str(intentId)], "paymentIntentId") == Str(intentId);
  }

  /** On the caller's own order, the intent's status decides: `succeeded` marks
      the order paid at `now` under the intent's id and confirms it with one
      history entry; `requires_action` changes nothing beyond the id the
      fallback records; any other status marks the payment failed and is
      refused. Only that order changes. */
  lemma ConfirmPaymentSettles(d: Db, user: User, intentId: string, status: string, now: int)
    requires intentId != ""
    requires ConfirmTarget(d, user, intentId).Some?
    requires d.orders[ConfirmTarget(d, user, intentId).value.0].user == user.id
    ensures var s := ConfirmPaymentStep(d, user, intentId, Retrieved(status), now);
      var (i, d1) := ConfirmTarget(d, user, intentId).value;
      (s.reply.Ok? <==> status == "succeeded" || status == "requires_action")
      && |s.after.orders| == |d.orders|
      && (forall j :: 0 <= j < |d.orders| && j != i ==> s.after.orders[j] == d.orders[j])
      && (status == "succeeded" ==>
            s.after.orders[i].payment.paymentStatus == PaymentCompleted
            && s.after.orders[i].payment.paidAt == Some(now)
            && s.after.orders[i].payment.transactionId == Some(intentId)
            && s.after.orders[i].current == Confirmed
            && s.after.orders[i].history
               == d.orders[i].history + [HistoryEntry(Confirmed, now, "Payment completed successfully")])
      && (status == "requires_action" ==> s.after == d1)
      && (status != "succeeded" && status != "requires_action" ==>
            s.reply == Refused(400, "Payment failed")
            && s.after.orders[i].payment.paymentStatus == PaymentFailed)
  {
    assert Field(map["paymentIntentId" := Str(intentId)], "paymentIntentId") == Str(intentId);
    var (i, d1) := ConfirmTarget(d, user, intentId).value;
    assert d1.orders[i].user == d.orders[i].user && d1.orders[i].history == d.orders[i].history;
  }

  /** Confirming is not guarded by the payment status: a second successful
      confirmation of an order that has meanwhile shipped moves it back to
      `confirmed`. */
  lemma ReconfirmingMovesBack(d: Db, user: User, intentId: string, now: int)
    requires ValidDb(d) && intentId != ""
    requires FindTransaction(d.orders, intentId).Some?
    requires var o := d.orders[FindTransaction(d.orders, intentId).value];
      o.user == user.id && o.current == Shipped && o.payment.paymentStatus == PaymentCompleted
    ensures var s := ConfirmPaymentStep(d, user, intentId, Retrieved("succeeded"), now);
      var i := FindTransaction(d.orders, intentId).value;
      s.reply.Ok? && s.after.orders[i].current == Confirmed
  {
    assert Field(map["paymentIntentId" := Str(intentId)], "paymentIntentId") == Str(intentId);
  }

  // ---------------------------------------------------------------------------
  // handleWebhook

  /** `handleWebhook`; `validId` says whether Mongoose can cast the event's
      `orderId`. The cast error is thrown inside the handler's second `try`, so
      it is answered 500 "Webhook processing failed". */
  function HandleWebhookStep(d: Db, event: WebhookEvent, validId: bool, now: int): Step {
    match event
    case BadSignature => Step(Refused(400, "Webhook signature verification failed"), d)
    case OtherEvent => Step(Ok(200, "Webhook processed successfully"), d)
    case IntentSucceeded(orderId) =>
      var i := FindOrder(d.orders, orderId);
      if orderId == "" then Step(Ok(200, "Webhook processed successfully"), d)
      else if !validId then Step(Refused(500, "Webhook processing failed"), d)
      else if i.Some? && d.orders[i.value].payment.paymentStatus != PaymentCompleted then
        Step(Ok(200, "Webhook processed successfully"), Put(d, i.value, Paid(d.orders[i.value], None, "Payment completed via webhook", now)))
      else Step(Ok(200, "Webhook processed successfully"), d)
    case IntentPaymentFailed(orderId) =>
      var i := FindOrder(d.orders, orderId);
      if orderId == "" then Step(Ok(200, "Webhook processed successfully"), d)
      else if !validId then Step(Refused(500, "Webhook processing failed"), d)
      else if i.Some? then
        Step(Ok(200, "Webhook processed successfully"), Put(d, i.value, Failed(d.orders[i.value])))
      else Step(Ok(200, "Webhook processed successfully"), d)
  }

  /** `handleWebhook`. */
  method HandleWebhook(db: Store, event: WebhookEvent, validId: bool, env: Env) returns (reply: Reply)
    requires db.Valid() && env.Valid()
    modifies db
    ensures Step(reply, db.State()) == HandleWebhookStep(old(db.State()), event, validId, env.now)
    ensures db.Valid()
  {
    WebhookEffect(db.State(), event, validId, env.now);
    if event.BadSignature? {
      return Refused(400, "Webhook signature verification failed");
    }
    if !event.OtherEvent? && event.orderId != "" && !validId {
      return Refused(500, "Webhook processing failed");
    }
    reply := Ok(200, "Webhook processed successfully");
    if event.IntentSucceeded? && event.orderId != "" {
        var i := FindOrder(db.orders, event.orderId);
        if i.Some? {
          var order := new Order.Load(db.orders[i.value]);
          if order.doc.payment.paymentStatus != PaymentCompleted {
            order.doc := order.doc.(payment := order.doc.payment.(paymentStatus := PaymentCompleted, paidAt := Some(env.now)));
            AnyTransitionAllowed(order.doc, order.doc.current, Confirmed, "Payment completed via webhook", env.now);
            var err := order.UpdateStatus(Confirmed, "Payment completed via webhook", env.now, env.rnd);
            if err.Some? {
              assert false;
            }
            db.orders := db.orders[i.value := order.doc];
          }
        }
    } else if event.IntentPaymentFailed? && event.orderId != "" {
        var i := FindOrder(db.orders, event.orderId);
        if i.Some? {
          var order := new Order.Load(db.orders[i.value]);
          order.doc := Failed(order.doc);
          var err := order.Save(env.now, env.rnd);
          if err.Some? {
            assert false;
          }
          db.orders := db.orders[i.value := order.doc];
        }
    }
  }

  /** Every well-signed event is answered with 200, unless it names an order id
      Mongoose cannot cast: that one is answered 500 and changes nothing. A
      succeeded event marks an unpaid order paid and confirmed and leaves a
      paid one alone; a failed event marks the payment failed. Nothing else
      changes. */
  lemma WebhookEffect(d: Db, event: WebhookEvent, validId: bool, now: int)
    requires ValidDb(d)
    ensures var s := HandleWebhookStep(d, event, validId, now);
      var uncastable := (event.IntentSucceeded? || event.IntentPaymentFailed?) && event.orderId != "" && !validId;
      ValidDb(s.after)
      && (s.reply.Ok? <==> !event.BadSignature? && !uncastable)
      && (uncastable ==> s == Step(Refused(500, "Webhook processing failed"), d))
      && s.after.products == d.products && s.after.carts == d.carts && s.after.wishlists == d.wishlists
      && (event.BadSignature? || event.OtherEvent? ==> s.after == d)
      && (event.IntentSucceeded? ==>
            var i := FindOrder(d.orders, event.orderId);
            (i.None? || event.orderId == "" || d.orders[i.value].payment.paymentStatus == PaymentCompleted ==> s.after == d)
            && (validId && i.Some? && event.orderId != "" && d.orders[i.value].payment.paymentStatus != PaymentCompleted ==>
                  s.after.orders == d.orders[i.value := s.after.orders[i.value]]
                  && s.after.orders[i.value].payment.paymentStatus == PaymentCompleted
                  && s.after.orders[i.value].current == Confirmed
                  && s.after.orders[i.value].history
                     == d.orders[i.value].history + [HistoryEntry(Confirmed, now, "Payment completed via webhook")]))
      && (event.IntentPaymentFailed? && event.orderId != "" && validId && FindOrder(d.orders, event.orderId).Some? ==>
            s.after.orders[FindOrder(d.orders, event.orderId).value].payment.paymentStatus == PaymentFailed)
  {
    match event
    case BadSignature =>
    case OtherEvent =>
    case IntentSucceeded(orderId) =>
      var i := FindOrder(d.orders, orderId);
      if orderId != "" && validId && i.Some? && d.orders[i.value].payment.paymentStatus != PaymentCompleted {
        var o := d.orders[i.value];
        AnyTransitionAllowed(o, o.current, Confirmed, "Payment completed via webhook", now);
        PutStored(d, i.value, Paid(o, None, "Payment completed via webhook", now));
      }
    case IntentPaymentFailed(orderId) =>
      var i := FindOrder(d.orders, orderId);
      if orderId != "" && validId && i.Some? {
        PutStored(d, i.value, Failed(d.orders[i.value]));
      }
  }

  /** A succeeded event delivered twice has the effect of one delivery, whenever
      the second arrives: it is answered as the first was and changes nothing. */
  lemma WebhookIdempotent(d: Db, orderId: string, validId: bool, now: int, later: int)
    requires ValidDb(d)
    ensures var first := HandleWebhookStep(d, IntentSucceeded(orderId), validId, now);
      HandleWebhookStep(first.after, IntentSucceeded(orderId), validId, later) == Step(first.reply, first.after)
  {
    var i := FindOrder(d.orders, orderId);
    var once := HandleWebhookStep(d, IntentSucceeded(orderId), validId, now).after;
    if orderId != "" && validId && i.Some? && d.orders[i.value].payment.paymentStatus != PaymentCompleted {
      FindOrderByIds(d.orders, once.orders, orderId);
    }
  }

  // ---------------------------------------------------------------------------
  // processRefund

  /** `amount || order.orderSummary.total`: an absent or zero amount refunds the total. */
  function RefundAmount(amount: Option<real>, total: real): real {
    if amount.Some? && amount.value != 0.0 then amount.value else total
  }

  /** `reason || 'Customer request'`. */
  function RefundReason(reason: string): string {
    if reason == "" then "Customer request" else reason
  }

  /** The checks `processRefund` makes before calling the gateway: `None` when
      they pass. `validId` says whether Mongoose can cast `orderId`. */
  function RefundProblem(d: Db, user: User, orderId: string, validId: bool): (r: Option<Reply>)
  {
    var missing := ValidateRequiredFields(OrderIdBody(orderId), ["orderId"]);
    if missing.Some? then Some(Threw(missing.value))
    else if !validId then Some(Threw(CastFailure(orderId)))
    else match FindOrder(d.orders, orderId)
      case None => Some(Refused(404, "Order not found"))
      case Some(i) =>
        var o := d.orders[i];
        if o.user != user.id && user.role != Admin then Some(Refused(403, "Access denied"))
        else if o.payment.paymentStatus != PaymentCompleted then Some(Refused(400, "Order is not paid yet"))
        else if o.refund.status == RefundCompleted then Some(Refused(400, "Order is already refunded"))
        else None
  }

  /** The order after a refund the gateway has made. */
  function Refunded(o: OrderDoc, amount: real, reason: string, now: int): OrderDoc {
    WithStatus(o.(refund := Refund(RefundCompleted, Some(amount), Some(RefundReason(reason)), Some(now))),
               Returned, "Refund processed", now)
  }

  function ProcessRefundStep(d: Db, user: User, orderId: string, validId: bool, amount: Option<real>, reason: string,
                             gateway: RefundOutcome, now: int): Step {
    match RefundProblem(d, user, orderId, validId)
    case Some(r) => Step(r, d)
    case None =>
      var i := FindOrder(d.orders, orderId).value;
      var o := d.orders[i];
      match gateway
      case RefundIssued =>
        Step(Ok(200, "Refund processed successfully"),
             Put(d, i, Refunded(o, RefundAmount(amount, o.summary.total), reason, now)))
      case RefundError(m) =>
        Step(Refused(400, "Refund processing failed: " + m), Put(d, i, o.(refund := o.refund.(status := RefundRejected))))
  }

  /** The amount in cents `processRefund` asks the gateway to return. */
  function RefundCharge(d: Db, user: User, orderId: string, validId: bool, amount: Option<real>): Option<int> {
    if RefundProblem(d, user, orderId, validId).Some? then None
    else Some(Cents(RefundAmount(amount, d.orders[FindOrder(d.orders, orderId).value].summary.total)))
  }

  /** `processRefund`. */
  method ProcessRefund(db: Store, user: User, orderId: string, validId: bool, amount: Option<real>, reason: string,
                       gateway: RefundOutcome, env: Env) returns (reply: Reply, requested: Option<int>)
    requires db.Valid() && env.Valid()
    modifies db
    ensures Step(reply, db.State()) == ProcessRefundStep(old(db.State()), user, orderId, validId, amount, reason, gateway, env.now)
    ensures requested == RefundCharge(old(db.State()), user, orderId, validId, amount)
    ensures db.Valid()
  {
    ProcessRefundEffect(db.State(), user, orderId, validId, amount, reason, gateway, env.now);
    var problem := RefundProblem(db.State(), user, orderId, validId);
    if problem.Some? {
      return problem.value, None;
    }
    var i := FindOrder(db.orders, orderId).value;
    var order := new Order.Load(db.orders[i]);
    var refundAmount := RefundAmount(amount, order.doc.summary.total);
    requested := Some(Cents(refundAmount));
    match gateway
    case RefundIssued =>
      order.doc := order.doc.(refund := Refund(RefundCompleted, Some(refundAmount), Some(RefundReason(reason)), Some(env.now)));
      AnyTransitionAllowed(order.doc, order.doc.current, Returned, "Refund processed", env.now);
      var err := order.UpdateStatus(Returned, "Refund processed", env.now, env.rnd);
      if err.Some? {
        assert false;
      }
      db.orders := db.orders[i := order.doc];
      reply := Ok(200, "Refund processed successfully");
    case RefundError(m) =>
      order.doc := order.doc.(refund := order.doc.refund.(status := RefundRejected));
      var err := order.Save(env.now, env.rnd);
      if err.Some? {
        assert false;
      }
      db.orders := db.orders[i := order.doc];
      reply := Refused(400, "Refund processing failed: " + m);
  }

  /** The owner or an admin can have a paid order refunded once. A refund the
      gateway makes records the amount (the body's, or the total when it is
      absent or 0), the reason and the time, and moves the order to `returned`;
      a refund the gateway refuses is recorded as rejected. The payment status
      stays `completed` and the products are never touched: a refunded order's
      units do not go back into stock. */
  lemma ProcessRefundEffect(d: Db, user: User, orderId: string, validId: bool, amount: Option<real>, reason: string,
                            gateway: RefundOutcome, now: int)
    requires ValidDb(d)
    ensures var s := ProcessRefundStep(d, user, orderId, validId, amount, reason, gateway, now);
      var i := FindOrder(d.orders, orderId);
      var cleared := orderId != "" && validId && i.Some? && (d.orders[i.value].user == user.id || user.role == Admin)
                     && d.orders[i.value].payment.paymentStatus == PaymentCompleted
                     && d.orders[i.value].refund.status != RefundCompleted;
      ValidDb(s.after)
      && s.after.products == d.products && s.after.carts == d.carts && s.after.wishlists == d.wishlists
      && (RefundProblem(d, user, orderId, validId).None? <==> cleared)
      && (orderId != "" && !validId ==> s.reply == Threw(CastFailure(orderId)))
      && (s.reply.Ok? <==> cleared && gateway.RefundIssued?)
      && (!cleared ==> s.after == d)
      && (cleared ==>
            s.after.orders == d.orders[i.value := s.after.orders[i.value]]
            && s.after.orders[i.value].payment == d.orders[i.value].payment
            && (gateway.RefundIssued? ==>
                  s.after.orders[i.value].refund.status == RefundCompleted
                  && s.after.orders[i.value].refund.amount == Some(RefundAmount(amount, d.orders[i.value].summary.total))
                  && s.after.orders[i.value].current == Returned
                  && s.after.orders[i.value].history
                     == d.orders[i.value].history + [HistoryEntry(Returned, now, "Refund processed")])
            && (gateway.RefundError? ==>
                  s.after.orders[i.value] == d.orders[i.value].(refund := d.orders[i.value].refund.(status := RefundRejected))))
  {
    assert Field(OrderIdBody(orderId), "orderId") == Str(orderId);
    var i := FindOrder(d.orders, orderId);
    if RefundProblem(d, user, orderId, validId).None? {
      var o := d.orders[i.value];
      var refunded := o.(refund := Refund(RefundCompleted, Some(RefundAmount(amount, o.summary.total)), Some(RefundReason(reason)), Some(now)));
      AnyTransitionAllowed(refunded, o.current, Returned, "Refund processed", now);
      PutStored(d, i.value, Refunded(o, RefundAmount(amount, o.summary.total), reason, now));
      PutStored(d, i.value, o.(refund := o.refund.(status := RefundRejected)));
    }
  }

  /** Once refunded, an order cannot be refunded again; a refused refund can be retried. */
  lemma RefundOnce(d: Db, user: User, orderId: string, validId: bool, amount: Option<real>, reason: string, now: int,
                   amount2: Option<real>, reason2: string, gateway2: RefundOutcome, later: int)
    requires ValidDb(d)
    requires ProcessRefundStep(d, user, orderId, validId, amount, reason, RefundIssued, now).reply.Ok?
    ensures var after := ProcessRefundStep(d, user, orderId, validId, amount, reason, RefundIssued, now).after;
      ProcessRefundStep(after, user, orderId, validId, amount2, reason2, gateway2, later)
      == Step(Refused(400, "Order is already refunded"), after)
  {
    ProcessRefundEffect(d, user, orderId, validId, amount, reason, RefundIssued, now);
    var after := ProcessRefundStep(d, user, orderId, validId, amount, reason, RefundIssued, now).after;
    var i := FindOrder(d.orders, orderId).value;
    FindOrderByIds(d.orders, after.orders, orderId);
  }
}
