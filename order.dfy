/** backend/models/Order.js: an order document, its enums and validators, the
    order-number hook, `updateStatus` and `calculateTotal`. */
module OrderModel {
  import opened Common
  import opened Responses

  datatype OrderStatus = Pending | Confirmed | Processing | Shipped | Delivered | Cancelled | Returned

  /** The seven names of the status enum. */
  function StatusName(s: OrderStatus): string {
    match s
    case Pending => "pending"
    case Confirmed => "confirmed"
    case Processing => "processing"
    case Shipped => "shipped"
    case Delivered => "delivered"
    case Cancelled => "cancelled"
    case Returned => "returned"
  }

  /** A status name as a client sends it; `None` for anything outside the enum. */
  function ParseStatus(name: string): (r: Option<OrderStatus>)
    ensures r.Some? ==> StatusName(r.value) == name
    ensures r.None? ==> forall s: OrderStatus :: StatusName(s) != name
  {
    if name == "pending" then Some(Pending)
    else if name == "confirmed" then Some(Confirmed)
    else if name == "processing" then Some(Processing)
    else if name == "shipped" then Some(Shipped)
    else if name == "delivered" then Some(Delivered)
    else if name == "cancelled" then Some(Cancelled)
    else if name == "returned" then Some(Returned)
    else None
  }

  lemma ParseStatusName(s: OrderStatus)
    ensures ParseStatus(StatusName(s)) == Some(s)
  {
  }

  datatype PaymentStatus = PaymentPending | PaymentCompleted | PaymentFailed | PaymentRefunded

  datatype RefundStatus = RefundNone | RefundRequested | RefundProcessing | RefundCompleted | RefundRejected

  const PaymentMethods: seq<string> := ["credit_card", "debit_card", "paypal", "stripe", "cash_on_delivery"]

  datatype OrderLine = OrderLine(product: Id, productName: string, productImage: string, quantity: int,
                                 price: real, variants: Variants)

  datatype Summary = Summary(subtotal: real, tax: real, shipping: real, discount: real, total: real)

  datatype Address = Address(name: string, street: string, city: string, state: string, zipCode: string,
                             country: string, phone: string)

  datatype PaymentInfo = PaymentInfo(paymentMethod: string, transactionId: Option<string>, paymentStatus: PaymentStatus,
                                     paidAt: Option<int>)

  datatype HistoryEntry = HistoryEntry(status: OrderStatus, timestamp: int, note: string)

  datatype Tracking = Tracking(carrier: Option<string>, trackingNumber: Option<string>,
                               estimatedDelivery: Option<int>, actualDelivery: Option<int>)

  const NoTracking: Tracking := Tracking(None, None, None, None)

  datatype Notes = Notes(customer: Option<string>, internal: Option<string>)

  datatype Refund = Refund(status: RefundStatus, amount: Option<real>, reason: Option<string>, processedAt: Option<int>)

  const NoRefund: Refund := Refund(RefundNone, None, None, None)

  datatype Cancellation = Cancellation(reason: string, cancelledAt: int, cancelledBy: Id)

  datatype OrderDoc = OrderDoc(
    id: Id,
    orderNumber: Option<string>,
    user: Id,
    items: seq<OrderLine>,
    summary: Summary,
    shippingAddress: Address,
    billingAddress: Address,
    payment: PaymentInfo,
    current: OrderStatus,
    history: seq<HistoryEntry>,
    tracking: Tracking,
    notes: Notes,
    refund: Refund,
    cancellation: Option<Cancellation>,
    createdAt: int)

  predicate AddressComplete(a: Address) {
    a.name != "" && a.street != "" && a.city != "" && a.state != "" && a.zipCode != ""
    && a.country != "" && a.phone != ""
  }

  /** The `required` and `min: 1` validators of one order line. */
  predicate LineValid(line: OrderLine) {
    line.productName != "" && line.productImage != "" && line.quantity >= 1
  }

  predicate LinesValid(items: seq<OrderLine>) {
    forall i :: 0 <= i < |items| ==> LineValid(items[i])
  }

  predicate KnownPaymentMethod(m: string) {
    m in PaymentMethods
  }

  /** Every schema constraint of the order document the model can violate
      (the status and history enums are enforced by the types). */
  predicate ValidOrder(o: OrderDoc) {
    LinesValid(o.items) && AddressComplete(o.shippingAddress) && KnownPaymentMethod(o.payment.paymentMethod)
  }

  /** Schema validation as `save` and `create` run it. */
  function ValidateOrder(o: OrderDoc): (r: Option<ErrorValue>)
    ensures r.None? <==> ValidOrder(o)
    ensures r.Some? ==> r.value.Failure? && r.value.name == "ValidationError"
  {
    if ValidOrder(o) then None
    else Some(Failure("ValidationError", "Order validation failed", None,
                      (if !LinesValid(o.items) then ["Invalid order item"] else [])
                      + (if !AddressComplete(o.shippingAddress) then ["Shipping address is incomplete"] else [])
                      + (if !KnownPaymentMethod(o.payment.paymentMethod) then ["Invalid payment method"] else []),
                      ""))
  }

  // ---------------------------------------------------------------------------
  // Order number

  /** `Math.floor(Math.random() * 1000)`. */
  function RandomPart(rnd: real): (n: nat)
    requires 0.0 <= rnd < 1.0
    ensures n < 1000 && n as real <= rnd * 1000.0 < n as real + 1.0
  {
    (rnd * 1000.0).Floor
  }

  /** `ORD-${Date.now()}-${random.padStart(3, '0')}`. */
  function OrderNumber(now: nat, rnd: real): string
    requires 0.0 <= rnd < 1.0
  {
    "ORD-" + NatToString(now) + "-" + PadStart(NatToString(RandomPart(rnd)), 3)
  }

  /** The random suffix has exactly three digits. */
  lemma {:induction false} SuffixDigits(n: nat)
    requires n < 1000
    ensures |PadStart(NatToString(n), 3)| == 3 && IsDigits(PadStart(NatToString(n), 3))
    ensures ParseDigits(PadStart(NatToString(n), 3)) == n
  {
    var s := NatToString(n);
    ParseNatToString(n);
    ShortNumeral(n);
    var p := PadStart(s, 3);
    assert p == seq(3 - |s|, _ => '0') + s;
    LeadingZeros(3 - |s|, s);
  }

  /** A number below 1000 prints in at most three digits. */
  lemma ShortNumeral(n: nat)
    requires n < 1000
    ensures |NatToString(n)| <= 3
  {
    if n >= 10 {
      NatToStringDigits(n / 10);
      if n / 10 >= 10 {
        NatToStringDigits(n / 100);
        assert NatToString(n / 10) == NatToString(n / 100) + [DigitChar((n / 10) % 10)];
      }
    }
  }

  /** Zeros in front of a numeral do not change its value. */
  lemma {:induction false} LeadingZeros(k: nat, s: string)
    requires IsDigits(s)
    ensures IsDigits(seq(k, _ => '0') + s)
    ensures ParseDigits(seq(k, _ => '0') + s) == ParseDigits(s)
    decreases k
  {
    if k == 0 {
      assert seq(k, _ => '0') + s == s;
    } else {
      var u := seq(k - 1, _ => '0') + s;
      LeadingZeros(k - 1, s);
      assert seq(k, _ => '0') == ['0'] + seq(k - 1, _ => '0');
      assert seq(k, _ => '0') + s == ['0'] + u;
      ZeroInFront(u);
    }
  }

  lemma {:induction false} ZeroInFront(s: string)
    requires IsDigits(s)
    ensures IsDigits(['0'] + s) && ParseDigits(['0'] + s) == ParseDigits(s)
    decreases |s|
  {
    if s != [] {
      var t := s[..|s| - 1];
      ZeroInFront(t);
      assert (['0'] + s)[..|['0'] + s| - 1] == ['0'] + t;
    } else {
      assert (['0'] + s)[..0] == [];
    }
  }

  /** Printed naturals are different for different numbers. */
  lemma NatToStringInjective(a: nat, b: nat)
    requires NatToString(a) == NatToString(b)
    ensures a == b
  {
    ParseNatToString(a);
    ParseNatToString(b);
  }

  /** Equal concatenations with parts of equal length have equal parts. */
  lemma ConcatCancel<T>(x: seq<T>, p: seq<T>, y: seq<T>, q: seq<T>)
    requires x + p == y + q && |p| == |q|
    ensures x == y && p == q
  {
    assert x == (x + p)[..|x|];
    assert y == (y + q)[..|y|];
    assert p == (x + p)[|x|..];
    assert q == (y + q)[|y|..];
  }

  /** The order number starts with `ORD-`, ends with the three-digit random part,
      and the timestamp and random part can be read back from it: two numbers
      are equal only when both the millisecond and the random part agree. */
  lemma OrderNumberInjective(t1: nat, r1: real, t2: nat, r2: real)
    requires 0.0 <= r1 < 1.0 && 0.0 <= r2 < 1.0
    requires OrderNumber(t1, r1) == OrderNumber(t2, r2)
    ensures t1 == t2 && RandomPart(r1) == RandomPart(r2)
  {
    var p1, p2 := PadStart(NatToString(RandomPart(r1)), 3), PadStart(NatToString(RandomPart(r2)), 3);
    SuffixDigits(RandomPart(r1));
    SuffixDigits(RandomPart(r2));
    var a1, a2 := NatToString(t1), NatToString(t2);
    ConcatCancel("ORD-" + a1 + "-", p1, "ORD-" + a2 + "-", p2);
    ConcatCancel("ORD-" + a1, "-", "ORD-" + a2, "-");
    ConcatCancel("ORD-", a1, "ORD-", a2);
    NatToStringInjective(t1, t2);
    assert ParseDigits(p1) == ParseDigits(p2);
  }

  lemma OrderNumberShape(now: nat, rnd: real)
    requires 0.0 <= rnd < 1.0
    ensures StartsWith(OrderNumber(now, rnd), "ORD-")
    ensures var n := OrderNumber(now, rnd);
      |n| >= 9 && n[|n| - 4] == '-' && IsDigits(n[|n| - 3..]) && ParseDigits(n[|n| - 3..]) == RandomPart(rnd)
  {
    NatToStringDigits(now);
    SuffixDigits(RandomPart(rnd));
    DashedTail("ORD-" + NatToString(now), PadStart(NatToString(RandomPart(rnd)), 3));
  }

  lemma DashedTail(a: string, p: string)
    requires |a| >= 5 && |p| == 3
    ensures var n := a + "-" + p;
      |n| >= 9 && n[..4] == a[..4] && n[|n| - 4] == '-' && n[|n| - 3..] == p
  {
    var n := a + "-" + p;
    assert n[|n| - 3..] == p;
    assert n[..4] == a[..4];
  }

  // ---------------------------------------------------------------------------
  // Pure views of the document methods

  /** `items.reduce((total, item) => total + item.price * item.quantity, 0)`. */
  function Subtotal(items: seq<OrderLine>): real {
    if items == [] then 0.0 else Subtotal(items[..|items| - 1]) + LineAmount(items[|items| - 1])
  }

  function LineAmount(line: OrderLine): real {
    line.price * line.quantity as real
  }

  lemma {:induction false} SubtotalAppend(a: seq<OrderLine>, b: seq<OrderLine>)
    ensures Subtotal(a + b) == Subtotal(a) + Subtotal(b)
    decreases |b|
  {
    if b == [] {
      assert a + b == a;
    } else {
      assert (a + b)[..|a + b| - 1] == a + b[..|b| - 1];
      SubtotalAppend(a, b[..|b| - 1]);
    }
  }

  /** Lines with non-negative prices give a non-negative subtotal. */
  lemma {:induction false} SubtotalNonNegative(items: seq<OrderLine>)
    requires forall i :: 0 <= i < |items| ==> items[i].price >= 0.0 && items[i].quantity >= 0
    ensures Subtotal(items) >= 0.0
  {
    if items != [] {
      SubtotalNonNegative(items[..|items| - 1]);
    }
  }

  /** The document after `updateStatus(newStatus, note)`, before its save. */
  function WithStatus(o: OrderDoc, newStatus: OrderStatus, note: string, now: int): (r: OrderDoc)
    ensures r.current == newStatus
    ensures r.history == o.history + [HistoryEntry(newStatus, now, note)]
    ensures r.tracking.actualDelivery == if newStatus == Delivered then Some(now) else o.tracking.actualDelivery
    ensures r.(current := o.current, history := o.history, tracking := o.tracking) == o
  {
    o.(current := newStatus,
       history := o.history + [HistoryEntry(newStatus, now, note)],
       tracking := if newStatus == Delivered then o.tracking.(actualDelivery := Some(now)) else o.tracking)
  }

  /** No transition table: any status can follow any other, and the validity of
      the document does not depend on it. */
  lemma AnyTransitionAllowed(o: OrderDoc, from: OrderStatus, to: OrderStatus, note: string, now: int)
    requires ValidOrder(o) && o.current == from
    ensures ValidOrder(WithStatus(o, to, note, now)) && WithStatus(o, to, note, now).current == to
  {
  }

  /** Every history entry of a document built by `updateStatus` calls records
      the status the document was moved to, in call order. */
  function StatusTrail(o: OrderDoc, steps: seq<(OrderStatus, string, int)>): (r: OrderDoc)
    ensures |r.history| == |o.history| + |steps|
    ensures r.history[..|o.history|] == o.history
    ensures forall k :: 0 <= k < |steps| ==> r.history[|o.history| + k] == HistoryEntry(steps[k].0, steps[k].2, steps[k].1)
    ensures steps != [] ==> r.current == steps[|steps| - 1].0
    decreases |steps|
  {
    if steps == [] then o
    else
      var prev := StatusTrail(o, steps[..|steps| - 1]);
      var last := steps[|steps| - 1];
      WithStatus(prev, last.0, last.1, last.2)
  }

  /** A loaded order document. */
  class Order {
    var doc: OrderDoc

    constructor Load(d: OrderDoc)
      ensures doc == d
    {
      doc := d;
    }

    /** `save()`: validation, then the pre-save hook that numbers an order
        that has no number yet. */
    method Save(now: nat, rnd: real) returns (err: Option<ErrorValue>)
      requires 0.0 <= rnd < 1.0
      modifies this
      ensures err == ValidateOrder(old(doc))
      ensures err.Some? ==> doc == old(doc)
      ensures err.None? && old(doc).orderNumber.Some? ==> doc == old(doc)
      ensures err.None? && old(doc).orderNumber.None? ==> doc == old(doc).(orderNumber := Some(OrderNumber(now, rnd)))
    {
      err := ValidateOrder(doc);
      if err.None? && doc.orderNumber.None? {
        doc := doc.(orderNumber := Some(OrderNumber(now, rnd)));
      }
    }

    /** `updateStatus(newStatus, note)`: the assignment and the history entry
        happen in memory before the save. */
    method UpdateStatus(newStatus: OrderStatus, note: string, now: nat, rnd: real) returns (err: Option<ErrorValue>)
      requires 0.0 <= rnd < 1.0
      modifies this
      ensures err == ValidateOrder(WithStatus(old(doc), newStatus, note, now))
      ensures old(doc).orderNumber.Some? || err.Some? ==> doc == WithStatus(old(doc), newStatus, note, now)
      ensures err.None? && old(doc).orderNumber.None? ==>
                doc == WithStatus(old(doc), newStatus, note, now).(orderNumber := Some(OrderNumber(now, rnd)))
      ensures doc.orderNumber.Some? || err.Some?
    {
      doc := WithStatus(doc, newStatus, note, now);
      err := Save(now, rnd);
    }

    /** `calculateTotal()`. */
    method CalculateTotal() returns (total: real)
      modifies this
      ensures doc == old(doc).(summary := old(doc).summary.(subtotal := Subtotal(old(doc).items), total := total))
      ensures total == Subtotal(doc.items) + doc.summary.tax + doc.summary.shipping - doc.summary.discount
    {
      var subtotal := Subtotal(doc.items);
      total := subtotal + doc.summary.tax + doc.summary.shipping - doc.summary.discount;
      doc := doc.(summary := doc.summary.(subtotal := subtotal, total := total));
    }
  }
}
