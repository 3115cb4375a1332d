/** backend/services/orderStatusService.js: the timed promotion of orders along
    pending, confirmed, processing, shipped, delivered, and the running flag of
    the service. The timer itself is not modelled: each run of
    `updateOrderStatuses` is one call of `UpdateOrderStatuses` with the clock
    reading of that run. */
module OrderStatusService {
  import opened Common
  import opened OrderModel
  import opened Database

  const ProgressionNote: string := "Automatic status progression"

  /** The statuses `Order.find` selects; orders in any other status are never examined. */
  predicate InProgress(s: OrderStatus) {
    s == Pending || s == Confirmed || s == Processing || s == Shipped
  }

  /** Position along the promotion chain; `Delivered` is the end of it. */
  function Rank(s: OrderStatus): (r: nat)
    requires InProgress(s) || s == Delivered
    ensures r <= 4 && (r == 4 <==> s == Delivered)
  {
    match s
    case Pending => 0
    case Confirmed => 1
    case Processing => 2
    case Shipped => 3
    case Delivered => 4
  }

  /** `Math.floor((now - createdAt) / (1000 * 60))`: whole minutes, rounded down
      also when the creation time lies in the future. */
  function MinutesElapsed(now: int, createdAt: int): (m: int)
    ensures m * 60000 <= now - createdAt < (m + 1) * 60000
  {
    (now - createdAt) / 60000
  }

  /** The if/else chain choosing the next status, `None` when nothing is due. */
  function NextStatus(current: OrderStatus, minutes: int): (r: Option<OrderStatus>)
    ensures r.Some? ==> InProgress(current) && r.value != current
  {
    if current == Pending && minutes >= 2 then Some(Confirmed)
    else if current == Confirmed && minutes >= 5 then Some(Processing)
    else if current == Processing && minutes >= 8 then Some(Shipped)
    else if current == Shipped && minutes >= 12 then Some(Delivered)
    else None
  }

  /** The minutes an order must have been open for before it leaves `s`. */
  function Threshold(s: OrderStatus): (m: int)
    requires InProgress(s)
  {
    match s
    case Pending => 2
    case Confirmed => 5
    case Processing => 8
    case Shipped => 12
  }

  /** A promotion happens exactly when the order is in progress and its age has
      reached the threshold of its status, and it always goes to the successor
      in the chain. */
  lemma NextStatusIff(current: OrderStatus, minutes: int)
    ensures NextStatus(current, minutes).Some? <==> InProgress(current) && minutes >= Threshold(current)
    ensures NextStatus(current, minutes).Some? ==>
              Rank(NextStatus(current, minutes).value) == Rank(current) + 1
  {
  }

  /** An older order is promoted whenever a younger one in the same status is, to
      the same status. */
  lemma NextStatusMonotone(current: OrderStatus, m1: int, m2: int)
    requires m1 <= m2 && NextStatus(current, m1).Some?
    ensures NextStatus(current, m2) == NextStatus(current, m1)
  {
  }

  /** One order after one run: promoted through `updateStatus` when due,
      untouched otherwise. */
  function Advanced(o: OrderDoc, now: int): (r: OrderDoc)
  {
    var next := NextStatus(o.current, MinutesElapsed(now, o.createdAt));
    if next.Some? then WithStatus(o, next.value, ProgressionNote, now) else o
  }

  /** A run moves an order at most one step, always forward, with one history
      entry carrying the progression note; the rest of the document is kept.
      Delivered, cancelled and returned orders never change. */
  lemma AdvancedOneStep(o: OrderDoc, now: int)
    ensures var r := Advanced(o, now);
      (r == o || (InProgress(o.current) && Rank(r.current) == Rank(o.current) + 1
                  && r.history == o.history + [HistoryEntry(r.current, now, ProgressionNote)]
                  && r.(current := o.current, history := o.history, tracking := o.tracking) == o))
      && (!InProgress(o.current) ==> r == o)
  {
    NextStatusIff(o.current, MinutesElapsed(now, o.createdAt));
  }

  /** A promotion does not break the order's validity and keeps its number. */
  lemma AdvancedStored(o: OrderDoc, now: int)
    requires ValidOrder(o)
    ensures ValidOrder(Advanced(o, now)) && Advanced(o, now).id == o.id
    ensures Advanced(o, now).orderNumber == o.orderNumber
  {
    var next := NextStatus(o.current, MinutesElapsed(now, o.createdAt));
    if next.Some? {
      AnyTransitionAllowed(o, o.current, next.value, ProgressionNote, now);
    }
  }

  /** Every order after one run. */
  function Progressed(orders: seq<OrderDoc>, now: int): (r: seq<OrderDoc>)
    ensures |r| == |orders| && forall i :: 0 <= i < |orders| ==> r[i] == Advanced(orders[i], now)
  {
    seq(|orders|, i requires 0 <= i < |orders| => Advanced(orders[i], now))
  }

  lemma ProgressedStored(orders: seq<OrderDoc>, now: int)
    requires OrdersStored(orders)
    ensures OrdersStored(Progressed(orders, now))
  {
    forall i | 0 <= i < |orders| ensures ValidOrder(Progressed(orders, now)[i]) {
      AdvancedStored(orders[i], now);
    }
  }

  /** An order left alone long enough is delivered after four runs, each
      recording one promotion. */
  lemma {:induction false} FourRunsDeliver(o: OrderDoc, t1: int, t2: int, t3: int, t4: int)
    requires o.current == Pending
    requires o.createdAt + 12 * 60000 <= t1 <= t2 <= t3 <= t4
    ensures var r := Advanced(Advanced(Advanced(Advanced(o, t1), t2), t3), t4);
      r.current == Delivered && |r.history| == |o.history| + 4 && r.tracking.actualDelivery == Some(t4)
  {
    var a1 := Advanced(o, t1);
    assert MinutesElapsed(t1, o.createdAt) >= 12;
    assert a1.current == Confirmed && a1.createdAt == o.createdAt;
    var a2 := Advanced(a1, t2);
    assert MinutesElapsed(t2, o.createdAt) >= 12;
    assert a2.current == Processing && a2.createdAt == o.createdAt;
    var a3 := Advanced(a2, t3);
    assert MinutesElapsed(t3, o.createdAt) >= 12;
    assert a3.current == Shipped && a3.createdAt == o.createdAt;
    assert MinutesElapsed(t4, o.createdAt) >= 12;
  }

  /** The body of the loop in `updateOrderStatuses` for one stored order: when
      a promotion is due it goes through `updateStatus` and the save; a failed
      save is caught and leaves the order as stored. */
  method Promote(stored: OrderDoc, now: nat) returns (doc: OrderDoc)
    requires ValidOrder(stored) && stored.orderNumber.Some?
    ensures doc == Advanced(stored, now)
  {
    doc := stored;
    var next := NextStatus(stored.current, MinutesElapsed(now, stored.createdAt));
    if next.Some? {
      AnyTransitionAllowed(stored, stored.current, next.value, ProgressionNote, now);
      var order := new Order.Load(stored);
      var err := order.UpdateStatus(next.value, ProgressionNote, now, 0.0);
      if err.None? {
        doc := order.doc;
      }
    }
  }

  /** `updateOrderStatuses`: one pass over the stored orders. Products, carts and
      wishlists are not touched. */
  method UpdateOrderStatuses(db: Store, now: nat)
    requires db.Valid()
    modifies db
    ensures db.State() == old(db.State()).(orders := Progressed(old(db.orders), now))
    ensures db.Valid()
  {
    ghost var before := db.orders;
    ProgressedStored(before, now);
    var k := 0;
    while k < |db.orders|
      invariant 0 <= k <= |db.orders| == |before|
      invariant db.products == old(db.products) && db.carts == old(db.carts) && db.wishlists == old(db.wishlists)
      invariant forall j :: 0 <= j < k ==> db.orders[j] == Advanced(before[j], now)
      invariant forall j :: k <= j < |db.orders| ==> db.orders[j] == before[j]
    {
      var doc := Promote(db.orders[k], now);
      db.orders := db.orders[k := doc];
      k := k + 1;
    }
    assert db.orders == Progressed(before, now);
  }

  /** The singleton service object. */
  class StatusService {
    var intervalId: Option<int>
    var isRunning: bool

    constructor ()
      ensures intervalId == None && !isRunning
    {
      intervalId := None;
      isRunning := false;
    }

    /** `start()`: a no-op while running; otherwise sets the flag, runs one
        promotion pass at once and keeps the handle of the interval timer. */
    method Start(db: Store, timer: int, now: nat)
      requires db.Valid()
      modifies this, db
      ensures old(isRunning) ==> isRunning == old(isRunning) && intervalId == old(intervalId)
                                 && db.State() == old(db.State())
      ensures !old(isRunning) ==> isRunning && intervalId == Some(timer)
                                  && db.State() == old(db.State()).(orders := Progressed(old(db.orders), now))
      ensures db.Valid()
    {
      if isRunning {
        return;
      }
      isRunning := true;
      UpdateOrderStatuses(db, now);
      intervalId := Some(timer);
    }

    /** `stop()`: clears the timer handle and the flag, whatever the state. */
    method Stop()
      modifies this
      ensures intervalId == None && !isRunning
    {
      if intervalId.Some? {
        intervalId := None;
      }
      isRunning := false;
    }

    /** `getStatus()`. */
    function Status(): (r: (bool, Option<int>))
      reads this
      ensures r.0 == isRunning && r.1 == intervalId
    {
      (isRunning, intervalId)
    }
  }
}
