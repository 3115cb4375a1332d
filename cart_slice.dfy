/** frontend/src/store/slices/cartSlice.js: the client copy of the cart and the
    reducers that edit it locally (`updateLocalCartItem`, `removeLocalCartItem`,
    `resetCart`) or settle it after the server emptied it
    (`clearCart.fulfilled`). */
module CartSlice {
  import opened Common
  import CartModel

  /** One line of the client cart: the populated product's `_id`, how many,
      the unit price and the variant selection. Two selections are the same
      when their `JSON.stringify` texts are equal; variants as the server
      returns them always list their keys in schema order, so that is equality
      of the values. */
  datatype LocalLine = LocalLine(productId: Id, quantity: int, price: real, variants: Variants)

  /** The `summary` object the cart-summary request fills. */
  datatype Summary = Summary(totalItems: int, totalPrice: real, hasItems: bool)

  const InitialSummary: Summary := Summary(0, 0.0, false)

  /** The cart a fulfilled cart request carries (`response.data.data`); a field
      that is absent or `null` is `None`. */
  datatype CartPayload = CartPayload(items: Option<seq<LocalLine>>, totalItems: Option<int>,
                                     totalPrice: Option<real>, lastUpdated: Option<int>)

  /** `action.payload.items || []`. */
  function PayloadItems(p: CartPayload): seq<LocalLine> {
    if p.items.Some? then p.items.value else []
  }

  /** `action.payload.totalItems || 0`. */
  function PayloadCount(p: CartPayload): int {
    if p.totalItems.Some? then p.totalItems.value else 0
  }

  /** `action.payload.totalPrice || 0`. */
  function PayloadPrice(p: CartPayload): real {
    if p.totalPrice.Some? then p.totalPrice.value else 0.0
  }

  /** The server's totals agree with its lines, as the cart's pre-save hook
      makes them. */
  predicate PayloadTotalled(p: CartPayload) {
    PayloadCount(p) == QuantitySum(PayloadItems(p)) && PayloadPrice(p) == PriceSum(PayloadItems(p))
  }

  /** The cart as a fulfilled request carries it: a stored cart with its
      product ids populated, each line showing its product's `_id`. */
  function PayloadOf(doc: CartModel.CartDoc): CartPayload {
    CartPayload(Some(LocalLines(doc.items)), Some(doc.totalItems), Some(doc.totalPrice), Some(doc.lastUpdated))
  }

  function LocalLines(items: seq<CartModel.CartLine>): (r: seq<LocalLine>)
    ensures |r| == |items|
  {
    if items == [] then []
    else
      var last := items[|items| - 1];
      LocalLines(items[..|items| - 1]) + [LocalLine(last.product, last.quantity, last.price, last.variants)]
  }

  /** The client sums the lines as the server's pre-save hook does. */
  lemma {:induction false} LocalLinesSums(items: seq<CartModel.CartLine>)
    ensures QuantitySum(LocalLines(items)) == CartModel.TotalItems(items)
    ensures PriceSum(LocalLines(items)) == CartModel.TotalPrice(items)
  {
    if items != [] {
      var front := LocalLines(items[..|items| - 1]);
      LocalLinesSums(items[..|items| - 1]);
      var r := LocalLines(items);
      assert r[..|r| - 1] == front;
    }
  }

  /** A stored cart reaches the client with totals that agree with its lines,
      so the fulfilled reducers keep the client's totals those of its lines. */
  lemma StoredCartPayloadTotalled(doc: CartModel.CartDoc)
    requires CartModel.Consistent(doc)
    ensures PayloadTotalled(PayloadOf(doc))
  {
    LocalLinesSums(doc.items);
  }

  /** `items.reduce((total, item) => total + item.quantity, 0)`. */
  function QuantitySum(items: seq<LocalLine>): int {
    if items == [] then 0 else QuantitySum(items[..|items| - 1]) + items[|items| - 1].quantity
  }

  /** `items.reduce((total, item) => total + item.price * item.quantity, 0)`. */
  function PriceSum(items: seq<LocalLine>): real {
    if items == [] then 0.0 else PriceSum(items[..|items| - 1]) + LineValue(items[|items| - 1])
  }

  /** What one line adds to the price. */
  function LineValue(line: LocalLine): real {
    line.price * line.quantity as real
  }

  /** The line the reducers look for. */
  predicate Matches(line: LocalLine, productId: Id, variants: Variants) {
    line.productId == productId && line.variants == variants
  }

  /** `items.findIndex(...)`: the first matching line, if any. */
  function MatchIndex(items: seq<LocalLine>, productId: Id, variants: Variants): (r: Option<nat>)
    ensures r.Some? ==> r.value < |items| && Matches(items[r.value], productId, variants)
                        && forall j :: 0 <= j < r.value ==> !Matches(items[j], productId, variants)
    ensures r.None? ==> forall j :: 0 <= j < |items| ==> !Matches(items[j], productId, variants)
  {
    if items == [] then None
    else if Matches(items[0], productId, variants) then Some(0)
    else match MatchIndex(items[1..], productId, variants)
      case None => None
      case Some(k) => Some(k + 1)
  }

  /** The lines `updateLocalCartItem` leaves: the first matching line removed
      when the quantity is not positive, otherwise given the new quantity; with
      no matching line, the lines as they were. */
  function UpdatedLines(items: seq<LocalLine>, productId: Id, quantity: int, variants: Variants): seq<LocalLine> {
    match MatchIndex(items, productId, variants)
    case None => items
    case Some(i) =>
      if quantity <= 0 then items[..i] + items[i + 1..]
      else items[i := items[i].(quantity := quantity)]
  }

  /** `items.filter(item => !(matches))`. */
  function Kept(items: seq<LocalLine>, productId: Id, variants: Variants): seq<LocalLine> {
    if items == [] then []
    else if Matches(items[|items| - 1], productId, variants) then Kept(items[..|items| - 1], productId, variants)
    else Kept(items[..|items| - 1], productId, variants) + [items[|items| - 1]]
  }

  /** The totals of a concatenation are the sums of the totals. */
  lemma {:induction false} SumsAppend(a: seq<LocalLine>, b: seq<LocalLine>)
    ensures QuantitySum(a + b) == QuantitySum(a) + QuantitySum(b)
    ensures PriceSum(a + b) == PriceSum(a) + PriceSum(b)
    decreases |b|
  {
    if b == [] {
      assert a + b == a;
    } else {
      var b' := b[..|b| - 1];
      assert (a + b)[..|a + b| - 1] == a + b';
      SumsAppend(a, b');
    }
  }

  lemma SumsOne(line: LocalLine)
    ensures QuantitySum([line]) == line.quantity && PriceSum([line]) == LineValue(line)
  {
    assert [line][..0] == [];
  }

  /** Setting the quantity of one line moves the item count by the difference
      and the price by that many units of the line's price; removing a line
      takes its share away. */
  lemma UpdatedLinesTotals(items: seq<LocalLine>, productId: Id, quantity: int, variants: Variants)
    requires MatchIndex(items, productId, variants).Some?
    ensures var i := MatchIndex(items, productId, variants).value;
      var r := UpdatedLines(items, productId, quantity, variants);
      var q := if quantity <= 0 then 0 else quantity;
      QuantitySum(r) == QuantitySum(items) - items[i].quantity + q
      && PriceSum(r) == PriceSum(items) - LineValue(items[i]) + LineValue(items[i].(quantity := q))
  {
    var i := MatchIndex(items, productId, variants).value;
    if quantity <= 0 {
      RemoveLineTotals(items, i);
    } else {
      SetLineTotals(items, i, quantity);
    }
  }

  lemma RemoveLineTotals(items: seq<LocalLine>, i: nat)
    requires i < |items|
    ensures QuantitySum(items[..i] + items[i + 1..]) == QuantitySum(items) - items[i].quantity
    ensures PriceSum(items[..i] + items[i + 1..]) == PriceSum(items) - LineValue(items[i])
  {
    var front, back := items[..i], items[i + 1..];
    var upTo := items[..i + 1];
    assert upTo == front + [items[i]];
    assert items == upTo + back;
    SumsAppend(upTo, back);
    SumsAppend(front, [items[i]]);
    SumsOne(items[i]);
    SumsAppend(front, back);
  }

  lemma SetLineTotals(items: seq<LocalLine>, i: nat, quantity: int)
    requires i < |items|
    ensures var r := items[i := items[i].(quantity := quantity)];
      QuantitySum(r) == QuantitySum(items) - items[i].quantity + quantity
      && PriceSum(r) == PriceSum(items) - LineValue(items[i]) + LineValue(items[i].(quantity := quantity))
  {
    var front, back := items[..i], items[i + 1..];
    var line' := items[i].(quantity := quantity);
    var r := items[i := line'];
    assert items[..i + 1] == front + [items[i]];
    assert items == items[..i + 1] + back;
    assert r[..i] == front && r[i + 1..] == back;
    assert r[..i + 1] == front + [line'];
    assert r == r[..i + 1] + back;
    SumsAppend(front + [items[i]], back);
    SumsAppend(front, [items[i]]);
    SumsOne(items[i]);
    SumsAppend(front + [line'], back);
    SumsAppend(front, [line']);
    SumsOne(line');
  }

  /** What `updateLocalCartItem` does to the lines: with no matching line
      nothing; otherwise only the first matching line changes, and it is
      removed exactly when the new quantity is not positive. */
  lemma UpdatedLinesEffect(items: seq<LocalLine>, productId: Id, quantity: int, variants: Variants)
    ensures var r := UpdatedLines(items, productId, quantity, variants);
      var m := MatchIndex(items, productId, variants);
      (m.None? ==> r == items)
      && (m.Some? && quantity <= 0 ==>
            |r| == |items| - 1
            && (forall j :: 0 <= j < m.value ==> r[j] == items[j])
            && (forall j :: m.value <= j < |r| ==> r[j] == items[j + 1]))
      && (m.Some? && quantity > 0 ==>
            |r| == |items| && r[m.value].quantity == quantity
            && r[m.value] == items[m.value].(quantity := quantity)
            && (forall j :: 0 <= j < |items| && j != m.value ==> r[j] == items[j]))
  {
    var r := UpdatedLines(items, productId, quantity, variants);
    var m := MatchIndex(items, productId, variants);
    if m.Some? && quantity <= 0 {
      var i := m.value;
      assert r == items[..i] + items[i + 1..];
      forall j | i <= j < |r|
        ensures r[j] == items[j + 1]
      {
        assert r[j] == items[i + 1..][j - i];
      }
    }
  }

  /** Setting the same positive quantity twice is setting it once: the edited
      line still comes first among the matching ones. */
  lemma SetQuantityIdempotent(items: seq<LocalLine>, productId: Id, quantity: int, variants: Variants)
    requires quantity > 0
    ensures var r := UpdatedLines(items, productId, quantity, variants);
      UpdatedLines(r, productId, quantity, variants) == r
  {
    var r := UpdatedLines(items, productId, quantity, variants);
    var m := MatchIndex(items, productId, variants);
    if m.Some? {
      MatchIndexIsFirst(r, productId, variants, m.value);
      assert r[m.value := r[m.value].(quantity := quantity)] == r;
    }
  }

  /** Every line `removeLocalCartItem` keeps was there and does not match, and
      every line that does not match is kept. */
  lemma {:induction false} KeptMembers(items: seq<LocalLine>, productId: Id, variants: Variants)
    ensures var r := Kept(items, productId, variants);
      |r| <= |items|
      && (forall line :: line in r <==> line in items && !Matches(line, productId, variants))
  {
    if items != [] {
      var front := items[..|items| - 1];
      KeptMembers(front, productId, variants);
      assert items == front + [items[|items| - 1]];
    }
  }

  /** The filter keeps the surviving lines in their order. */
  lemma {:induction false} KeptConcat(a: seq<LocalLine>, b: seq<LocalLine>, productId: Id, variants: Variants)
    ensures Kept(a + b, productId, variants) == Kept(a, productId, variants) + Kept(b, productId, variants)
    decreases |b|
  {
    if b == [] {
      assert a + b == a;
    } else {
      var b' := b[..|b| - 1];
      assert (a + b)[..|a + b| - 1] == a + b';
      KeptConcat(a, b', productId, variants);
    }
  }

  /** Removing a line that is not in the cart changes nothing, and removing
      twice is removing once. */
  lemma {:induction false} KeptIdempotent(items: seq<LocalLine>, productId: Id, variants: Variants)
    ensures (forall j :: 0 <= j < |items| ==> !Matches(items[j], productId, variants)) ==> Kept(items, productId, variants) == items
    ensures Kept(Kept(items, productId, variants), productId, variants) == Kept(items, productId, variants)
  {
    if items != [] {
      var front := items[..|items| - 1];
      KeptIdempotent(front, productId, variants);
      var k := Kept(front, productId, variants);
      if !Matches(items[|items| - 1], productId, variants) {
        assert (k + [items[|items| - 1]])[..|k|] == k;
      }
    }
  }

  /** Setting a quantity of 0 removes the first matching line only; when the
      cart holds at most one matching line that is what `removeLocalCartItem`
      does. */
  lemma {:induction false} UpdateToZeroRemoves(items: seq<LocalLine>, productId: Id, variants: Variants)
    requires forall i, j :: 0 <= i < j < |items| && Matches(items[i], productId, variants) ==> !Matches(items[j], productId, variants)
    ensures UpdatedLines(items, productId, 0, variants) == Kept(items, productId, variants)
  {
    match MatchIndex(items, productId, variants)
    case None =>
      KeptIdempotent(items, productId, variants);
    case Some(i) =>
      var front, back := items[..i], items[i + 1..];
      assert items[..i + 1] == front + [items[i]];
      assert items == items[..i + 1] + back;
      forall j | 0 <= j < |back|
        ensures !Matches(back[j], productId, variants)
      {
        assert back[j] == items[i + 1 + j];
      }
      KeptConcat(front + [items[i]], back, productId, variants);
      KeptConcat(front, [items[i]], productId, variants);
      KeptIdempotent(front, productId, variants);
      KeptIdempotent(back, productId, variants);
      assert Kept([items[i]], productId, variants) == [] by {
        assert [items[i]][..0] == [];
      }
  }

  /** The cart part of the client store. */
  class CartState {
    var items: seq<LocalLine>
    var totalItems: int
    var totalPrice: real
    var summary: Summary
    var isLoading: bool
    var isUpdating: bool
    var error: Option<string>
    var lastUpdated: Option<int>

    /** The totals are those of the lines. */
    predicate Totalled()
      reads this
    {
      totalItems == QuantitySum(items) && totalPrice == PriceSum(items)
    }

    /** `initialState`. */
    constructor ()
      ensures items == [] && totalItems == 0 && totalPrice == 0.0 && summary == InitialSummary
      ensures !isLoading && !isUpdating && error.None? && lastUpdated.None?
      ensures Totalled()
    {
      items, totalItems, totalPrice, summary := [], 0, 0.0, InitialSummary;
      isLoading, isUpdating, error, lastUpdated := false, false, None, None;
    }

    /** `resetCart`: no lines, zero totals, the initial summary; the loading
        flags and the error stay. */
    method ResetCart()
      modifies this
      ensures items == [] && totalItems == 0 && totalPrice == 0.0 && summary == InitialSummary
      ensures lastUpdated.None?
      ensures isLoading == old(isLoading) && isUpdating == old(isUpdating) && error == old(error)
      ensures Totalled()
    {
      items := [];
      totalItems := 0;
      totalPrice := 0.0;
      summary := InitialSummary;
      lastUpdated := None;
    }

    /** `clearCart.fulfilled`: the server emptied the cart. */
    method ClearCartFulfilled()
      modifies this
      ensures items == [] && totalItems == 0 && totalPrice == 0.0 && lastUpdated.None?
      ensures !isUpdating && error.None?
      ensures summary == old(summary) && isLoading == old(isLoading)
      ensures Totalled()
    {
      isUpdating := false;
      items := [];
      totalItems := 0;
      totalPrice := 0.0;
      lastUpdated := None;
      error := None;
    }

    /** `fetchCart.pending`. */
    method FetchCartPending()
      modifies this
      ensures isLoading && error.None?
      ensures items == old(items) && totalItems == old(totalItems) && totalPrice == old(totalPrice)
      ensures summary == old(summary) && isUpdating == old(isUpdating) && lastUpdated == old(lastUpdated)
    {
      isLoading := true;
      error := None;
    }

    /** `fetchCart.fulfilled`: the lines, totals and update time of the
        server's cart replace the local ones. */
    method FetchCartFulfilled(payload: CartPayload)
      modifies this
      ensures items == PayloadItems(payload) && totalItems == PayloadCount(payload)
      ensures totalPrice == PayloadPrice(payload) && lastUpdated == payload.lastUpdated
      ensures !isLoading && error.None?
      ensures summary == old(summary) && isUpdating == old(isUpdating)
      ensures PayloadTotalled(payload) ==> Totalled()
    {
      isLoading := false;
      Receive(payload);
      error := None;
    }

    /** `fetchCart.rejected`: the message passed to `rejectWithValue`. */
    method FetchCartRejected(message: string)
      modifies this
      ensures !isLoading && error == Some(message)
      ensures items == old(items) && totalItems == old(totalItems) && totalPrice == old(totalPrice)
      ensures summary == old(summary) && isUpdating == old(isUpdating) && lastUpdated == old(lastUpdated)
    {
      isLoading := false;
      error := Some(message);
    }

    /** `addToCart.pending`, `updateCartItem.pending`, `removeFromCart.pending`
        and `clearCart.pending`, which are the same. */
    method UpdatePending()
      modifies this
      ensures isUpdating && error.None?
      ensures items == old(items) && totalItems == old(totalItems) && totalPrice == old(totalPrice)
      ensures summary == old(summary) && isLoading == old(isLoading) && lastUpdated == old(lastUpdated)
    {
      isUpdating := true;
      error := None;
    }

    /** `addToCart.fulfilled`, `updateCartItem.fulfilled` and
        `removeFromCart.fulfilled`, which are the same: the server's cart
        replaces the local lines, totals and update time. */
    method UpdateFulfilled(payload: CartPayload)
      modifies this
      ensures items == PayloadItems(payload) && totalItems == PayloadCount(payload)
      ensures totalPrice == PayloadPrice(payload) && lastUpdated == payload.lastUpdated
      ensures !isUpdating && error.None?
      ensures summary == old(summary) && isLoading == old(isLoading)
      ensures PayloadTotalled(payload) ==> Totalled()
    {
      isUpdating := false;
      Receive(payload);
      error := None;
    }

    /** The `.rejected` case of the four updating requests. */
    method UpdateRejected(message: string)
      modifies this
      ensures !isUpdating && error == Some(message)
      ensures items == old(items) && totalItems == old(totalItems) && totalPrice == old(totalPrice)
      ensures summary == old(summary) && isLoading == old(isLoading) && lastUpdated == old(lastUpdated)
    {
      isUpdating := false;
      error := Some(message);
    }

    /** `syncCart.fulfilled`: the server's cart replaces the local lines, totals
        and update time; the flags and the error are not touched. */
    method SyncCartFulfilled(payload: CartPayload)
      modifies this
      ensures items == PayloadItems(payload) && totalItems == PayloadCount(payload)
      ensures totalPrice == PayloadPrice(payload) && lastUpdated == payload.lastUpdated
      ensures summary == old(summary) && isLoading == old(isLoading) && isUpdating == old(isUpdating)
      ensures error == old(error)
      ensures PayloadTotalled(payload) ==> Totalled()
    {
      Receive(payload);
    }

    /** `fetchCartSummary.fulfilled`: the summary is replaced, nothing else. */
    method FetchCartSummaryFulfilled(payload: Summary)
      modifies this
      ensures summary == payload
      ensures items == old(items) && totalItems == old(totalItems) && totalPrice == old(totalPrice)
      ensures isLoading == old(isLoading) && isUpdating == old(isUpdating) && error == old(error)
      ensures lastUpdated == old(lastUpdated)
    {
      summary := payload;
    }

    /** The four assignments the fulfilled cases share. */
    method Receive(payload: CartPayload)
      modifies this
      ensures items == PayloadItems(payload) && totalItems == PayloadCount(payload)
      ensures totalPrice == PayloadPrice(payload) && lastUpdated == payload.lastUpdated
      ensures summary == old(summary) && isLoading == old(isLoading) && isUpdating == old(isUpdating)
      ensures error == old(error)
    {
      items := if payload.items.Some? then payload.items.value else [];
      totalItems := if payload.totalItems.Some? then payload.totalItems.value else 0;
      totalPrice := if payload.totalPrice.Some? then payload.totalPrice.value else 0.0;
      lastUpdated := payload.lastUpdated;
    }

    /** `updateLocalCartItem`: edit the first matching line and recompute both
        totals; with no matching line the state is left exactly as it was,
        totals included. */
    method UpdateLocalCartItem(productId: Id, quantity: int, variants: Variants)
      modifies this
      ensures items == UpdatedLines(old(items), productId, quantity, variants)
      ensures MatchIndex(old(items), productId, variants).None? ==>
                totalItems == old(totalItems) && totalPrice == old(totalPrice)
      ensures MatchIndex(old(items), productId, variants).Some? ==> Totalled()
      ensures old(Totalled()) ==> Totalled()
      ensures summary == old(summary) && isLoading == old(isLoading) && isUpdating == old(isUpdating)
      ensures error == old(error) && lastUpdated == old(lastUpdated)
    {
      var found, edited, count, price := EditLines(items, productId, quantity, variants);
      if found {
        items, totalItems, totalPrice := edited, count, price;
      }
    }

    /** `removeLocalCartItem`: drop every matching line, keep the others in
        order, and recompute both totals. */
    method RemoveLocalCartItem(productId: Id, variants: Variants)
      modifies this
      ensures items == Kept(old(items), productId, variants)
      ensures Totalled()
      ensures summary == old(summary) && isLoading == old(isLoading) && isUpdating == old(isUpdating)
      ensures error == old(error) && lastUpdated == old(lastUpdated)
    {
      var kept: seq<LocalLine> := [];
      var k := 0;
      while k < |items|
        invariant 0 <= k <= |items|
        invariant kept == Kept(items[..k], productId, variants)
      {
        assert items[..k + 1][..k] == items[..k];
        if !Matches(items[k], productId, variants) {
          kept := kept + [items[k]];
        }
        k := k + 1;
      }
      assert items[..k] == items;
      items := kept;
      totalItems := SumQuantities(items);
      totalPrice := SumPrices(items);
    }
  }

  /** The body of `updateLocalCartItem` on the lines alone: find the first
      matching line, splice it out or set its quantity, and sum the totals
      of what is left. */
  method EditLines(items: seq<LocalLine>, productId: Id, quantity: int, variants: Variants)
    returns (found: bool, edited: seq<LocalLine>, count: int, price: real)
    ensures found <==> MatchIndex(items, productId, variants).Some?
    ensures edited == UpdatedLines(items, productId, quantity, variants)
    ensures found ==> count == QuantitySum(edited) && price == PriceSum(edited)
  {
    var index := FindIndex(items, productId, variants);
    found := index != -1;
    edited, count, price := items, 0, 0.0;
    if found {
      if quantity <= 0 {
        edited := items[..index] + items[index + 1..];
      } else {
        edited := items[index := items[index].(quantity := quantity)];
      }
      count := SumQuantities(edited);
      price := SumPrices(edited);
    }
  }

  /** `findIndex`: the index of the first matching line, or -1. */
  method FindIndex(items: seq<LocalLine>, productId: Id, variants: Variants) returns (index: int)
    ensures MatchIndex(items, productId, variants).None? <==> index == -1
    ensures MatchIndex(items, productId, variants).Some? ==> index == MatchIndex(items, productId, variants).value
  {
    var k := 0;
    while k < |items|
      invariant 0 <= k <= |items|
      invariant forall j :: 0 <= j < k ==> !Matches(items[j], productId, variants)
    {
      if Matches(items[k], productId, variants) {
        MatchIndexIsFirst(items, productId, variants, k);
        return k;
      }
      k := k + 1;
    }
    return -1;
  }

  /** The first matching index is the one `MatchIndex` names. */
  lemma MatchIndexIsFirst(items: seq<LocalLine>, productId: Id, variants: Variants, k: nat)
    requires k < |items| && Matches(items[k], productId, variants)
    requires forall j :: 0 <= j < k ==> !Matches(items[j], productId, variants)
    ensures MatchIndex(items, productId, variants) == Some(k)
  {
  }

  /** The item-count reduce. */
  method SumQuantities(items: seq<LocalLine>) returns (total: int)
    ensures total == QuantitySum(items)
  {
    total := 0;
    var k := 0;
    while k < |items|
      invariant 0 <= k <= |items|
      invariant total == QuantitySum(items[..k])
    {
      assert items[..k + 1][..k] == items[..k];
      total := total + items[k].quantity;
      k := k + 1;
    }
    assert items[..k] == items;
  }

  /** The price reduce. */
  method SumPrices(items: seq<LocalLine>) returns (total: real)
    ensures total == PriceSum(items)
  {
    total := 0.0;
    var k := 0;
    while k < |items|
      invariant 0 <= k <= |items|
      invariant total == PriceSum(items[..k])
    {
      assert items[..k + 1][..k] == items[..k];
      total := total + items[k].price * items[k].quantity as real;
      k := k + 1;
    }
    assert items[..k] == items;
  }
}
