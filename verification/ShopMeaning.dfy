/** What the shop's answers mean, read off the columns of the three tables. */
module ShopMeaning {
  import opened Text
  import opened Sums
  import opened Money
  import opened ShopTables
  import opened ShopInvariants

  // ----- the allowance -----

  /** Quantities of item `i` in `user`'s pending, confirmed and fulfilled orders of the event or of none. */
  ghost function CountedRows(db: Db, user: string, event: string, i: ItemId): map<OrderId, int> {
    map o | o in db.orders && (o, i) in db.lines && db.orders[o].user == user
      && (db.orders[o].event == None || db.orders[o].event == Some(event))
      && db.orders[o].status in {Pending, Confirmed, Fulfilled} :: db.lines[(o, i)].quantity
  }

  ghost function Counted(db: Db, user: string, event: string, i: ItemId): int {
    Total(CountedRows(db, user, event, i))
  }

  lemma PurchasedIsCounted(db: Db, user: string, event: string, i: ItemId)
    ensures Purchased(db, user, event, i) == Counted(db, user, event, i)
  {
    TotalDropZeros(PurchasedRows(db, user, event, i), CountedRows(db, user, event, i));
  }

  lemma ReleasedRow(db: Db, done: set<OrderId>, final: Status, o: OrderId)
    ensures var db' := Release(db, done, final);
      db'.lines == db.lines && (o in db'.orders <==> o in db.orders) &&
      (o in db.orders ==> db'.orders[o] == if o in done then db.orders[o].(status := final) else db.orders[o])
  {}

  /** Orders that expired or failed no longer count: what is left is the sum over the other ones. */
  lemma PurchasedWithoutReleased(db: Db, done: set<OrderId>, final: Status, user: string, event: string, i: ItemId)
    requires AllHolding(db, done) && final in {Expired, Failed}
    ensures Purchased(Release(db, done, final), user, event, i) == Total(CountedRows(db, user, event, i) - done)
  {
    PurchasedIsCounted(Release(db, done, final), user, event, i);
    var left, rows := CountedRows(Release(db, done, final), user, event, i), CountedRows(db, user, event, i) - done;
    forall o ensures o in left <==> o in rows { ReleasedRow(db, done, final, o); }
    assert left == rows;
  }

  // ----- answers of Checkout -----

  predicate OnSale(db: Db, event: string, i: ItemId) {
    i in db.items && db.items[i].visible && (db.items[i].event == None || db.items[i].event == Some(event))
  }

  /** Line `want` can be bought: on sale, in stock, and within the buyer's allowance if the item has one. */
  ghost predicate Buyable(db: Db, p: CheckoutParams, want: CartLine) {
    && OnSale(db, p.event, want.id)
    && want.quantity <= db.items[want.id].stock
    && (db.items[want.id].maxPerUser.Some? && 0 < db.items[want.id].maxPerUser.value ==>
      Counted(db, p.user, p.event, want.id) + want.quantity <= db.items[want.id].maxPerUser.value)
  }

  ghost predicate Refuses(db: Db, p: CheckoutParams, want: CartLine, e: CheckoutError) {
    match e
    case ItemUnavailable(i) => i == want.id && !OnSale(db, p.event, i)
    case StockShortfall(i, available) =>
      i == want.id && OnSale(db, p.event, i) && available == db.items[i].stock < want.quantity
    case PerUserLimit(i, limit, purchased) =>
      && i == want.id && OnSale(db, p.event, i) && want.quantity <= db.items[i].stock
      && db.items[i].maxPerUser == Some(limit) && 0 < limit
      && purchased == Counted(db, p.user, p.event, i) && limit < purchased + want.quantity
    case _ => false
  }

  /** Line `n` is the first that cannot be bought, and `e` says why. */
  ghost predicate FirstRefused(db: Db, p: CheckoutParams, n: int, e: CheckoutError) {
    0 <= n < |p.cart| && (forall m :: 0 <= m < n ==> Buyable(db, p, p.cart[m])) && Refuses(db, p, p.cart[n], e)
  }

  ghost predicate AllBuyable(db: Db, p: CheckoutParams) {
    forall n :: 0 <= n < |p.cart| ==> Buyable(db, p, p.cart[n])
  }

  /** What a new checkout's answer says about the tables it met. */
  ghost predicate Explained(db: Db, p: CheckoutParams, r: CheckoutOutcome) {
    match r
    case Placed(o, total) =>
      o == p.orderId && AllBuyable(db, p) && Stocked(db.items, p.cart) && total == CartTotal(db.items, p.cart)
      && total < 10_000_000_000
    case Rejected(TotalOutOfRange) =>
      AllBuyable(db, p) && Stocked(db.items, p.cart) && 10_000_000_000 <= CartTotal(db.items, p.cart)
    case Rejected(e) => exists n :: FirstRefused(db, p, n, e)
  }

  lemma LineFaultMeans(db: Db, p: CheckoutParams, want: CartLine)
    ensures LineFault(db, p, want).None? <==> Buyable(db, p, want)
    ensures LineFault(db, p, want).Some? ==> Refuses(db, p, want, LineFault(db, p, want).value)
  {
    PurchasedIsCounted(db, p.user, p.event, want.id);
  }

  lemma {:induction false} FaultAt(db: Db, p: CheckoutParams, n: nat) returns (m: nat)
    requires n <= |p.cart| && FirstFault(db, p, p.cart[..n]).Some?
    ensures m < n && FirstFault(db, p, p.cart[..m]).None?
    ensures LineFault(db, p, p.cart[m]) == FirstFault(db, p, p.cart[..n])
  {
    assert p.cart[..n][..n - 1] == p.cart[..n - 1];
    m := n - 1;
    if FirstFault(db, p, p.cart[..m]).Some? { m := FaultAt(db, p, m); }
  }

  lemma BuyableBefore(db: Db, p: CheckoutParams, n: nat)
    requires n <= |p.cart| && FirstFault(db, p, p.cart[..n]).None?
    ensures forall m :: 0 <= m < n ==> Buyable(db, p, p.cart[m])
  {
    FaultFree(db, p, p.cart[..n]);
    forall m | 0 <= m < n ensures Buyable(db, p, p.cart[m]) {
      assert p.cart[..n][m] == p.cart[m];
      LineFaultMeans(db, p, p.cart[m]);
    }
  }

  lemma FirstFaultMeans(db: Db, p: CheckoutParams)
    ensures FirstFault(db, p, p.cart).None? ==> AllBuyable(db, p)
    ensures FirstFault(db, p, p.cart).Some? ==> exists n :: FirstRefused(db, p, n, FirstFault(db, p, p.cart).value)
  {
    assert p.cart[..|p.cart|] == p.cart;
    if FirstFault(db, p, p.cart).None? {
      BuyableBefore(db, p, |p.cart|);
    } else {
      var n := FaultAt(db, p, |p.cart|);
      BuyableBefore(db, p, n);
      LineFaultMeans(db, p, p.cart[n]);
      assert FirstRefused(db, p, n, FirstFault(db, p, p.cart).value);
    }
  }

  /**
   * The answer to a new checkout, as the tables' own columns explain it: placed exactly when every line can be
   * bought and the total fits, and otherwise refused for the first line that cannot.
   */
  lemma AnswerIsExplained(db: Db, p: CheckoutParams, r: CheckoutOutcome)
    requires ValidCart(p.cart) && p.orderId !in db.orders && !KeyTaken(db, p.user, p.key)
    requires Placeable(db, p) ==> Stocked(db.items, p.cart) && r == Placed(p.orderId, CartTotal(db.items, p.cart))
    requires !Placeable(db, p) ==>
      r == Rejected(if FirstFault(db, p, p.cart).Some? then FirstFault(db, p, p.cart).value else TotalOutOfRange)
    ensures Explained(db, p, r)
  {
    FirstFaultMeans(db, p);
    if FirstFault(db, p, p.cart).None? { PlaceableFacts(db, p); }
  }

  // ----- what a placed order leaves in the tables -----

  ghost predicate OrderBooked(db: Db, p: CheckoutParams, total: int, orders: map<OrderId, Order>) {
    orders == db.orders[p.orderId :=
      Order(p.user, Some(p.event), Pending, None, total, if p.key == "" then None else Some(p.key), p.now)]
  }

  predicate InCart(p: CheckoutParams, i: ItemId) { exists n :: 0 <= n < |p.cart| && p.cart[n].id == i }

  /** One line for each line of the cart, at today's price. */
  ghost predicate LinesBooked(db: Db, p: CheckoutParams, lines: map<LineKey, Line>)
    requires Stocked(db.items, p.cart)
  {
    && (forall k :: k in lines <==> k in db.lines || (k.0 == p.orderId && InCart(p, k.1)))
    && (forall k :: k in db.lines ==> lines[k] == db.lines[k])
    && (forall n :: 0 <= n < |p.cart| ==>
          lines[(p.orderId, p.cart[n].id)] == Line(p.cart[n].quantity, db.items[p.cart[n].id].price))
  }

  /** The stock of each item less what the cart takes of it. */
  ghost predicate StockBooked(db: Db, p: CheckoutParams, items: map<ItemId, Item>)
    requires Stocked(db.items, p.cart)
  {
    && items.Keys == db.items.Keys
    && (forall i :: i in db.items && !InCart(p, i) ==> items[i] == db.items[i])
    && (forall n :: 0 <= n < |p.cart| ==>
          items[p.cart[n].id] == Lowered(db.items[p.cart[n].id], p.cart[n].quantity))
  }

  function Lowered(item: Item, units: int): Item { item.(stock := item.stock - units) }

  lemma CartLineAt(p: CheckoutParams, n: nat)
    requires Distinct(p.cart) && n < |p.cart|
    ensures p.cart[n].id in CartIds(p.cart) && QtyIn(p.cart, p.cart[n].id) == p.cart[n].quantity
  {
    CartIdsAre(p.cart, p.cart[n].id);
    QtyInAt(p.cart, n);
  }

  lemma LinesOfPlaced(db: Db, p: CheckoutParams)
    requires Distinct(p.cart) && Stocked(db.items, p.cart) && LinesLinked(db) && p.orderId !in db.orders
    ensures LinesBooked(db, p, PlaceOrder(db, p).lines)
  {
    var added := NewLines(p.orderId, db.items, p.cart);
    CartWrites(p.orderId, db.items, p.cart);
    forall i ensures i in CartIds(p.cart) <==> InCart(p, i) { CartIdsAre(p.cart, i); }
    assert forall k :: k in added ==> k !in db.lines;
    forall n | 0 <= n < |p.cart|
      ensures added[(p.orderId, p.cart[n].id)] == Line(p.cart[n].quantity, db.items[p.cart[n].id].price)
    {
      CartLineAt(p, n);
    }
  }

  lemma StockAt(db: Db, p: CheckoutParams, i: ItemId)
    requires Distinct(p.cart) && Stocked(db.items, p.cart) && i in db.items
    ensures i in PlaceOrder(db, p).items
    ensures i in CartIds(p.cart) ==> PlaceOrder(db, p).items[i] == Lowered(db.items[i], QtyIn(p.cart, i))
    ensures i !in CartIds(p.cart) ==> PlaceOrder(db, p).items[i] == db.items[i]
  {
    CartWrites(p.orderId, db.items, p.cart);
  }

  lemma StockOfPlaced(db: Db, p: CheckoutParams)
    requires Distinct(p.cart) && Stocked(db.items, p.cart)
    ensures StockBooked(db, p, PlaceOrder(db, p).items)
  {
    PlaceKeepsItems(db, p);
    forall i | i in db.items && !InCart(p, i) ensures PlaceOrder(db, p).items[i] == db.items[i] {
      CartIdsAre(p.cart, i);
      StockAt(db, p, i);
    }
    forall n | 0 <= n < |p.cart|
      ensures PlaceOrder(db, p).items[p.cart[n].id] == Lowered(db.items[p.cart[n].id], p.cart[n].quantity)
    {
      CartLineAt(p, n);
      StockAt(db, p, p.cart[n].id);
    }
  }

  ghost predicate Booked(db: Db, p: CheckoutParams, total: int, db': Db) {
    Stocked(db.items, p.cart) && OrderBooked(db, p, total, db'.orders)
    && LinesBooked(db, p, db'.lines) && StockBooked(db, p, db'.items)
  }

  /** Placing an order writes its row, a line for each line of the cart and the reduced stock, and nothing else. */
  lemma PlacedIsBooked(db: Db, p: CheckoutParams)
    requires Distinct(p.cart) && Stocked(db.items, p.cart) && LinesLinked(db) && p.orderId !in db.orders
    ensures Booked(db, p, CartTotal(db.items, p.cart), PlaceOrder(db, p))
  {
    LinesOfPlaced(db, p);
    StockOfPlaced(db, p);
  }

  // ----- what a confirmation needs -----

  /** The caller's own pending order, a hash no order has, and a transfer to the wallet worth the total. */
  ghost predicate Settles(env: Env, db: Db, c: ConfirmParams) {
    && c.orderId in db.orders && db.orders[c.orderId].user == c.user && db.orders[c.orderId].status == Pending
    && (forall o :: o in db.orders ==> db.orders[o].hash != Some(c.hash))
    && ReachedWallet(env, env.chain(c.hash), db.orders[c.orderId].total)
  }

  lemma ConfirmableMeans(env: Env, db: Db, c: ConfirmParams)
    requires Rounding(env.fl) && OrdersSound(env, db)
    ensures Confirmable(env, db, c) <==> Settles(env, db, c)
  {
    if c.orderId in db.orders {
      assert OrderPaid(env, db.orders[c.orderId]);
      AcceptedMeans(env, c.hash, db.orders[c.orderId].total);
    }
  }

  // ----- what a sweep does -----

  /** Units of item `i` on the lines of these orders. */
  ghost function UnitsOn(lines: map<LineKey, Line>, done: set<OrderId>, i: ItemId): int {
    Total(map o | o in done && (o, i) in lines :: lines[(o, i)].quantity)
  }

  /** The orders in `done` are expired, each item has their units of it back, and nothing else has changed. */
  ghost predicate Reverted(db: Db, done: set<OrderId>, db': Db) {
    && db'.lines == db.lines && db'.orders.Keys == db.orders.Keys && db'.items.Keys == db.items.Keys
    && (forall o :: o in db.orders ==> db'.orders[o] == WithStatus(db, done, o))
    && (forall i :: i in db.items ==> db'.items[i] == GivenBack(db, done, i))
  }

  function WithStatus(db: Db, done: set<OrderId>, o: OrderId): Order
    requires o in db.orders
  {
    if o in done then db.orders[o].(status := Expired) else db.orders[o]
  }

  ghost function GivenBack(db: Db, done: set<OrderId>, i: ItemId): Item
    requires i in db.items
  {
    db.items[i].(stock := db.items[i].stock + UnitsOn(db.lines, done, i))
  }

  lemma ReturnedIsUnits(lines: map<LineKey, Line>, done: set<OrderId>, i: ItemId)
    ensures Returned(lines, done, i) == UnitsOn(lines, done, i)
  {
    var units := map o | o in done && (o, i) in lines :: lines[(o, i)].quantity;
    TotalDropZeros(ReturnedRows(lines, done, i), units);
  }

  lemma ReleasedOrders(db: Db, done: set<OrderId>)
    ensures Release(db, done, Expired).orders.Keys == db.orders.Keys
    ensures forall o :: o in db.orders ==> Release(db, done, Expired).orders[o] == WithStatus(db, done, o)
  {}

  lemma ReleasedItem(db: Db, done: set<OrderId>, i: ItemId)
    requires i in db.items
    ensures i in Release(db, done, Expired).items && Release(db, done, Expired).items[i] == GivenBack(db, done, i)
  {
    ReturnedIsUnits(db.lines, done, i);
  }

  lemma ReleasedItems(db: Db, done: set<OrderId>)
    ensures Release(db, done, Expired).items.Keys == db.items.Keys
    ensures forall i :: i in db.items ==> Release(db, done, Expired).items[i] == GivenBack(db, done, i)
  {
    forall i | i in db.items
      ensures i in Release(db, done, Expired).items && Release(db, done, Expired).items[i] == GivenBack(db, done, i)
    {
      ReleasedItem(db, done, i);
    }
  }

  lemma ReleaseMeans(db: Db, done: set<OrderId>)
    requires done <= db.orders.Keys
    ensures Reverted(db, done, Release(db, done, Expired))
  {
    ReleasedOrders(db, done);
    ReleasedItems(db, done);
  }
}
