/** Every operation on the shop tables keeps them sound. */
module ShopInvariants {
  import opened Text
  import opened Sums
  import opened Money
  import opened ShopTables

  // ----- carts -----

  lemma {:induction false} FaultFree(db: Db, p: CheckoutParams, cart: seq<CartLine>)
    ensures FirstFault(db, p, cart).None? <==> forall n :: 0 <= n < |cart| ==> LineFault(db, p, cart[n]).None?
  {
    if cart == [] {
    } else {
      var k := |cart| - 1;
      FaultFree(db, p, cart[..k]);
      forall n | 0 <= n < k ensures cart[..k][n] == cart[n] {}
    }
  }

  lemma {:induction false} FirstFaultStays(db: Db, p: CheckoutParams, n: nat)
    requires n < |p.cart| && FirstFault(db, p, p.cart[..n]).None?
    ensures LineFault(db, p, p.cart[n]).Some? ==> FirstFault(db, p, p.cart) == LineFault(db, p, p.cart[n])
    ensures FirstFault(db, p, p.cart[..n + 1]) == LineFault(db, p, p.cart[n])
  {
    assert p.cart[..n + 1][..n] == p.cart[..n];
    if LineFault(db, p, p.cart[n]).Some? { LongerCartSameFault(db, p, n + 1, |p.cart|); }
    assert p.cart[..|p.cart|] == p.cart;
  }

  lemma {:induction false} LongerCartSameFault(db: Db, p: CheckoutParams, m: nat, n: nat)
    requires m <= n <= |p.cart| && FirstFault(db, p, p.cart[..m]).Some?
    ensures FirstFault(db, p, p.cart[..n]) == FirstFault(db, p, p.cart[..m])
    decreases n
  {
    if m == n {
    } else {
      LongerCartSameFault(db, p, m, n - 1);
      assert p.cart[..n][..n - 1] == p.cart[..n - 1];
    }
  }

  lemma {:induction false} CartIdsAre(cart: seq<CartLine>, i: ItemId)
    ensures i in CartIds(cart) <==> exists n :: 0 <= n < |cart| && cart[n].id == i
  {
    if cart == [] {
    } else {
      var k := |cart| - 1;
      CartIdsAre(cart[..k], i);
      if n :| 0 <= n < |cart| && cart[n].id == i {
        if n < k { assert cart[..k][n].id == i; }
      }
    }
  }

  lemma LastIsNew(cart: seq<CartLine>)
    requires Distinct(cart) && cart != []
    ensures Distinct(cart[..|cart| - 1])
    ensures cart[|cart| - 1].id !in CartIds(cart[..|cart| - 1])
  {
    CartIdsAre(cart[..|cart| - 1], cart[|cart| - 1].id);
  }

  lemma {:induction false} QtyInAbsent(cart: seq<CartLine>, i: ItemId)
    requires i !in CartIds(cart)
    ensures QtyIn(cart, i) == 0
  {
    if cart == [] {
    } else {
      QtyInAbsent(cart[..|cart| - 1], i);
    }
  }

  /** A cart without duplicate lines takes of each item exactly what its line says. */
  lemma {:induction false} QtyInAt(cart: seq<CartLine>, n: nat)
    requires n < |cart| && Distinct(cart)
    ensures QtyIn(cart, cart[n].id) == cart[n].quantity
  {
    var k := |cart| - 1;
    LastIsNew(cart);
    if n == k {
      QtyInAbsent(cart[..k], cart[n].id);
    } else {
      assert cart[..k][n] == cart[n];
      QtyInAt(cart[..k], n);
    }
  }

  lemma QtyInBounds(cart: seq<CartLine>, i: ItemId)
    requires ValidCart(cart)
    ensures i in CartIds(cart) ==> exists n :: 0 <= n < |cart| && cart[n].id == i && QtyIn(cart, i) == cart[n].quantity
    ensures i !in CartIds(cart) ==> QtyIn(cart, i) == 0
    ensures QtyIn(cart, i) >= if i in CartIds(cart) then 1 else 0
  {
    CartIdsAre(cart, i);
    if i in CartIds(cart) {
      var n :| 0 <= n < |cart| && cart[n].id == i;
      QtyInAt(cart, n);
    } else {
      QtyInAbsent(cart, i);
    }
  }

  /** The rows a cart writes: its items, each less what the cart takes, and one line per item. */
  lemma {:induction false} CartWrites(orderId: OrderId, items: map<ItemId, Item>, cart: seq<CartLine>)
    requires Stocked(items, cart) && Distinct(cart)
    ensures TakenItems(items, cart).Keys == CartIds(cart) <= items.Keys
    ensures forall i :: i in CartIds(cart) ==>
      TakenItems(items, cart)[i] == items[i].(stock := items[i].stock - QtyIn(cart, i))
    ensures forall k :: k in NewLines(orderId, items, cart) <==> k.0 == orderId && k.1 in CartIds(cart)
    ensures forall i :: i in CartIds(cart) ==>
      NewLines(orderId, items, cart)[(orderId, i)] == Line(QtyIn(cart, i), items[i].price)
  {
    if cart == [] {
    } else {
      LastIsNew(cart);
      CartWrites(orderId, items, cart[..|cart| - 1]);
      QtyInAbsent(cart[..|cart| - 1], cart[|cart| - 1].id);
    }
  }

  lemma PlaceableFacts(db: Db, p: CheckoutParams)
    requires ValidCart(p.cart) && FirstFault(db, p, p.cart).None?
    ensures Stocked(db.items, p.cart)
    ensures forall n :: 0 <= n < |p.cart| ==> LineFault(db, p, p.cart[n]).None?
  {
    FaultFree(db, p, p.cart);
  }

  // ----- placing an order -----

  lemma QtyAfterPlace(db: Db, p: CheckoutParams, o: OrderId, i: ItemId)
    requires Distinct(p.cart) && Stocked(db.items, p.cart)
    requires LinesLinked(db) && p.orderId !in db.orders
    ensures Qty(PlaceOrder(db, p).lines, o, i) == if o == p.orderId then QtyIn(p.cart, i) else Qty(db.lines, o, i)
  {
    CartWrites(p.orderId, db.items, p.cart);
    if i !in CartIds(p.cart) { QtyInAbsent(p.cart, i); }
  }

  lemma HeldAfterPlace(db: Db, p: CheckoutParams, i: ItemId)
    requires Distinct(p.cart) && Stocked(db.items, p.cart)
    requires LinesLinked(db) && p.orderId !in db.orders
    ensures Held(PlaceOrder(db, p), i) == Held(db, i) + QtyIn(p.cart, i)
  {
    var db' := PlaceOrder(db, p);
    forall o | o in db'.orders
      ensures HeldRows(db', i)[o] == HeldRows(db, i)[p.orderId := QtyIn(p.cart, i)][o]
    {
      QtyAfterPlace(db, p, o, i);
    }
    assert HeldRows(db', i) == HeldRows(db, i)[p.orderId := QtyIn(p.cart, i)];
    TotalUpdate(HeldRows(db, i), p.orderId, QtyIn(p.cart, i));
  }

  lemma PurchasedAfterPlace(db: Db, p: CheckoutParams, user: string, event: string, i: ItemId)
    requires Distinct(p.cart) && Stocked(db.items, p.cart)
    requires LinesLinked(db) && p.orderId !in db.orders
    ensures Purchased(PlaceOrder(db, p), user, event, i) ==
      Purchased(db, user, event, i) + if user == p.user && event == p.event then QtyIn(p.cart, i) else 0
  {
    var q := if user == p.user && event == p.event then QtyIn(p.cart, i) else 0;
    var rows, rows' := PurchasedRows(db, user, event, i), PurchasedRows(PlaceOrder(db, p), user, event, i);
    assert rows'.Keys == rows[p.orderId := q].Keys;
    forall o | o in rows' ensures rows'[o] == rows[p.orderId := q][o] {
      QtyAfterPlace(db, p, o, i);
    }
    assert rows' == rows[p.orderId := q];
    TotalUpdate(rows, p.orderId, q);
  }

  /** The lines written for a cart add up to the total computed for it. */
  lemma {:induction false} CartLinesTotal(orderId: OrderId, items: map<ItemId, Item>, cart: seq<CartLine>)
    requires Stocked(items, cart) && Distinct(cart)
    ensures LineTotal(NewLines(orderId, items, cart), orderId) == CartTotal(items, cart)
  {
    var rows := LineRows(NewLines(orderId, items, cart), orderId);
    if cart == [] {
      assert rows == map[];
    } else {
      var init, last := cart[..|cart| - 1], cart[|cart| - 1];
      var before := LineRows(NewLines(orderId, items, init), orderId);
      LastIsNew(cart);
      CartWrites(orderId, items, init);
      CartLinesTotal(orderId, items, init);
      var v := last.quantity * items[last.id].price;
      assert rows == before[(orderId, last.id) := v];
      TotalUpdate(before, (orderId, last.id), v);
    }
  }

  lemma LineTotalAfterPlace(db: Db, p: CheckoutParams, o: OrderId)
    requires Distinct(p.cart) && Stocked(db.items, p.cart)
    requires LinesLinked(db) && p.orderId !in db.orders
    ensures LineTotal(PlaceOrder(db, p).lines, o) ==
      if o == p.orderId then CartTotal(db.items, p.cart) else LineTotal(db.lines, o)
  {
    var added := NewLines(p.orderId, db.items, p.cart);
    CartWrites(p.orderId, db.items, p.cart);
    assert forall k :: k in added ==> k.0 == p.orderId;
    LineTotalOfUnion(db.lines, added, p.orderId, o);
    CartLinesTotal(p.orderId, db.items, p.cart);
  }

  lemma LineTotalOfUnion(lines: map<LineKey, Line>, added: map<LineKey, Line>, own: OrderId, o: OrderId)
    requires forall k :: k in added ==> k.0 == own
    requires forall k :: k in lines ==> k.0 != own
    ensures LineTotal(lines + added, o) == if o == own then LineTotal(added, o) else LineTotal(lines, o)
  {
    if o == own {
      assert LineRows(lines + added, o) == LineRows(added, o);
    } else {
      assert LineRows(lines + added, o) == LineRows(lines, o);
    }
  }

  lemma OrdersAfterPlace(env: Env, db: Db, p: CheckoutParams)
    requires Placeable(db, p) && Stocked(db.items, p.cart)
    requires LinesLinked(db) && OrdersSound(env, db)
    ensures OrdersSound(env, PlaceOrder(db, p))
  {
    var db' := PlaceOrder(db, p);
    CartTotalNonNegative(db.items, p.cart);
    forall o | o in db'.orders ensures OrderPaid(env, db'.orders[o]) && db'.orders[o].total == LineTotal(db'.lines, o) {
      LineTotalAfterPlace(db, p, o);
    }
  }

  lemma {:induction false} CartTotalNonNegative(items: map<ItemId, Item>, cart: seq<CartLine>)
    requires Stocked(items, cart) && forall n :: 0 <= n < |cart| ==> cart[n].quantity >= 0
    ensures CartTotal(items, cart) >= 0
  {
    if cart == [] {
    } else {
      CartTotalNonNegative(items, cart[..|cart| - 1]);
    }
  }

  /** An item's stock drops by what the cart takes of it ... */
  lemma ItemAfterPlace(db: Db, p: CheckoutParams, i: ItemId)
    requires ValidCart(p.cart) && Stocked(db.items, p.cart) && i in db.items
    ensures i in PlaceOrder(db, p).items
    ensures PlaceOrder(db, p).items[i] == db.items[i].(stock := db.items[i].stock - QtyIn(p.cart, i))
  {
    CartWrites(p.orderId, db.items, p.cart);
    QtyInBounds(p.cart, i);
  }

  /** ... which is never more than there is. */
  lemma NeverOversold(db: Db, p: CheckoutParams, i: ItemId)
    requires ValidCart(p.cart) && FirstFault(db, p, p.cart).None?
    requires i in db.items && db.items[i].stock >= 0
    ensures QtyIn(p.cart, i) <= db.items[i].stock
  {
    QtyInBounds(p.cart, i);
    if i in CartIds(p.cart) {
      var n :| 0 <= n < |p.cart| && p.cart[n].id == i && QtyIn(p.cart, i) == p.cart[n].quantity;
      FaultFree(db, p, p.cart);
      assert LineFault(db, p, p.cart[n]).None?;
    }
  }

  lemma StockAfterPlace(db: Db, supply: map<ItemId, int>, p: CheckoutParams)
    requires StockConserved(db, supply) && LinesLinked(db)
    requires Placeable(db, p) && Stocked(db.items, p.cart)
    ensures StockConserved(PlaceOrder(db, p), supply)
  {
    PlaceKeepsItems(db, p);
    var db' := PlaceOrder(db, p);
    forall i | i in db'.items
      ensures db'.items[i].stock >= 0 && db'.items[i].stock + Held(db', i) == supply[i]
    {
      OneItemConserved(db, supply, p, i);
    }
  }

  lemma PlaceKeepsItems(db: Db, p: CheckoutParams)
    requires Distinct(p.cart) && Stocked(db.items, p.cart)
    ensures PlaceOrder(db, p).items.Keys == db.items.Keys
  {
    CartWrites(p.orderId, db.items, p.cart);
  }

  lemma OneItemConserved(db: Db, supply: map<ItemId, int>, p: CheckoutParams, i: ItemId)
    requires StockConserved(db, supply) && LinesLinked(db) && i in db.items
    requires Placeable(db, p) && Stocked(db.items, p.cart)
    ensures var db' := PlaceOrder(db, p);
      i in db'.items && db'.items[i].stock >= 0 && db'.items[i].stock + Held(db', i) == supply[i]
  {
    ItemAfterPlace(db, p, i);
    NeverOversold(db, p, i);
    HeldAfterPlace(db, p, i);
  }

  lemma CapAfterPlace(db: Db, p: CheckoutParams, user: string, event: string, i: ItemId)
    requires LinesLinked(db) && Placeable(db, p) && Stocked(db.items, p.cart)
    requires i in db.items && WithinCap(db, user, event, i)
    ensures i in PlaceOrder(db, p).items && WithinCap(PlaceOrder(db, p), user, event, i)
  {
    ItemAfterPlace(db, p, i);
    PurchasedAfterPlace(db, p, user, event, i);
    QtyInBounds(p.cart, i);
    if i in CartIds(p.cart) {
      var n :| 0 <= n < |p.cart| && p.cart[n].id == i && QtyIn(p.cart, i) == p.cart[n].quantity;
      FaultFree(db, p, p.cart);
      assert LineFault(db, p, p.cart[n]).None?;
    }
  }

  lemma CapsAfterPlace(db: Db, p: CheckoutParams)
    requires CapsRespected(db) && LinesLinked(db)
    requires Placeable(db, p) && Stocked(db.items, p.cart)
    ensures CapsRespected(PlaceOrder(db, p))
  {
    PlaceKeepsItems(db, p);
    forall user, event, i | i in PlaceOrder(db, p).items ensures WithinCap(PlaceOrder(db, p), user, event, i) {
      assert WithinCap(db, user, event, i);
      CapAfterPlace(db, p, user, event, i);
    }
  }

  lemma LinesAfterPlace(db: Db, p: CheckoutParams)
    requires LinesLinked(db) && ValidCart(p.cart) && Stocked(db.items, p.cart)
    ensures LinesLinked(PlaceOrder(db, p))
  {
    var db' := PlaceOrder(db, p);
    CartWrites(p.orderId, db.items, p.cart);
    forall k | k in db'.lines ensures k.0 in db'.orders && k.1 in db'.items && db'.lines[k].quantity >= 1 {
      QtyInBounds(p.cart, k.1);
      assert k in NewLines(p.orderId, db.items, p.cart) ==> k == (p.orderId, k.1);
    }
  }

  lemma UniqueAfterPlace(db: Db, p: CheckoutParams)
    requires KeysUnique(db) && HashesUnique(db)
    requires Placeable(db, p) && Stocked(db.items, p.cart)
    ensures KeysUnique(PlaceOrder(db, p)) && HashesUnique(PlaceOrder(db, p))
  {}

  /** Placing an order keeps the tables sound: stock, caps, keys, totals. */
  lemma PlaceOrderKeepsSound(env: Env, db: Db, supply: map<ItemId, int>, p: CheckoutParams)
    requires Sound(env, db, supply) && Placeable(db, p)
    ensures Stocked(db.items, p.cart) && Sound(env, PlaceOrder(db, p), supply)
  {
    PlaceableFacts(db, p);
    UniqueAfterPlace(db, p);
    StockAfterPlace(db, supply, p);
    CapsAfterPlace(db, p);
    LinesAfterPlace(db, p);
    OrdersAfterPlace(env, db, p);
  }

  // ----- confirming -----

  lemma SameHolders(db: Db, db': Db)
    requires db'.orders.Keys == db.orders.Keys && db'.lines == db.lines
    requires forall o :: o in db.orders ==>
      Holds(db'.orders[o].status) == Holds(db.orders[o].status)
      && db'.orders[o].user == db.orders[o].user && db'.orders[o].event == db.orders[o].event
    ensures forall i :: Held(db', i) == Held(db, i)
    ensures forall user, event, i :: Purchased(db', user, event, i) == Purchased(db, user, event, i)
  {
    forall i ensures Held(db', i) == Held(db, i) {
      assert HeldRows(db', i) == HeldRows(db, i);
    }
    forall user, event, i ensures Purchased(db', user, event, i) == Purchased(db, user, event, i) {
      assert PurchasedRows(db', user, event, i) == PurchasedRows(db, user, event, i);
    }
  }

  lemma CapsCarryOver(db: Db, db': Db)
    requires CapsRespected(db) && db'.items.Keys == db.items.Keys
    requires forall i :: i in db.items ==> db'.items[i].maxPerUser == db.items[i].maxPerUser
    requires forall user, event, i :: Purchased(db', user, event, i) <= Purchased(db, user, event, i)
    ensures CapsRespected(db')
  {
    forall user, event, i | i in db'.items ensures WithinCap(db', user, event, i) {
      assert WithinCap(db, user, event, i);
    }
  }

  /** An order whose identity and contents stay; only its status and hash may move. */
  predicate SameContents(a: Order, b: Order) {
    b == a.(status := b.status, hash := b.hash)
  }

  lemma OrdersCarryOver(env: Env, db: Db, db': Db)
    requires OrdersSound(env, db) && KeysUnique(db) && LinesLinked(db)
    requires db'.lines == db.lines && db'.orders.Keys == db.orders.Keys && db'.items.Keys == db.items.Keys
    requires forall o :: o in db.orders ==> SameContents(db.orders[o], db'.orders[o]) && OrderPaid(env, db'.orders[o])
    ensures OrdersSound(env, db') && KeysUnique(db') && LinesLinked(db')
  {
    forall o | o in db'.orders ensures db'.orders[o].total == LineTotal(db'.lines, o) {
      assert SameContents(db.orders[o], db'.orders[o]);
    }
  }

  lemma HashesCarryOver(db: Db, db': Db)
    requires HashesUnique(db) && db'.orders.Keys == db.orders.Keys
    requires forall o :: o in db.orders ==> db'.orders[o].hash == db.orders[o].hash
    ensures HashesUnique(db')
  {}

  lemma ConfirmedIsPaid(env: Env, db: Db, c: ConfirmParams)
    requires OrdersSound(env, db) && Confirmable(env, db, c)
    ensures forall o :: o in db.orders ==>
      SameContents(db.orders[o], Confirm(db, c).orders[o]) && OrderPaid(env, Confirm(db, c).orders[o])
  {}

  /** Confirming keeps the tables sound: the hash is new and its transfer pays the order. */
  lemma ConfirmKeepsSound(env: Env, db: Db, supply: map<ItemId, int>, c: ConfirmParams)
    requires Sound(env, db, supply) && Confirmable(env, db, c)
    ensures Sound(env, Confirm(db, c), supply)
  {
    var db' := Confirm(db, c);
    SameHolders(db, db');
    CapsCarryOver(db, db');
    ConfirmedIsPaid(env, db, c);
    OrdersCarryOver(env, db, db');
    assert HashesUnique(db');
  }

  // ----- the float loop of Checkout and the integer total of these tables -----

  /** The lines of a cart at today's prices, as Money's loop reads them. */
  function Priced(items: map<ItemId, Item>, cart: seq<CartLine>): seq<PricedLine>
    requires Stocked(items, cart) && forall n :: 0 <= n < |cart| ==> cart[n].quantity >= 0
  {
    seq(|cart|, n requires 0 <= n < |cart| => PricedLine(items[cart[n].id].price, cart[n].quantity))
  }

  lemma {:induction false} PricedTotal(items: map<ItemId, Item>, cart: seq<CartLine>)
    requires Stocked(items, cart) && forall n :: 0 <= n < |cart| ==> cart[n].quantity >= 0
    ensures ExactTotal(Priced(items, cart)) == CartTotal(items, cart)
  {
    if cart == [] {
    } else {
      var init := cart[..|cart| - 1];
      PricedTotal(items, init);
      assert Priced(items, cart)[..|cart| - 1] == Priced(items, init);
    }
  }

  /** On DECIMAL(10,4) prices the float and int64 loop over a valid cart accumulates the total placed here. */
  lemma FloatLoopMeetsTotal(items: map<ItemId, Item>, cart: seq<CartLine>)
    requires ValidCart(cart) && Stocked(items, cart)
    requires forall n :: 0 <= n < |cart| ==> items[cart[n].id].price < DECIMAL_LIMIT
    ensures WithinBounds(Priced(items, cart)) && ExactTotal(Priced(items, cart)) == CartTotal(items, cart) < TWO_51
  {
    PricedTotal(items, cart);
    TotalFitsInt64(Priced(items, cart));
  }

  // ----- releasing stock -----

  lemma ReturnedPlus(lines: map<LineKey, Line>, done: set<OrderId>, o: OrderId, i: ItemId)
    requires o !in done
    ensures Returned(lines, done + {o}, i) == Returned(lines, done, i) + Qty(lines, o, i)
  {
    assert ReturnedRows(lines, done + {o}, i) == ReturnedRows(lines, done, i)[o := Qty(lines, o, i)];
    TotalUpdate(ReturnedRows(lines, done, i), o, Qty(lines, o, i));
  }

  lemma HeldAfterRelease(db: Db, done: set<OrderId>, final: Status, i: ItemId)
    requires AllHolding(db, done) && !Holds(final)
    ensures Held(Release(db, done, final), i) == Held(db, i) - Returned(db.lines, done, i)
  {
    var db' := Release(db, done, final);
    var gone := map o | o in db.orders :: if o in done then Qty(db.lines, o, i) else 0;
    TotalAdd(HeldRows(db, i), HeldRows(db', i), gone);
    TotalDropZeros(gone, ReturnedRows(db.lines, done, i));
  }

  lemma PurchasedAfterRelease(db: Db, done: set<OrderId>, final: Status, user: string, event: string, i: ItemId)
    requires LinesLinked(db) && AllHolding(db, done) && !Holds(final)
    ensures Purchased(Release(db, done, final), user, event, i) <= Purchased(db, user, event, i)
  {
    TotalMono(PurchasedRows(Release(db, done, final), user, event, i), PurchasedRows(db, user, event, i));
  }

  lemma ReturnedNonNegative(db: Db, done: set<OrderId>, i: ItemId)
    requires LinesLinked(db)
    ensures Returned(db.lines, done, i) >= 0
  {
    TotalNonNegative(ReturnedRows(db.lines, done, i));
  }

  lemma StockAfterRelease(db: Db, supply: map<ItemId, int>, done: set<OrderId>, final: Status)
    requires StockConserved(db, supply) && LinesLinked(db) && AllHolding(db, done) && !Holds(final)
    ensures StockConserved(Release(db, done, final), supply)
  {
    var db' := Release(db, done, final);
    forall i | i in db'.items
      ensures db'.items[i].stock >= 0 && db'.items[i].stock + Held(db', i) == supply[i]
    {
      HeldAfterRelease(db, done, final, i);
      ReturnedNonNegative(db, done, i);
    }
  }

  /** Expiring or failing orders returns exactly what they held. */
  lemma ReleaseKeepsSound(env: Env, db: Db, supply: map<ItemId, int>, done: set<OrderId>, final: Status)
    requires Sound(env, db, supply) && AllHolding(db, done) && !Holds(final)
    ensures Sound(env, Release(db, done, final), supply)
  {
    var db' := Release(db, done, final);
    StockAfterRelease(db, supply, done, final);
    CapsAfterRelease(db, done, final);
    ReleasedStayPaid(env, db, done, final);
    OrdersCarryOver(env, db, db');
    HashesCarryOver(db, db');
  }

  lemma CapsAfterRelease(db: Db, done: set<OrderId>, final: Status)
    requires CapsRespected(db) && LinesLinked(db) && AllHolding(db, done) && !Holds(final)
    ensures CapsRespected(Release(db, done, final))
  {
    var db' := Release(db, done, final);
    forall user, event, i ensures Purchased(db', user, event, i) <= Purchased(db, user, event, i) {
      PurchasedAfterRelease(db, done, final, user, event, i);
    }
    CapsCarryOver(db, db');
  }

  lemma ReleasedStayPaid(env: Env, db: Db, done: set<OrderId>, final: Status)
    requires OrdersSound(env, db) && !Holds(final)
    ensures forall o :: o in db.orders ==>
      SameContents(db.orders[o], Release(db, done, final).orders[o]) &&
        OrderPaid(env, Release(db, done, final).orders[o])
  {
    forall o | o in db.orders
      ensures OrderPaid(env, Release(db, done, final).orders[o])
    {
      assert OrderPaid(env, db.orders[o]);
    }
  }

  // ----- the organizer -----

  lemma FulfilKeepsSound(env: Env, db: Db, supply: map<ItemId, int>, o: OrderId)
    requires Sound(env, db, supply) && o in db.orders && db.orders[o].status.Confirmed?
    ensures Sound(env, Fulfil(db, o), supply)
  {
    var db' := Fulfil(db, o);
    SameHolders(db, db');
    CapsCarryOver(db, db');
    assert OrderPaid(env, db.orders[o]);
    OrdersCarryOver(env, db, db');
    HashesCarryOver(db, db');
  }

  lemma EditKeepsSound(env: Env, db: Db, supply: map<ItemId, int>, i: ItemId,
                       price: nat, visible: bool, event: Option<string>, added: int)
    requires Sound(env, db, supply) && i in db.items && db.items[i].stock + added >= 0
    ensures Sound(env, EditItem(db, i, price, visible, event, added), supply[i := supply[i] + added])
  {
    var db' := EditItem(db, i, price, visible, event, added);
    SameHolders(db, db');
    CapsCarryOver(db, db');
    OrdersCarryOver(env, db, db');
  }

  // ----- what soundness says about payments -----

  /** The scaled amount of the transfer behind each hash the orders carry. */
  ghost function HashAmounts(env: Env, db: Db): map<string, int> {
    map h | h in (set o | o in db.orders && db.orders[o].hash.Some? :: db.orders[o].hash.value)
      :: match ScaledAmount(env.fl, env.chain(h).amount) case Some(a) => a case None => 0
  }

  ghost function PaidTotals(db: Db): map<OrderId, int> {
    map o | o in db.orders && db.orders[o].hash.Some? :: db.orders[o].total
  }

  /** The totals of the orders carrying a hash sum to the transfers' amounts, each hash string counted once. */
  lemma PaymentsBalance(env: Env, db: Db)
    requires HashesUnique(db) && OrdersSound(env, db)
    ensures Total(PaidTotals(db)) == Total(HashAmounts(env, db))
  {
    var hashOf := map o | o in PaidTotals(db) :: db.orders[o].hash.value;
    forall h | h in HashAmounts(env, db) ensures exists o :: o in hashOf && hashOf[o] == h {
      var o :| o in db.orders && db.orders[o].hash.Some? && db.orders[o].hash.value == h;
      assert o in hashOf;
    }
    forall o | o in PaidTotals(db)
      ensures hashOf[o] in HashAmounts(env, db) && PaidTotals(db)[o] == HashAmounts(env, db)[hashOf[o]]
    {
      assert OrderPaid(env, db.orders[o]);
    }
    TotalRename(PaidTotals(db), HashAmounts(env, db), hashOf);
  }
}
