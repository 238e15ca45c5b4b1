/** Every interleaving keeps the tables sound and every commit is one atomic operation. */
module ShopSafety {
  import opened Text
  import opened Money
  import opened ShopTables
  import opened ShopInvariants
  import opened ShopProtocol
  import opened ShopTxInvariant

  // ----- what a commit amounts to -----

  /** A checkout that commits does exactly what an undisturbed checkout would do now. */
  lemma CheckoutCommitIsAtomic(db: Db, tx: Tx)
    requires tx.job.Buying? && Committable(tx) && BuyOk(db, tx)
    ensures Stocked(db.items, tx.job.p.cart) && Placeable(db, tx.job.p)
    ensures Apply(db, tx.writes) == PlaceOrder(db, tx.job.p)
    ensures tx.job.buyAt.total == CartTotal(db.items, tx.job.p.cart)
    ensures tx.heldItems == CartIds(tx.job.p.cart)
  {
    var p := tx.job.p;
    assert p.cart[..|p.cart|] == p.cart;
    forall n | 0 <= n < |p.cart| ensures p.cart[n].id in tx.heldItems && LineFault(db, p, p.cart[n]).None? {
      assert LineOk(db, tx, n);
    }
    FaultFree(db, p, p.cart);
    forall i | i in CartIds(p.cart) ensures i in tx.heldItems { CartIdsAre(p.cart, i); }
  }

  lemma ConfirmCommitIsAtomic(env: Env, db: Db, tx: Tx)
    requires tx.job.Confirming? && Committable(tx) && ConfirmOk(env, db, tx)
    ensures Confirmable(env, db, tx.job.c) && Apply(db, tx.writes) == Confirm(db, tx.job.c)
  {}

  /** A sweep that commits expires exactly the pending orders it locked and returns all they held. */
  lemma SweepCommitIsAtomic(db: Db, tx: Tx)
    requires tx.job.Sweeping? && Committable(tx) && SweepOk(db, tx)
    ensures tx.job.sweepAt.done == tx.heldOrders && AllPending(db, tx.heldOrders)
    ensures Apply(db, tx.writes) == Release(db, tx.heldOrders, Expired)
  {
    var done := tx.heldOrders;
    assert {} + tx.job.sweepAt.done == tx.job.sweepAt.done;
    ReleasedItems(db, tx.writes.items, done);
    assert Apply(db, tx.writes).orders == Release(db, done, Expired).orders;
    assert Apply(db, tx.writes).lines == db.lines;
  }

  lemma ReleasedItems(db: Db, rows: map<ItemId, Item>, done: set<OrderId>)
    requires rows.Keys <= db.items.Keys
    requires forall i :: i in db.items ==> RestoredAt(db, rows, done, None, {}, i)
    ensures db.items + rows == Release(db, done, Expired).items
  {
    forall i | i in db.items ensures (db.items + rows)[i] == Release(db, done, Expired).items[i] {
      assert RestoredAt(db, rows, done, None, {}, i);
    }
  }

  // ----- what others do while a transaction runs -----

  /** No order disappears, none changes but in status or a hash newly set, and the locked rows stay. */
  ghost predicate RowsKept(db: Db, db': Db, items: set<ItemId>, orders: set<OrderId>) {
    && db'.items.Keys == db.items.Keys
    && (forall i :: i in items && i in db.items ==> db'.items[i] == db.items[i])
    && (forall o :: o in db.orders ==> o in db'.orders && SameContents(db.orders[o], db'.orders[o]))
    && (forall o :: o in db.orders && db.orders[o].hash.Some? ==> db'.orders[o].hash == db.orders[o].hash)
    && (forall o :: o in orders && o in db.orders ==> db'.orders[o] == db.orders[o])
  }

  /** The lines of existing orders stay as they are. */
  ghost predicate LinesKept(db: Db, db': Db) {
    && (forall k :: k in db.lines ==> k in db'.lines && db'.lines[k] == db.lines[k])
    && (forall k :: k in db'.lines && k.0 in db.orders ==> k in db.lines)
  }

  ghost predicate BuyerKept(db: Db, db': Db, tx: Tx)
    requires tx.job.Buying?
  {
    var p := tx.job.p;
    && p.orderId !in db'.orders
    && (forall i :: i in tx.heldItems ==> Purchased(db', p.user, p.event, i) <= Purchased(db, p.user, p.event, i))
    && (tx.job.buyAt.Writing? && KeyTaken(db', p.user, p.key) ==> KeyTaken(db, p.user, p.key))
  }

  /** The change from `db` to `db'` leaves alone everything `tx` relies on. */
  ghost predicate Undisturbed(db: Db, db': Db, tx: Tx) {
    && RowsKept(db, db', tx.heldItems, tx.heldOrders) && LinesKept(db, db')
    && (tx.job.Buying? && !Over(tx) ==> BuyerKept(db, db', tx))
    && (tx.job.Confirming? && tx.job.confirmAt.Updated? && HashTaken(db', tx.job.c.hash) ==>
      HashTaken(db, tx.job.c.hash))
  }

  lemma {:induction false} CartFrame(orderId: OrderId, items: map<ItemId, Item>, items': map<ItemId, Item>,
                                     cart: seq<CartLine>)
    requires Stocked(items, cart)
    requires forall n :: 0 <= n < |cart| ==> cart[n].id in items' && items'[cart[n].id] == items[cart[n].id]
    ensures Stocked(items', cart) && CartTotal(items', cart) == CartTotal(items, cart)
    ensures TakenItems(items', cart) == TakenItems(items, cart)
    ensures NewLines(orderId, items', cart) == NewLines(orderId, items, cart)
  {
    if cart == [] {
    } else {
      CartFrame(orderId, items, items', cart[..|cart| - 1]);
    }
  }

  lemma LineStaysOk(db: Db, db': Db, tx: Tx, n: nat)
    requires tx.job.Buying? && !Over(tx) && n < |tx.job.p.cart| && tx.heldItems <= db.items.Keys
    requires LineOk(db, tx, n) && Undisturbed(db, db', tx)
    ensures LineOk(db', tx, n)
  {}

  lemma ChecksStay(db: Db, db': Db, tx: Tx, n: int, total: int)
    requires tx.job.Buying? && !Over(tx) && tx.heldItems <= db.items.Keys
    requires CheckedUpTo(db, tx, n, total) && Undisturbed(db, db', tx)
    ensures CheckedUpTo(db', tx, n, total)
  {
    var cart := tx.job.p.cart[..n];
    forall k | 0 <= k < n ensures LineOk(db', tx, k) && cart[k].id in tx.heldItems {
      assert LineOk(db, tx, k);
      LineStaysOk(db, db', tx, k);
    }
    CartFrame(tx.job.p.orderId, db.items, db'.items, cart);
  }

  lemma WritesStay(db: Db, db': Db, tx: Tx, n: int, total: int)
    requires tx.job.Buying? && tx.job.buyAt.Writing? && tx.heldItems <= db.items.Keys
    requires WrittenUpTo(db, tx, n, total) && Undisturbed(db, db', tx)
    ensures WrittenUpTo(db', tx, n, total)
  {
    var p := tx.job.p;
    ChecksStay(db, db', tx, |p.cart|, total);
    forall k | 0 <= k < n ensures p.cart[..n][k].id in tx.heldItems {
      assert LineOk(db, tx, k);
    }
    CartFrame(p.orderId, db.items, db'.items, p.cart[..n]);
  }

  lemma BuyerUndisturbed(db: Db, db': Db, tx: Tx)
    requires tx.job.Buying? && BuyOk(db, tx) && Undisturbed(db, db', tx)
    ensures BuyOk(db', tx)
  {
    match tx.job.buyAt
    case Checking(n, total) => ChecksStay(db, db', tx, n, total);
    case Writing(n, total) => WritesStay(db, db', tx, n, total);
    case Bought(Placed(o, total)) => assert SameContents(db.orders[o], db'.orders[o]);
    case _ =>
  }

  lemma ConfirmerUndisturbed(env: Env, db: Db, db': Db, tx: Tx)
    requires tx.job.Confirming? && ConfirmOk(env, db, tx) && Undisturbed(db, db', tx)
    ensures ConfirmOk(env, db', tx)
  {}

  lemma LinesOfStay(db: Db, db': Db, o: OrderId)
    requires LinesKept(db, db') && o in db.orders
    ensures ItemsOf(db'.lines, o) == ItemsOf(db.lines, o)
    ensures forall i :: Qty(db'.lines, o, i) == Qty(db.lines, o, i)
  {
    forall i | i in ItemsOf(db'.lines, o) ensures i in ItemsOf(db.lines, o) {
      var k :| k in db'.lines && k.0 == o && k.1 == i;
      assert k in db.lines;
    }
    forall i | i in ItemsOf(db.lines, o) ensures i in ItemsOf(db'.lines, o) {
      var k :| k in db.lines && k.0 == o && k.1 == i;
      assert k in db'.lines;
    }
  }

  lemma ReturnedStays(db: Db, db': Db, done: set<OrderId>, i: ItemId)
    requires LinesKept(db, db') && forall o :: o in done ==> o in db.orders
    ensures Returned(db'.lines, done, i) == Returned(db.lines, done, i)
  {
    forall o | o in done ensures Qty(db'.lines, o, i) == Qty(db.lines, o, i) {
      LinesOfStay(db, db', o);
    }
    assert ReturnedRows(db'.lines, done, i) == ReturnedRows(db.lines, done, i);
  }

  lemma RestoredRowStays(db: Db, db': Db, rows: map<ItemId, Item>, done: set<OrderId>, current: Option<OrderId>,
                         todo: set<ItemId>, i: ItemId)
    requires LinesKept(db, db') && i in db.items && i in db'.items && (i in rows ==> db'.items[i] == db.items[i])
    requires forall o :: o in done ==> o in db.orders
    requires current.Some? ==> current.value in db.orders
    requires RestoredAt(db, rows, done, current, todo, i)
    ensures RestoredAt(db', rows, done, current, todo, i)
  {
    if current.Some? { LinesOfStay(db, db', current.value); }
    ReturnedStays(db, db', done, i);
  }

  lemma RestoringStays(db: Db, db': Db, tx: Tx, done: set<OrderId>, current: Option<OrderId>, todo: set<ItemId>)
    requires db'.items.Keys == db.items.Keys && LinesKept(db, db')
    requires forall i :: i in tx.heldItems && i in db.items ==> db'.items[i] == db.items[i]
    requires RestoredSoFar(db, tx, done, current, todo)
    requires forall o :: o in done ==> o in db.orders
    requires current.Some? ==> current.value in db.orders
    ensures RestoredSoFar(db', tx, done, current, todo)
  {
    forall i | i in db'.items ensures RestoredAt(db', tx.writes.items, done, current, todo, i) {
      RestoredRowStays(db, db', tx.writes.items, done, current, todo, i);
    }
  }

  lemma SweeperUndisturbed(db: Db, db': Db, tx: Tx)
    requires tx.job.Sweeping? && SweepOk(db, tx) && Undisturbed(db, db', tx)
    ensures SweepOk(db', tx)
  {
    match tx.job.sweepAt
    case Restoring(left, done) =>
      RestoringStays(db, db', tx, done, None, {});
      assert ExpiredRows(db', done) == ExpiredRows(db, done);
    case Returning(o, todo, left, done) =>
      RestoringStays(db, db', tx, done, Some(o), todo);
      LinesOfStay(db, db', o);
      assert ExpiredRows(db', done + {o}) == ExpiredRows(db, done + {o});
    case _ =>
  }

  lemma TxUndisturbed(env: Env, db: Db, db': Db, tx: Tx)
    requires TxOk(env, db, tx) && Undisturbed(db, db', tx)
    ensures TxOk(env, db', tx)
  {
    match tx.job
    case Buying(_, _, _) => BuyerUndisturbed(db, db', tx);
    case Confirming(_, _) => ConfirmerUndisturbed(env, db, db', tx);
    case Sweeping(_, _) => SweeperUndisturbed(db, db', tx);
  }

  // ----- two transactions never hold the same thing -----

  ghost predicate Disjoint(a: Tx, b: Tx) {
    && a.heldItems !! b.heldItems
    && a.heldOrders !! b.heldOrders
    && (a.job.Buying? && b.job.Buying? && !Over(a) && !Over(b) ==> a.job.p.orderId != b.job.p.orderId)
    && (a.job.Buying? && InsertsKey(a, a.job.p.user, a.job.p.key) ==> !InsertsKey(b, a.job.p.user, a.job.p.key))
    && (a.job.Confirming? && SetsHash(a, a.job.c.hash) ==> !SetsHash(b, a.job.c.hash))
  }

  lemma PlacingKeepsRows(db: Db, p: CheckoutParams, items: set<ItemId>, orders: set<OrderId>)
    requires LinesLinked(db) && Distinct(p.cart) && Stocked(db.items, p.cart) && p.orderId !in db.orders
    requires items !! CartIds(p.cart)
    ensures RowsKept(db, PlaceOrder(db, p), items, orders) && LinesKept(db, PlaceOrder(db, p))
  {
    CartWrites(p.orderId, db.items, p.cart);
  }

  lemma PlacingKeepsBuyer(db: Db, p: CheckoutParams, b: Tx)
    requires LinesLinked(db) && Distinct(p.cart) && Stocked(db.items, p.cart) && p.orderId !in db.orders
    requires b.job.Buying? && b.heldItems !! CartIds(p.cart)
    requires b.job.p.orderId !in db.orders && b.job.p.orderId != p.orderId
    requires !InsertsKey(b, p.user, p.key)
    ensures BuyerKept(db, PlaceOrder(db, p), b)
  {
    forall i | i in b.heldItems
      ensures Purchased(PlaceOrder(db, p), b.job.p.user, b.job.p.event, i)
           <= Purchased(db, b.job.p.user, b.job.p.event, i)
    {
      PurchasedAfterPlace(db, p, b.job.p.user, b.job.p.event, i);
      QtyInAbsent(p.cart, i);
    }
  }

  lemma PlacingDisturbsNoOther(env: Env, db: Db, a: Tx, b: Tx)
    requires LinesLinked(db) && a.job.Buying? && Committable(a) && BuyOk(db, a)
    requires TxOk(env, db, b) && Disjoint(a, b)
    ensures Undisturbed(db, Apply(db, a.writes), b)
  {
    CheckoutCommitIsAtomic(db, a);
    PlacingKeepsRows(db, a.job.p, b.heldItems, b.heldOrders);
    if b.job.Buying? && !Over(b) {
      assert InsertsKey(a, a.job.p.user, a.job.p.key) || a.job.p.key == "";
      PlacingKeepsBuyer(db, a.job.p, b);
    }
    PlacingSetsNoHash(db, a.job.p);
  }

  lemma PlacingSetsNoHash(db: Db, p: CheckoutParams)
    requires Stocked(db.items, p.cart) && p.orderId !in db.orders
    ensures forall hash :: HashTaken(PlaceOrder(db, p), hash) ==> HashTaken(db, hash)
  {}

  lemma ConfirmingKeepsRows(env: Env, db: Db, c: ConfirmParams, items: set<ItemId>, orders: set<OrderId>)
    requires OrdersSound(env, db) && Confirmable(env, db, c) && c.orderId !in orders
    ensures RowsKept(db, Confirm(db, c), items, orders) && LinesKept(db, Confirm(db, c))
  {
    assert OrderPaid(env, db.orders[c.orderId]);
  }

  lemma ConfirmingDisturbsNoOther(env: Env, db: Db, a: Tx, b: Tx)
    requires OrdersSound(env, db) && a.job.Confirming? && Committable(a) && ConfirmOk(env, db, a)
    requires TxOk(env, db, b) && Disjoint(a, b)
    ensures Undisturbed(db, Apply(db, a.writes), b)
  {
    ConfirmCommitIsAtomic(env, db, a);
    assert a.job.c.orderId in a.heldOrders;
    ConfirmingKeepsRows(env, db, a.job.c, b.heldItems, b.heldOrders);
    SameHolders(db, Confirm(db, a.job.c));
  }

  lemma ReleaseKeepsRows(db: Db, done: set<OrderId>, final: Status, items: set<ItemId>, orders: set<OrderId>)
    requires orders !! done
    requires forall i :: i in items && i in db.items ==> Returned(db.lines, done, i) == 0
    ensures RowsKept(db, Release(db, done, final), items, orders) && LinesKept(db, Release(db, done, final))
  {}

  /** Releasing orders whose rows `b` has not locked, onto items it has not locked, does not disturb it. */
  lemma ReleaseDisturbsNoOther(env: Env, db: Db, done: set<OrderId>, final: Status, b: Tx)
    requires LinesLinked(db) && AllHolding(db, done) && !Holds(final)
    requires TxOk(env, db, b) && b.heldOrders !! done
    requires forall i :: i in b.heldItems && i in db.items ==> Returned(db.lines, done, i) == 0
    ensures Undisturbed(db, Release(db, done, final), b)
  {
    ReleaseKeepsRows(db, done, final, b.heldItems, b.heldOrders);
    if b.job.Buying? {
      forall i | i in b.heldItems
        ensures Purchased(Release(db, done, final), b.job.p.user, b.job.p.event, i)
             <= Purchased(db, b.job.p.user, b.job.p.event, i)
      {
        PurchasedAfterRelease(db, done, final, b.job.p.user, b.job.p.event, i);
      }
    }
  }

  lemma UntouchedGetsNothing(db: Db, rows: map<ItemId, Item>, done: set<OrderId>, i: ItemId)
    requires i in db.items && i !in rows && RestoredAt(db, rows, done, None, {}, i)
    ensures Returned(db.lines, done, i) == 0
  {}

  lemma SweepingDisturbsNoOther(env: Env, db: Db, a: Tx, b: Tx)
    requires LinesLinked(db) && a.job.Sweeping? && Committable(a) && SweepOk(db, a)
    requires TxOk(env, db, b) && Disjoint(a, b)
    ensures Undisturbed(db, Apply(db, a.writes), b)
  {
    SweepCommitIsAtomic(db, a);
    forall i | i in b.heldItems && i in db.items ensures Returned(db.lines, a.heldOrders, i) == 0 {
      UntouchedGetsNothing(db, a.writes.items, a.heldOrders, i);
    }
    ReleaseDisturbsNoOther(env, db, a.heldOrders, Expired, b);
  }

  lemma CommitDisturbsNoOther(env: Env, db: Db, a: Tx, b: Tx)
    requires LinesLinked(db) && OrdersSound(env, db) && TxOk(env, db, a) && Committable(a)
    requires TxOk(env, db, b) && Disjoint(a, b)
    ensures Undisturbed(db, Apply(db, a.writes), b)
  {
    match a.job
    case Buying(_, _, _) => PlacingDisturbsNoOther(env, db, a, b);
    case Confirming(_, _) => ConfirmingDisturbsNoOther(env, db, a, b);
    case Sweeping(_, _) => SweepingDisturbsNoOther(env, db, a, b);
  }
}
