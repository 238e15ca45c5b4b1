/** What each running transaction may rely on, and why the others cannot take it away. */
module ShopTxInvariant {
  import opened Text
  import opened Money
  import opened ShopTables
  import opened ShopInvariants
  import opened ShopProtocol

  // ----- checkouts -----

  /** The catalog rows read under lock are the committed rows, and all of them belong to the cart. */
  ghost predicate CatalogCurrent(db: Db, tx: Tx)
    requires tx.job.Buying?
  {
    && tx.heldOrders == {} && tx.heldItems == tx.job.catalog.Keys && tx.heldItems <= CartIds(tx.job.p.cart)
    && forall i :: i in tx.heldItems ==> RowSelected(db, tx, i) && tx.job.catalog[i] == db.items[i]
  }

  ghost predicate LineOk(db: Db, tx: Tx, n: nat)
    requires tx.job.Buying? && n < |tx.job.p.cart|
  {
    tx.job.p.cart[n].id in tx.heldItems && LineFault(db, tx.job.p, tx.job.p.cart[n]).None?
  }

  ghost predicate CheckedUpTo(db: Db, tx: Tx, n: int, total: int)
    requires tx.job.Buying?
  {
    && 0 <= n <= |tx.job.p.cart|
    && (forall k :: 0 <= k < n ==> LineOk(db, tx, k))
    && Stocked(db.items, tx.job.p.cart[..n]) && total == CartTotal(db.items, tx.job.p.cart[..n])
  }

  ghost predicate WrittenUpTo(db: Db, tx: Tx, n: int, total: int)
    requires tx.job.Buying?
  {
    var p := tx.job.p;
    && CheckedUpTo(db, tx, |p.cart|, total) && total < DECIMAL_LIMIT
    && !KeyTaken(db, p.user, p.key)
    && 0 <= n <= |p.cart| && Stocked(db.items, p.cart[..n])
    && tx.writes == Writes(TakenItems(db.items, p.cart[..n]), map[p.orderId := NewOrder(p, total)],
                           NewLines(p.orderId, db.items, p.cart[..n]))
  }

  /** A finished checkout names an order of this user, with this total, placed under this key. */
  ghost predicate AnswerStands(db: Db, p: CheckoutParams, o: OrderId, total: int) {
    && o in db.orders && db.orders[o].user == p.user && db.orders[o].total == total
    && db.orders[o].key == (if p.key == "" then None else Some(p.key))
    && (p.key == "" ==> o == p.orderId)
  }

  ghost predicate BuyOk(db: Db, tx: Tx)
    requires tx.job.Buying?
  {
    var Buying(p, at, catalog) := tx.job;
    && ValidCart(p.cart)
    && (!Over(tx) ==> CatalogCurrent(db, tx) && p.orderId !in db.orders)
    && (Over(tx) ==> tx.heldItems == {} && tx.heldOrders == {})
    && (!at.Writing? ==> tx.writes == NO_WRITES)
    && match at
       case Replaying => catalog == map[]
       case Locking(todo) =>
         && StrictlySorted(todo) && (forall i :: i in todo ==> i in CartIds(p.cart))
         && (forall h, i :: h in tx.heldItems && i in todo ==> Less(h, i))
       case Checking(n, total) => CheckedUpTo(db, tx, n, total)
       case Writing(n, total) => WrittenUpTo(db, tx, n, total)
       case Bought(Placed(o, total)) => AnswerStands(db, p, o, total)
       case _ => true
  }

  // ----- confirmations -----

  ghost predicate OrderRead(db: Db, tx: Tx, order: Order)
    requires tx.job.Confirming?
  {
    var c := tx.job.c;
    && tx.heldOrders == {c.orderId} && c.orderId in db.orders
    && db.orders[c.orderId] == order && order.user == c.user && order.status.Pending?
  }

  ghost predicate ConfirmOk(env: Env, db: Db, tx: Tx)
    requires tx.job.Confirming?
  {
    var Confirming(c, at) := tx.job;
    && tx.heldItems == {}
    && (Over(tx) ==> tx.heldOrders == {})
    && (!at.Updated? ==> tx.writes == NO_WRITES)
    && match at
       case Opening => tx.heldOrders == {}
       case Locked(order) => OrderRead(db, tx, order)
       case HashFree(order) => OrderRead(db, tx, order)
       case Verified(order) => OrderRead(db, tx, order) && Pays(env, c.hash, order.total)
       case Updated(order) =>
         && OrderRead(db, tx, order) && Pays(env, c.hash, order.total) && !HashTaken(db, c.hash)
         && tx.writes == NO_WRITES.(orders := map[c.orderId := ConfirmedOrder(order, c.hash)])
       case Ended(Done) => c.orderId in db.orders && db.orders[c.orderId].hash == Some(c.hash)
       case _ => true
  }

  // ----- sweeps -----

  function ExpiredRows(db: Db, gone: set<OrderId>): map<OrderId, Order> {
    map o | o in gone && o in db.orders :: db.orders[o].(status := Expired)
  }

  /** What has come back to item `i` once the orders in `done` and part of `order`'s lines are restored. */
  ghost function BackSoFar(db: Db, done: set<OrderId>, current: Option<OrderId>, todo: set<ItemId>, i: ItemId): int {
    Returned(db.lines, done, i)
    + if current.Some? && i !in todo then Qty(db.lines, current.value, i) else 0
  }

  /** Item `i`, with the sweep's own update if there is one, carries exactly what has come back to it. */
  ghost predicate RestoredAt(db: Db, rows: map<ItemId, Item>, done: set<OrderId>, current: Option<OrderId>,
                             todo: set<ItemId>, i: ItemId)
    requires i in db.items
  {
    (if i in rows then rows[i] else db.items[i])
    == db.items[i].(stock := db.items[i].stock + BackSoFar(db, done, current, todo, i))
  }

  ghost predicate RestoredSoFar(db: Db, tx: Tx, done: set<OrderId>, current: Option<OrderId>, todo: set<ItemId>) {
    && tx.writes.items.Keys == tx.heldItems <= db.items.Keys
    && forall i {:trigger RestoredAt(db, tx.writes.items, done, current, todo, i)} :: i in db.items ==>
         RestoredAt(db, tx.writes.items, done, current, todo, i)
  }

  /** The orders a sweep has selected stay pending and older than its cutoff. */
  ghost predicate SelectionHolds(db: Db, tx: Tx)
    requires tx.job.Sweeping?
  {
    && tx.writes.lines == map[]
    && (Over(tx) ==> tx.heldItems == {} && tx.heldOrders == {} && tx.writes == NO_WRITES)
    && AllPending(db, tx.heldOrders)
    && (forall o :: o in tx.heldOrders && o in db.orders ==> db.orders[o].createdOn < tx.job.cutoff)
  }

  ghost predicate RestoringOk(db: Db, tx: Tx, left: set<OrderId>, done: set<OrderId>) {
    && left !! done && left + done == tx.heldOrders
    && tx.writes.orders == ExpiredRows(db, done)
    && RestoredSoFar(db, tx, done, None, {})
  }

  ghost predicate ReturningOk(db: Db, tx: Tx, o: OrderId, todo: set<ItemId>, left: set<OrderId>, done: set<OrderId>) {
    && o !in left && o !in done && left !! done && left + done + {o} == tx.heldOrders
    && tx.writes.orders == ExpiredRows(db, done + {o})
    && todo <= ItemsOf(db.lines, o)
    && RestoredSoFar(db, tx, done, Some(o), todo)
  }

  ghost predicate SweepOk(db: Db, tx: Tx)
    requires tx.job.Sweeping?
  {
    SelectionHolds(db, tx) &&
    match tx.job.sweepAt
    case Selecting => tx.heldItems == {} && tx.writes == NO_WRITES
    case Restoring(left, done) => RestoringOk(db, tx, left, done)
    case Returning(o, todo, left, done) => ReturningOk(db, tx, o, todo, left, done)
    case _ => true
  }

  ghost predicate TxOk(env: Env, db: Db, tx: Tx) {
    match tx.job
    case Buying(_, _, _) => BuyOk(db, tx)
    case Confirming(_, _) => ConfirmOk(env, db, tx)
    case Sweeping(_, _) => SweepOk(db, tx)
  }

  // ----- the steps of one transaction keep its invariant -----

  lemma FindByKeyFinds(db: Db, user: string, key: string)
    ensures FindByKey(db, user, key).Some? <==> KeyTaken(db, user, key)
    ensures var r := FindByKey(db, user, key); r.Some? ==>
      key != "" && r.value in db.orders && db.orders[r.value].user == user && db.orders[r.value].key == Some(key)
  {}

  lemma SortedTail(todo: seq<ItemId>)
    requires StrictlySorted(todo) && todo != []
    ensures StrictlySorted(todo[1..])
    ensures forall i :: i in todo[1..] ==> i in todo && Less(todo[0], i)
  {}

  lemma LockKeepsOk(env: Env, db: Db, tx: Tx)
    requires tx.job.Buying? && tx.job.buyAt.Locking? && tx.job.buyAt.todo != [] && BuyOk(db, tx)
    ensures BuyOk(db, LockItem(db, tx))
  {
    SortedTail(tx.job.buyAt.todo);
    assert tx.job.buyAt.todo[0] in tx.job.buyAt.todo;
  }

  lemma LookUpKeepsOk(db: Db, tx: Tx, order: seq<ItemId>)
    requires tx.job.Buying? && tx.job.buyAt.Replaying? && BuyOk(db, tx) && LockOrder(tx.job.p.cart, order)
    ensures BuyOk(db, LookUpKey(db, tx, order))
  {
    FindByKeyFinds(db, tx.job.p.user, tx.job.p.key);
  }

  lemma CheckKeepsOk(db: Db, tx: Tx)
    requires tx.job.Buying? && tx.job.buyAt.Checking? && tx.job.buyAt.n < |tx.job.p.cart| && BuyOk(db, tx)
    ensures BuyOk(db, CheckLine(db, tx))
  {
    var Checking(n, total) := tx.job.buyAt;
    var tx', cart := CheckLine(db, tx), tx.job.p.cart;
    if tx'.job.buyAt.Checking? {
      assert cart[..n + 1][..n] == cart[..n];
      forall k | 0 <= k < n + 1 ensures LineOk(db, tx', k) {
        if k < n { assert LineOk(db, tx, k); }
      }
    }
  }

  lemma InsertKeepsOk(db: Db, tx: Tx)
    requires tx.job.Buying? && tx.job.buyAt.Checking? && tx.job.buyAt.n == |tx.job.p.cart| && BuyOk(db, tx)
    ensures BuyOk(db, InsertOrder(db, tx))
  {
    var tx', cart := InsertOrder(db, tx), tx.job.p.cart;
    if tx'.job.buyAt.Writing? {
      forall k | 0 <= k < |cart| ensures LineOk(db, tx', k) { assert LineOk(db, tx, k); }
      assert cart[..0] == [];
    }
  }

  lemma ReadKeepsOk(db: Db, tx: Tx)
    requires tx.job.Buying? && tx.job.buyAt.Rereading? && BuyOk(db, tx)
    ensures BuyOk(db, Reread(db, tx))
  {
    FindByKeyFinds(db, tx.job.p.user, tx.job.p.key);
  }

  /** Under the locks held, the guarded decrement always finds its row. */
  lemma DecrementAlwaysHits(db: Db, tx: Tx)
    requires tx.job.Buying? && tx.job.buyAt.Writing? && tx.job.buyAt.n < |tx.job.p.cart| && BuyOk(db, tx)
    ensures DecrementHits(db, tx) && tx.job.p.cart[tx.job.buyAt.n].id in tx.job.catalog
    ensures Apply(db, tx.writes).items[tx.job.p.cart[tx.job.buyAt.n].id] ==
      tx.job.catalog[tx.job.p.cart[tx.job.buyAt.n].id]
  {
    var n, p := tx.job.buyAt.n, tx.job.p;
    assert LineOk(db, tx, n);
    assert p.cart[..n + 1][..n] == p.cart[..n];
    LastIsNew(p.cart[..n + 1]);
    CartWrites(p.orderId, db.items, p.cart[..n]);
  }

  lemma WriteKeepsOk(db: Db, tx: Tx)
    requires tx.job.Buying? && tx.job.buyAt.Writing? && tx.job.buyAt.n < |tx.job.p.cart| && BuyOk(db, tx)
    ensures BuyOk(db, WriteLine(db, tx)) && WriteLine(db, tx).job.buyAt.Writing?
  {
    DecrementAlwaysHits(db, tx);
    var n, p, tx' := tx.job.buyAt.n, tx.job.p, WriteLine(db, tx);
    assert p.cart[..n + 1][..n] == p.cart[..n];
    forall k | 0 <= k < |p.cart| ensures LineOk(db, tx', k) { assert LineOk(db, tx, k); }
    assert LineOk(db, tx, n);
  }

  lemma LockRowKeepsOk(env: Env, db: Db, tx: Tx)
    requires tx.job.Confirming? && tx.job.confirmAt.Opening? && ConfirmOk(env, db, tx)
    ensures ConfirmOk(env, db, LockOrderRow(db, tx))
  {}

  lemma VerifyKeepsOk(env: Env, db: Db, tx: Tx)
    requires Rounding(env.fl) && OrdersSound(env, db)
    requires tx.job.Confirming? && tx.job.confirmAt.HashFree? && ConfirmOk(env, db, tx)
    ensures ConfirmOk(env, db, Verify(env, tx))
  {
    var order := tx.job.confirmAt.order;
    assert OrderPaid(env, order);
    VerifyIsExact(env, tx.job.c.hash, order.total);
  }

  /** Under the order's lock, the guarded confirm always finds its row still pending. */
  lemma ConfirmAlwaysHits(env: Env, db: Db, tx: Tx)
    requires tx.job.Confirming? && tx.job.confirmAt.Verified? && ConfirmOk(env, db, tx)
    ensures ConfirmHits(db, tx)
  {}

  lemma UpdateKeepsOk(env: Env, db: Db, tx: Tx)
    requires tx.job.Confirming? && tx.job.confirmAt.Verified? && ConfirmOk(env, db, tx)
    ensures ConfirmOk(env, db, UpdateOrder(db, tx))
  {}

  lemma StartRestoringKeepsOk(db: Db, tx: Tx)
    requires tx.job.Sweeping? && tx.job.sweepAt.Selecting? && SweepOk(db, tx)
    ensures SweepOk(db, StartRestoring(tx))
  {
    forall i | i in db.items ensures RestoredAt(db, map[], {}, None, {}, i) {
      assert ReturnedRows(db.lines, {}, i) == map[];
    }
  }

  /** Under the order's lock, the guarded expiry always finds its row still pending. */
  lemma ExpireAlwaysHits(db: Db, tx: Tx, o: OrderId)
    requires tx.job.Sweeping? && tx.job.sweepAt.Restoring? && o in tx.job.sweepAt.left && SweepOk(db, tx)
    ensures ExpireHits(db, tx, o)
  {}

  lemma QtyOutside(lines: map<LineKey, Line>, o: OrderId, i: ItemId)
    requires i !in ItemsOf(lines, o)
    ensures Qty(lines, o, i) == 0
  {
    assert (o, i) in lines ==> (o, i).1 in ItemsOf(lines, o);
  }

  lemma ExpireKeepsOk(db: Db, tx: Tx, o: OrderId)
    requires tx.job.Sweeping? && tx.job.sweepAt.Restoring? && o in tx.job.sweepAt.left && SweepOk(db, tx)
    ensures SweepOk(db, ExpireOrder(db, tx, o))
  {
    ExpireAlwaysHits(db, tx, o);
    var Restoring(left, done) := tx.job.sweepAt;
    NothingBackYet(db, done, o);
    forall i | i in db.items ensures RestoredAt(db, tx.writes.items, done, Some(o), ItemsOf(db.lines, o), i) {
      assert RestoredAt(db, tx.writes.items, done, None, {}, i);
    }
    assert Apply(db, tx.writes).orders[o] == db.orders[o];
    assert ExpiredRows(db, done + {o}) == ExpiredRows(db, done)[o := db.orders[o].(status := Expired)];
    assert ReturningOk(db, ExpireOrder(db, tx, o), o, ItemsOf(db.lines, o), left - {o}, done);
    SelectionStays(db, tx, ExpireOrder(db, tx, o));
  }

  lemma NothingBackYet(db: Db, done: set<OrderId>, o: OrderId)
    ensures forall i :: BackSoFar(db, done, Some(o), ItemsOf(db.lines, o), i) == BackSoFar(db, done, None, {}, i)
  {
    forall i ensures BackSoFar(db, done, Some(o), ItemsOf(db.lines, o), i) == BackSoFar(db, done, None, {}, i) {
      if i !in ItemsOf(db.lines, o) { QtyOutside(db.lines, o, i); }
    }
  }

  lemma BackStep(db: Db, rows: map<ItemId, Item>, done: set<OrderId>, o: OrderId, todo: set<ItemId>,
                 i: ItemId, row: Item, j: ItemId)
    requires i in todo && i in db.items && j in db.items
    requires row == (if i in rows then rows[i] else db.items[i])
    requires RestoredAt(db, rows, done, Some(o), todo, i) && RestoredAt(db, rows, done, Some(o), todo, j)
    ensures RestoredAt(db, rows[i := row.(stock := row.stock + Qty(db.lines, o, i))], done, Some(o), todo - {i}, j)
  {}

  lemma OneMoreBack(db: Db, tx: Tx, tx': Tx, done: set<OrderId>, o: OrderId, todo: set<ItemId>, i: ItemId, row: Item)
    requires RestoredSoFar(db, tx, done, Some(o), todo) && i in todo && i in db.items
    requires row == (if i in tx.writes.items then tx.writes.items[i] else db.items[i])
    requires tx'.writes.items == tx.writes.items[i := row.(stock := row.stock + Qty(db.lines, o, i))]
    requires tx'.heldItems == tx.heldItems + {i}
    ensures RestoredSoFar(db, tx', done, Some(o), todo - {i})
  {
    forall j | j in db.items ensures RestoredAt(db, tx'.writes.items, done, Some(o), todo - {i}, j) {
      BackStep(db, tx.writes.items, done, o, todo, i, row, j);
    }
  }

  lemma ReturnedTx(db: Db, tx: Tx, i: ItemId) returns (row: Item, tx': Tx)
    requires tx.job.Sweeping? && tx.job.sweepAt.Returning? && i in db.items
    ensures row == if i in tx.writes.items then tx.writes.items[i] else db.items[i]
    ensures tx' == ReturnItem(db, tx, i) && tx'.job ==
      tx.job.(sweepAt := tx.job.sweepAt.(todo := tx.job.sweepAt.todo - {i}))
    ensures var returned := row.(stock := row.stock + Qty(db.lines, tx.job.sweepAt.order, i));
      tx'.writes == tx.writes.(items := tx.writes.items[i := returned])
    ensures tx'.heldItems == tx.heldItems + {i} && tx'.heldOrders == tx.heldOrders
  {
    row, tx' := Apply(db, tx.writes).items[i], ReturnItem(db, tx, i);
  }

  lemma ReturningIsOk(db: Db, tx: Tx, o: OrderId, todo: set<ItemId>, left: set<OrderId>, done: set<OrderId>)
    requires tx.job.Sweeping? && tx.job.sweepAt == Returning(o, todo, left, done)
    requires SelectionHolds(db, tx) && ReturningOk(db, tx, o, todo, left, done)
    ensures SweepOk(db, tx)
  {}

  lemma LinkedItem(db: Db, o: OrderId, i: ItemId)
    requires LinesLinked(db) && i in ItemsOf(db.lines, o)
    ensures i in db.items
  {}

  lemma ReturningStep(db: Db, tx: Tx, tx': Tx, o: OrderId, todo: set<ItemId>, left: set<OrderId>, done: set<OrderId>,
                      i: ItemId, row: Item)
    requires ReturningOk(db, tx, o, todo, left, done) && i in todo && i in db.items
    requires row == (if i in tx.writes.items then tx.writes.items[i] else db.items[i])
    requires tx'.writes == tx.writes.(items := tx.writes.items[i := row.(stock := row.stock + Qty(db.lines, o, i))])
    requires tx'.heldItems == tx.heldItems + {i} && tx'.heldOrders == tx.heldOrders
    ensures ReturningOk(db, tx', o, todo - {i}, left, done)
  {
    OneMoreBack(db, tx, tx', done, o, todo, i, row);
  }

  lemma SelectionStays(db: Db, tx: Tx, tx': Tx)
    requires tx.job.Sweeping? && tx'.job.Sweeping? && SelectionHolds(db, tx) && !Over(tx')
    requires tx'.heldOrders == tx.heldOrders && tx'.job.cutoff == tx.job.cutoff && tx'.writes.lines == tx.writes.lines
    ensures SelectionHolds(db, tx')
  {}

  lemma ReturnKeepsOk(db: Db, tx: Tx, i: ItemId)
    requires LinesLinked(db)
    requires tx.job.Sweeping? && tx.job.sweepAt.Returning? && i in tx.job.sweepAt.todo && SweepOk(db, tx)
    ensures SweepOk(db, ReturnItem(db, tx, i))
  {
    var at := tx.job.sweepAt;
    LinkedItem(db, at.order, i);
    var row, tx' := ReturnedTx(db, tx, i);
    ReturningStep(db, tx, tx', at.order, at.todo, at.left, at.done, i, row);
    SelectionStays(db, tx, tx');
    ReturningIsOk(db, tx', at.order, at.todo - {i}, at.left, at.done);
  }

  lemma NextKeepsOk(db: Db, tx: Tx)
    requires tx.job.Sweeping? && tx.job.sweepAt.Returning? && tx.job.sweepAt.todo == {} && SweepOk(db, tx)
    ensures SweepOk(db, NextOrder(tx))
  {
    var Returning(o, todo, left, done) := tx.job.sweepAt;
    forall i | i in db.items ensures RestoredAt(db, tx.writes.items, done + {o}, None, {}, i) {
      assert RestoredAt(db, tx.writes.items, done, Some(o), {}, i);
      ReturnedPlus(db.lines, done, o, i);
    }
  }
}
