/**
 * The shop repository as an object over its tables, one call at a time. Each transaction
 * works on its own copies and assigns the tables only where the code commits.
 */
module ShopRepo {
  import opened Text
  import opened Sums
  import opened Money
  import opened ShopTables
  import opened ShopInvariants
  import opened ShopMeaning

  class ShopRepo {
    var items: map<ItemId, Item>
    var orders: map<OrderId, Order>
    var lines: map<LineKey, Line>

    ghost function Tables(): Db
      reads this
    {
      Db(items, orders, lines)
    }

    ghost predicate Valid(env: Env, supply: map<ItemId, int>)
      reads this
    {
      Rounding(env.fl) && Sound(env, Tables(), supply)
    }

    /** SELECT id, total FROM shop_order WHERE user_uuid = $1 AND idempotency_key = $2. */
    method OrderByIdempotencyKey(user: string, key: string) returns (found: Option<OrderId>)
      requires key != ""
      ensures found.Some? <==> KeyTaken(Tables(), user, key)
      ensures found.Some? ==>
        found.value in orders && orders[found.value].user == user && orders[found.value].key == Some(key)
    {
      if o :| o in orders && orders[o].user == user && orders[o].key == Some(key) {
        found := Some(o);
      } else {
        found := None;
      }
    }

    /** SELECT SUM(oi.quantity) over the user's orders that still count. */
    method PurchasedQuantity(user: string, event: string, item: ItemId) returns (total: int)
      ensures total == Purchased(Tables(), user, event, item) == Counted(Tables(), user, event, item)
    {
      ghost var rows := PurchasedRows(Tables(), user, event, item);
      var rest := orders.Keys;
      total := 0;
      assert rows - rest == map[];
      while rest != {}
        invariant rest <= orders.Keys
        invariant total == Total(rows - rest)
        decreases rest
      {
        var o :| o in rest;
        if CountsFor(orders[o], user, event) {
          total := total + Qty(lines, o, item);
        }
        TotalUpdate(rows - rest, o, rows[o]);
        assert rows - (rest - {o}) == (rows - rest)[o := rows[o]];
        rest := rest - {o};
      }
      assert rows - rest == rows;
      PurchasedIsCounted(Tables(), user, event, item);
    }

    /** SELECT ... FOR UPDATE: the purchasable rows among the cart's items. */
    method LoadCatalog(p: CheckoutParams) returns (catalog: map<ItemId, Item>)
      ensures forall i :: i in catalog <==> i in CartIds(p.cart) && OnSale(Tables(), p.event, i)
      ensures forall i :: i in catalog <==> i in CartIds(p.cart) && i in items && Purchasable(items[i], p.event)
      ensures forall i :: i in catalog ==> catalog[i] == items[i]
    {
      catalog := map[];
      for n := 0 to |p.cart|
        invariant forall i :: i in catalog <==>
          i in CartIds(p.cart[..n]) && i in items && Purchasable(items[i], p.event)
        invariant forall i :: i in catalog ==> catalog[i] == items[i]
      {
        assert p.cart[..n + 1][..n] == p.cart[..n];
        var id := p.cart[n].id;
        if id in items && Purchasable(items[id], p.event) {
          catalog := catalog[id := items[id]];
        }
      }
      assert p.cart[..|p.cart|] == p.cart;
    }

    method CheckLine(p: CheckoutParams, want: CartLine, catalog: map<ItemId, Item>)
      returns (fault: Option<CheckoutError>)
      requires want.id in catalog <==> want.id in items && Purchasable(items[want.id], p.event)
      requires want.id in catalog ==> catalog[want.id] == items[want.id]
      ensures fault == LineFault(Tables(), p, want)
    {
      if want.id !in catalog {
        return Some(ItemUnavailable(want.id));
      }
      var row := catalog[want.id];
      if row.stock < want.quantity {
        return Some(StockShortfall(want.id, row.stock));
      }
      if row.maxPerUser.Some? && row.maxPerUser.value > 0 {
        var purchased := PurchasedQuantity(p.user, p.event, want.id);
        if purchased + want.quantity > row.maxPerUser.value {
          return Some(PerUserLimit(want.id, row.maxPerUser.value, purchased));
        }
      }
      fault := None;
    }

    /** The checks made before the first write: the first fault of the cart, or its exact total. */
    method CheckCart(p: CheckoutParams, catalog: map<ItemId, Item>) returns (fault: Option<CheckoutError>, total: int)
      requires forall i :: i in catalog <==> i in CartIds(p.cart) && i in items && Purchasable(items[i], p.event)
      requires forall i :: i in catalog ==> catalog[i] == items[i]
      ensures fault == FirstFault(Tables(), p, p.cart)
      ensures fault.None? ==> Stocked(items, p.cart) && total == CartTotal(items, p.cart)
      ensures fault.None? ==> forall n :: 0 <= n < |p.cart| ==> p.cart[n].id in catalog
    {
      total := 0;
      for n := 0 to |p.cart|
        invariant FirstFault(Tables(), p, p.cart[..n]).None?
        invariant forall k :: 0 <= k < n ==> p.cart[k].id in catalog
        invariant Stocked(items, p.cart[..n]) && total == CartTotal(items, p.cart[..n])
      {
        var want := p.cart[n];
        CartIdsAre(p.cart, want.id);
        FirstFaultStays(Tables(), p, n);
        fault := CheckLine(p, want, catalog);
        if fault.Some? { return fault, 0; }
        TotalGrows(items, p.cart, n);
        total := total + catalog[want.id].price * want.quantity;
      }
      assert p.cart[..|p.cart|] == p.cart;
      fault := None;
    }

    /**
     * Checkout. A replay answers with the stored order and writes nothing; otherwise the
     * order is placed exactly when every line can be bought and the total fits its column,
     * and a rejection names the first bad line and leaves the tables alone.
     */
    method Checkout(ghost env: Env, ghost supply: map<ItemId, int>, p: CheckoutParams) returns (r: CheckoutOutcome)
      requires Valid(env, supply) && ValidCart(p.cart) && p.orderId !in orders
      modifies this
      ensures Valid(env, supply)
      ensures !KeyTaken(old(Tables()), p.user, p.key) ==>
        CheckoutAnswers(old(Tables()), p, r, Tables()) && Explained(old(Tables()), p, r)
      ensures !KeyTaken(old(Tables()), p.user, p.key) && r.Placed? ==> Booked(old(Tables()), p, r.total, Tables())
      ensures KeyTaken(old(Tables()), p.user, p.key) ==>
        Tables() == old(Tables()) && r.Placed? && r.orderId in orders && orders[r.orderId].total == r.total
        && orders[r.orderId].user == p.user && orders[r.orderId].key == Some(p.key)
    {
      if p.key != "" {
        var existing := OrderByIdempotencyKey(p.user, p.key);
        if existing.Some? {
          return Placed(existing.value, orders[existing.value].total);
        }
      }
      ghost var db := Tables();
      r := PlaceNew(env, supply, p);
      AnswerIsExplained(db, p, r);
      if r.Placed? { PlacedIsBooked(db, p); }
    }

    /** The transaction of Checkout. */
    method PlaceNew(ghost env: Env, ghost supply: map<ItemId, int>, p: CheckoutParams) returns (r: CheckoutOutcome)
      requires Valid(env, supply) && ValidCart(p.cart) && p.orderId !in orders
      requires !KeyTaken(Tables(), p.user, p.key)
      modifies this
      ensures Valid(env, supply)
      ensures CheckoutAnswers(old(Tables()), p, r, Tables())
    {
      var catalog := LoadCatalog(p);
      var fault, total := CheckCart(p, catalog);
      if fault.Some? {
        return Rejected(fault.value);
      }
      if total >= DECIMAL_LIMIT {
        return Rejected(TotalOutOfRange);
      }
      PlaceableFacts(Tables(), p);
      FaultFreeIsStocked(Tables(), p);
      var short, error, txItems, txLines := WriteLines(p, catalog);
      if short {
        return Rejected(error);
      }
      ghost var db := Tables();
      PlaceOrderKeepsSound(env, db, supply, p);
      Commit(txItems, orders[p.orderId := NewOrder(p, total)], txLines);
      assert Tables() == PlaceOrder(db, p);
      r := Placed(p.orderId, total);
    }

    method Commit(txItems: map<ItemId, Item>, txOrders: map<OrderId, Order>, txLines: map<LineKey, Line>)
      modifies this
      ensures Tables() == Db(txItems, txOrders, txLines)
    {
      items, orders, lines := txItems, txOrders, txLines;
    }

    /** The write loop: one line inserted and one guarded decrement per cart line, in the transaction's copies. */
    method WriteLines(p: CheckoutParams, catalog: map<ItemId, Item>)
      returns (short: bool, error: CheckoutError, txItems: map<ItemId, Item>, txLines: map<LineKey, Line>)
      requires ValidCart(p.cart) && Stocked(items, p.cart) && EnoughStock(items, p.cart)
      requires forall n :: 0 <= n < |p.cart| ==> p.cart[n].id in catalog && catalog[p.cart[n].id] == items[p.cart[n].id]
      ensures !short
      ensures txItems == items + TakenItems(items, p.cart)
      ensures txLines == lines + NewLines(p.orderId, items, p.cart)
    {
      txItems, txLines := items, lines;
      for n := 0 to |p.cart|
        invariant txItems == items + TakenItems(items, p.cart[..n])
        invariant txLines == lines + NewLines(p.orderId, items, p.cart[..n])
      {
        var want := p.cart[n];
        PlacedSoFar(Tables(), p, n);
        InsertedSoFar(Tables(), p, n);
        var row := catalog[want.id];
        txLines := txLines[(p.orderId, want.id) := Line(want.quantity, row.price)];
        if txItems[want.id].stock < want.quantity {
          return true, StockShortfall(want.id, row.stock), txItems, txLines;
        }
        txItems := txItems[want.id := txItems[want.id].(stock := txItems[want.id].stock - want.quantity)];
      }
      assert p.cart[..|p.cart|] == p.cart;
      short, error := false, TotalOutOfRange;
    }

    /**
     * ConfirmOrder under ConfirmCheckout. The outcome says exactly which condition failed,
     * and only a confirmation changes the tables.
     */
    method ConfirmOrder(env: Env, ghost supply: map<ItemId, int>, c: ConfirmParams) returns (r: ConfirmOutcome)
      requires Valid(env, supply)
      modifies this`orders
      ensures Valid(env, supply)
      ensures r.WalletNotConfigured? <==> TrimSpace(env.wallet) == ""
      ensures r.Done? <==> !r.WalletNotConfigured? && Confirmable(env, old(Tables()), c)
      ensures !r.WalletNotConfigured? ==> (r.NotFound? <==> c.orderId !in old(orders))
      ensures !r.WalletNotConfigured? && c.orderId in old(orders) ==>
        var order := old(orders)[c.orderId];
        && (r.NotOwned? <==> order.user != c.user)
        && (r.NotPending? <==> order.user == c.user && !order.status.Pending?)
        && (r.HashUsed? <==> order.user == c.user && order.status.Pending? && HashTaken(old(Tables()), c.hash))
        && (r.PaymentRefused? <==>
            order.user == c.user && order.status.Pending? && !HashTaken(old(Tables()), c.hash) &&
              !ReachedWallet(env, env.chain(c.hash), order.total))
      ensures r.Done? <==> !r.WalletNotConfigured? && Settles(env, old(Tables()), c)
      ensures r.Done? ==>
        orders == old(orders)[c.orderId := old(orders)[c.orderId].(status := Confirmed, hash := Some(c.hash))]
      ensures Tables() == if r.Done? then Confirm(old(Tables()), c) else old(Tables())
    {
      if TrimSpace(env.wallet) == "" {
        return WalletNotConfigured;
      }
      if c.orderId !in orders {
        return NotFound;
      }
      var order := orders[c.orderId];
      if order.user != c.user {
        return NotOwned;
      }
      if !order.status.Pending? {
        return NotPending;
      }
      if o :| o in orders && orders[o].hash == Some(c.hash) {
        if o != c.orderId {
          return HashUsed;
        }
      }
      assert OrderPaid(env, order);
      VerifyIsExact(env, c.hash, order.total);
      AcceptedMeans(env, c.hash, order.total);
      if VerifyPayment(env, env.chain(c.hash), FromScaled(env.fl, order.total)).Refused? {
        return PaymentRefused;
      }
      ConfirmKeepsSound(env, Tables(), supply, c);
      orders := orders[c.orderId := ConfirmedOrder(order, c.hash)];
      r := Done;
    }

    /** The stale orders, in whatever order the SELECT returns them. */
    method SelectStale(cutoff: int) returns (ids: seq<OrderId>)
      ensures forall o :: o in ids <==> o in orders && orders[o].status.Pending? && orders[o].createdOn < cutoff
      ensures forall a, b :: 0 <= a < b < |ids| ==> ids[a] != ids[b]
    {
      var rest := set o | o in orders && orders[o].status.Pending? && orders[o].createdOn < cutoff;
      ids := [];
      while rest != {}
        invariant forall o :: o in ids || o in rest <==>
          o in orders && orders[o].status.Pending? && orders[o].createdOn < cutoff
        invariant forall o :: o in ids ==> o !in rest
        invariant forall a, b :: 0 <= a < b < |ids| ==> ids[a] != ids[b]
        decreases rest
      {
        var o :| o in rest;
        ids, rest := ids + [o], rest - {o};
      }
    }

    /** UPDATE shop_item ... FROM shop_order_item: every item of order `o` gets its quantity back. */
    method RestoreStock(rows: map<ItemId, Item>, o: OrderId) returns (rows': map<ItemId, Item>)
      ensures rows' == Refilled(rows, lines, o)
    {
      rows' := rows;
      var todo := set k | k in lines && k.0 == o :: k.1;
      ghost var touched: set<ItemId> := {};
      while todo != {}
        invariant forall i :: i in todo || i in touched <==> (o, i) in lines
        invariant todo !! touched
        invariant rows' == map i | i in rows ::
          if i in touched then rows[i].(stock := rows[i].stock + Qty(lines, o, i)) else rows[i]
        decreases todo
      {
        var i :| i in todo;
        if i in rows' {
          rows' := rows'[i := rows'[i].(stock := rows'[i].stock + lines[(o, i)].quantity)];
        }
        todo := todo - {i};
        touched := touched + {i};
      }
    }

    /** MarkStaleOrders: exactly the stale pending orders expire, and exactly what they held comes back. */
    method MarkStaleOrders(ghost env: Env, ghost supply: map<ItemId, int>, cutoff: int) returns (count: nat)
      requires Valid(env, supply)
      modifies this`items, this`orders
      ensures Valid(env, supply)
      ensures var gone := set o | o in old(orders) && old(orders)[o].status.Pending? &&
        old(orders)[o].createdOn < cutoff;
        Tables() == Release(old(Tables()), gone, Expired) && count == |gone|
    {
      var ids := SelectStale(cutoff);
      ghost var gone := set o | o in orders && orders[o].status.Pending? && orders[o].createdOn < cutoff;
      assert Elements(ids) == gone;
      SetSize(ids, gone);
      var txItems, txOrders := ExpireAll(ids);
      ReleaseKeepsSound(env, Tables(), supply, gone, Expired);
      items, orders := txItems, txOrders;
      count := |ids|;
    }

    /** The restore loop, in the transaction's copies. */
    method ExpireAll(ids: seq<OrderId>) returns (txItems: map<ItemId, Item>, txOrders: map<OrderId, Order>)
      requires forall a, b :: 0 <= a < b < |ids| ==> ids[a] != ids[b]
      requires forall n :: 0 <= n < |ids| ==> ids[n] in orders && orders[ids[n]].status.Pending?
      ensures Db(txItems, txOrders, lines) == Release(Tables(), Elements(ids), Expired)
    {
      txItems, txOrders := items, orders;
      ReleaseNothing(Tables());
      for n := 0 to |ids|
        invariant Db(txItems, txOrders, lines) == Release(Tables(), Elements(ids[..n]), Expired)
      {
        var o := ids[n];
        ReleaseOneMore(Tables(), ids, n);
        if txOrders[o].status.Pending? {
          txOrders := txOrders[o := txOrders[o].(status := Expired)];
          txItems := RestoreStock(txItems, o);
        }
      }
      assert ids[..|ids|] == ids;
    }
  }

  /** The answer to a new checkout: all of the order or nothing, and the reason when nothing. */
  ghost predicate CheckoutAnswers(db: Db, p: CheckoutParams, r: CheckoutOutcome, db': Db) {
    if Placeable(db, p) then
      Stocked(db.items, p.cart) && db' == PlaceOrder(db, p) && r == Placed(p.orderId, CartTotal(db.items, p.cart))
    else
      db' == db && r == Rejected(if FirstFault(db, p, p.cart).Some? then FirstFault(db, p, p.cart).value
        else TotalOutOfRange)
  }

  predicate EnoughStock(items: map<ItemId, Item>, cart: seq<CartLine>)
    requires Stocked(items, cart)
  {
    forall n :: 0 <= n < |cart| ==> items[cart[n].id].stock >= cart[n].quantity
  }

  lemma FaultFreeIsStocked(db: Db, p: CheckoutParams)
    requires FirstFault(db, p, p.cart).None? && Stocked(db.items, p.cart)
    ensures EnoughStock(db.items, p.cart)
  {
    FaultFree(db, p, p.cart);
  }

  function Elements(ids: seq<OrderId>): set<OrderId> { set o | o in ids }

  lemma TotalGrows(items: map<ItemId, Item>, cart: seq<CartLine>, n: nat)
    requires n < |cart| && Stocked(items, cart[..n]) && cart[n].id in items
    ensures Stocked(items, cart[..n + 1])
    ensures CartTotal(items, cart[..n + 1]) == CartTotal(items, cart[..n]) + items[cart[n].id].price * cart[n].quantity
  {
    assert cart[..n + 1][..n] == cart[..n];
  }

  /** When line `n` is reached its item still has the stock that was checked. */
  lemma PlacedSoFar(db: Db, p: CheckoutParams, n: nat)
    requires ValidCart(p.cart) && n < |p.cart| && Stocked(db.items, p.cart) && EnoughStock(db.items, p.cart)
    ensures var want, row, now := p.cart[n], db.items[p.cart[n].id], db.items + TakenItems(db.items, p.cart[..n]);
      && want.id in now && now[want.id] == row && row.stock >= want.quantity
      && now[want.id := row.(stock := row.stock - want.quantity)] == db.items + TakenItems(db.items, p.cart[..n + 1])
  {
    assert p.cart[..n + 1][..n] == p.cart[..n];
    LastIsNew(p.cart[..n + 1]);
    CartWrites(p.orderId, db.items, p.cart[..n]);
  }

  lemma InsertedSoFar(db: Db, p: CheckoutParams, n: nat)
    requires n < |p.cart| && Stocked(db.items, p.cart)
    ensures var want, row := p.cart[n], db.items[p.cart[n].id];
      (db.lines + NewLines(p.orderId, db.items, p.cart[..n]))[(p.orderId, want.id) := Line(want.quantity, row.price)]
      == db.lines + NewLines(p.orderId, db.items, p.cart[..n + 1])
  {
    assert p.cart[..n + 1][..n] == p.cart[..n];
  }

  lemma {:induction false} SetSize(ids: seq<OrderId>, elems: set<OrderId>)
    requires forall a, b :: 0 <= a < b < |ids| ==> ids[a] != ids[b]
    requires forall o :: o in ids <==> o in elems
    ensures |ids| == |elems|
  {
    if ids == [] {
      assert elems == {};
    } else {
      var k := |ids| - 1;
      assert ids == ids[..k] + [ids[k]];
      SetSize(ids[..k], elems - {ids[k]});
    }
  }

  lemma ReleaseNothing(db: Db)
    ensures Release(db, {}, Expired) == db
  {
    forall i | i in db.items ensures Returned(db.lines, {}, i) == 0 {
      assert ReturnedRows(db.lines, {}, i) == map[];
    }
    assert Release(db, {}, Expired).items == db.items;
    assert Release(db, {}, Expired).orders == db.orders;
  }

  function Refilled(rows: map<ItemId, Item>, lines: map<LineKey, Line>, o: OrderId): map<ItemId, Item> {
    map i | i in rows :: rows[i].(stock := rows[i].stock + Qty(lines, o, i))
  }

  lemma RefillOne(db: Db, done: set<OrderId>, o: OrderId, i: ItemId)
    requires o !in done && i in db.items
    ensures Release(db, done + {o}, Expired).items[i] == Refilled(Release(db, done, Expired).items, db.lines, o)[i]
  {
    ReturnedPlus(db.lines, done, o, i);
  }

  lemma RefillOneMore(db: Db, done: set<OrderId>, o: OrderId)
    requires o !in done
    ensures Release(db, done + {o}, Expired).items == Refilled(Release(db, done, Expired).items, db.lines, o)
  {
    var after := Release(db, done + {o}, Expired).items;
    var refilled := Refilled(Release(db, done, Expired).items, db.lines, o);
    assert after.Keys == refilled.Keys == db.items.Keys;
    forall i | i in db.items ensures after[i] == refilled[i] { RefillOne(db, done, o, i); }
    SameRows(after, refilled);
  }

  lemma SameRows(a: map<ItemId, Item>, b: map<ItemId, Item>)
    requires a.Keys == b.Keys && forall i :: i in a ==> a[i] == b[i]
    ensures a == b
  {}

  lemma ReleaseOneMore(db: Db, ids: seq<OrderId>, n: nat)
    requires n < |ids| && forall a, b :: 0 <= a < b < |ids| ==> ids[a] != ids[b]
    requires ids[n] in db.orders && db.orders[ids[n]].status.Pending?
    ensures var before, after := Release(db, Elements(ids[..n]), Expired), Release(db, Elements(ids[..n + 1]), Expired);
      && ids[n] in before.orders && before.orders[ids[n]] == db.orders[ids[n]]
      && after.orders == before.orders[ids[n] := db.orders[ids[n]].(status := Expired)]
      && after.items == Refilled(before.items, db.lines, ids[n])
  {
    assert Elements(ids[..n + 1]) == Elements(ids[..n]) + {ids[n]};
    RefillOneMore(db, Elements(ids[..n]), ids[n]);
  }
}
