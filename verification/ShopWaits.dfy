/**
 * Who waits for whom when checkouts, confirmations and sweeps run together: circles of waits
 * need a sweep that asks for an item below one it holds, and without such a sweep somebody
 * can always take a step.
 */
module ShopWaits {
  import opened Text
  import opened Money
  import opened ShopTables
  import opened ShopProtocol
  import opened ShopTxInvariant
  import opened ShopSafety
  import opened ShopRuns
  import opened ShopLocks

  /** An item row, an uncommitted idempotency key, an order row, or an uncommitted hash. */
  datatype Reason = ForItem(item: ItemId) | ForKey | ForOrder | ForHash

  /** The item a checkout is to lock next, or any item a sweep still has to give units back to. */
  ghost predicate Seeks(s: State, t: TxId, i: ItemId) {
    t in s.txs &&
    ((WantsItem(s, t) && Wanted(s, t) == i)
     || (s.txs[t].job.Sweeping? && s.txs[t].job.sweepAt.Returning? && i in s.txs[t].job.sweepAt.todo))
  }

  ghost predicate SeeksOrder(s: State, t: TxId) {
    t in s.txs && s.txs[t].job.Confirming? && s.txs[t].job.confirmAt.Opening? && s.txs[t].job.c.orderId in s.db.orders
  }

  ghost predicate SeeksHash(s: State, t: TxId) {
    t in s.txs && s.txs[t].job.Confirming? && s.txs[t].job.confirmAt.Verified?
  }

  ghost predicate Waits(s: State, t: TxId, u: TxId, r: Reason) {
    u in s.txs && u != t &&
    match r
    case ForItem(i) => Seeks(s, t, i) && i in s.txs[u].heldItems
    case ForKey => WantsKey(s, t) && InsertsKey(s.txs[u], s.txs[t].job.p.user, s.txs[t].job.p.key)
    case ForOrder => SeeksOrder(s, t) && s.txs[t].job.c.orderId in s.txs[u].heldOrders
    case ForHash => SeeksHash(s, t) && SetsHash(s.txs[u], s.txs[t].job.c.hash)
  }

  /** A sweep asking for item `i` while it holds one that comes after it. */
  ghost predicate OutOfOrder(s: State, t: TxId, i: ItemId) {
    t in s.txs && s.txs[t].job.Sweeping? && exists h :: h in s.txs[t].heldItems && Less(i, h)
  }

  // ----- circles -----

  ghost predicate Circle(s: State, ts: seq<TxId>, rs: seq<Reason>) {
    && |rs| >= 1 && |ts| == |rs| + 1 && ts[0] == ts[|rs|]
    && forall k :: 0 <= k < |rs| ==> Waits(s, ts[k], ts[k + 1], rs[k])
  }

  /** Whoever is waited for and waits in turn is waited for because of an item or an order row. */
  lemma KeyAndHashEndAWait(s: State, t: TxId, u: TxId, r: Reason, v: TxId, q: Reason)
    requires Waits(s, t, u, r) && Waits(s, u, v, q)
    ensures r.ForItem? || r.ForOrder?
  {}

  /** A confirmation that has not locked its order holds nothing, so nobody waits for it. */
  lemma NobodyWaitsForOpening(env: Env, s: State, t: TxId, u: TxId, r: Reason, v: TxId, q: Reason)
    requires AllOk(env, s.db, s.txs) && Waits(s, t, u, r) && Waits(s, u, v, q)
    ensures !q.ForOrder?
  {
    assert TxOk(env, s.db, s.txs[u]);
  }

  /** Along two waits for items the ids grow, unless the second is a sweep's out of order. */
  lemma ItemWaitsClimb(env: Env, s: State, t: TxId, u: TxId, i: ItemId, v: TxId, j: ItemId)
    requires AllOk(env, s.db, s.txs) && AllDisjoint(s.txs)
    requires Waits(s, t, u, ForItem(i)) && Waits(s, u, v, ForItem(j))
    ensures Less(i, j) || OutOfOrder(s, u, j)
  {
    assert TxOk(env, s.db, s.txs[u]);
    assert Disjoint(s.txs[u], s.txs[v]);
    LessTotal(i, j);
  }

  lemma CircleIsOfItems(env: Env, s: State, ts: seq<TxId>, rs: seq<Reason>, k: nat)
    requires AllOk(env, s.db, s.txs) && Circle(s, ts, rs) && k < |rs|
    ensures rs[k].ForItem?
  {
    var next := if k + 1 < |rs| then k + 1 else 0;
    assert ts[next] == ts[k + 1];
    assert Waits(s, ts[k], ts[k + 1], rs[k]) && Waits(s, ts[next], ts[next + 1], rs[next]);
    KeyAndHashEndAWait(s, ts[k], ts[k + 1], rs[k], ts[next + 1], rs[next]);
    var back := if k > 0 then k - 1 else |rs| - 1;
    assert ts[back + 1] == ts[k];
    assert Waits(s, ts[back], ts[back + 1], rs[back]);
    NobodyWaitsForOpening(env, s, ts[back], ts[k], rs[back], ts[k + 1], rs[k]);
  }

  lemma {:induction false} CircleClimbs(env: Env, s: State, ts: seq<TxId>, rs: seq<Reason>, k: nat)
    requires AllOk(env, s.db, s.txs) && AllDisjoint(s.txs) && Circle(s, ts, rs) && 0 < k < |rs|
    requires forall m :: 0 <= m < |rs| ==> rs[m].ForItem? && !OutOfOrder(s, ts[m], rs[m].item)
    ensures Less(rs[0].item, rs[k].item)
  {
    assert Waits(s, ts[k - 1], ts[k], rs[k - 1]) && Waits(s, ts[k], ts[k + 1], rs[k]);
    ItemWaitsClimb(env, s, ts[k - 1], ts[k], rs[k - 1].item, ts[k + 1], rs[k].item);
    if k == 1 {
    } else {
      CircleClimbs(env, s, ts, rs, k - 1);
      LessTransitive(rs[0].item, rs[k - 1].item, rs[k].item);
    }
  }

  /**
   * In every run each circle of waits, of whatever transactions, contains a sweep that asks for an
   * item while it holds a later one. Checkouts and confirmations alone never deadlock, and neither
   * do sweeps that give units back in id order.
   */
  lemma EveryCircleHasALateSweep(env: Env, start: State, run: seq<Action>, ts: seq<TxId>, rs: seq<Reason>)
    requires Initial(env, start) && Possible(env, start, run) && Circle(After(env, start, run), ts, rs)
    ensures exists k :: 0 <= k < |rs| && rs[k].ForItem? && OutOfOrder(After(env, start, run), ts[k], rs[k].item)
  {
    InitialIsInv(env, start);
    RunKeepsInv(env, start, run);
    var s, n := After(env, start, run), |rs|;
    forall k | 0 <= k < n ensures rs[k].ForItem? { CircleIsOfItems(env, s, ts, rs, k); }
    LessIrreflexive(rs[0].item);
    if forall k :: 0 <= k < n ==> !OutOfOrder(s, ts[k], rs[k].item) {
      assert Waits(s, ts[n - 1], ts[n], rs[n - 1]) && Waits(s, ts[0], ts[1], rs[0]);
      ItemWaitsClimb(env, s, ts[n - 1], ts[0], rs[n - 1].item, ts[1], rs[0].item);
      if n > 1 {
        CircleClimbs(env, s, ts, rs, n - 1);
        LessAsymmetric(rs[0].item, rs[n - 1].item);
      }
    }
  }

  // ----- a sweep out of order can be caught -----

  /** A sweep holds `high`, has still to give units of `low` back, and a checkout may lock both. */
  ghost predicate Catchable(s: State, t: TxId, low: ItemId, high: ItemId, event: string) {
    && t in s.txs && s.txs[t].job.Sweeping? && s.txs[t].job.sweepAt.Returning?
    && high in s.txs[t].heldItems && low in s.txs[t].job.sweepAt.todo && Less(low, high)
    && ItemFree(s, t, low) && low !in s.txs[t].heldItems
    && low in s.db.items && Purchasable(s.db.items[low], event)
    && high in s.db.items && Purchasable(s.db.items[high], event)
  }

  function Trap(event: string, orderId: OrderId, low: ItemId, high: ItemId): CheckoutParams {
    CheckoutParams(orderId, "u", event, "", [CartLine(low, 1), CartLine(high, 1)], 0)
  }

  lemma TrapInOrder(p: CheckoutParams, low: ItemId, high: ItemId)
    requires Less(low, high) && p.cart == [CartLine(low, 1), CartLine(high, 1)]
    ensures ValidCart(p.cart) && LockOrder(p.cart, [low, high])
  {
    LessIrreflexive(low);
    assert p.cart[..1] == [CartLine(low, 1)] && p.cart[..1][..0] == [];
    assert CartIds(p.cart[..1]) == {low};
    assert (set i | i in [low, high]) == {low, high};
  }

  function Locks(p: CheckoutParams, todo: seq<ItemId>, catalog: map<ItemId, Item>): Tx {
    Tx(Buying(p, Locking(todo), catalog), NO_WRITES, catalog.Keys, {})
  }

  lemma TrapOpens(env: Env, s: State, b: TxId, p: CheckoutParams, low: ItemId, high: ItemId)
    requires Less(low, high) && p.cart == [CartLine(low, 1), CartLine(high, 1)] && p.key == ""
    requires b !in s.txs && UnusedOrderId(s, p.orderId)
    ensures Enabled(s, BeginCheckout(b, p))
    ensures var s1 := Do(env, s, BeginCheckout(b, p));
      Enabled(s1, LookUp(b, [low, high])) &&
      Do(env, s1, LookUp(b, [low, high])) == s.(txs := s.txs[b := Locks(p, [low, high], map[])])
  {
    TrapInOrder(p, low, high);
    var s1 := Do(env, s, BeginCheckout(b, p));
    var tx := Finish(Buying(p, Replaying, map[]));
    assert s1.txs[b] == tx && BuyEnabled(s1, LookUp(b, [low, high]), tx);
    assert LookUpKey(s.db, tx, [low, high]) == Locks(p, [low, high], map[]);
    assert s.txs[b := tx][b := Locks(p, [low, high], map[])] == s.txs[b := Locks(p, [low, high], map[])];
  }

  lemma TrapCloses(env: Env, s: State, b: TxId, p: CheckoutParams, low: ItemId, high: ItemId)
    requires low in s.db.items && Purchasable(s.db.items[low], p.event) && ItemFree(s, b, low)
    ensures var s1 := s.(txs := s.txs[b := Locks(p, [low, high], map[])]);
      Enabled(s1, Lock(b)) &&
      Do(env, s1, Lock(b)) == s.(txs := s.txs[b := Locks(p, [high], map[low := s.db.items[low]])])
  {
    var tx := Locks(p, [low, high], map[]);
    var s1 := s.(txs := s.txs[b := tx]);
    assert [low, high][1..] == [high];
    assert ItemFree(s1, b, low) && BuyEnabled(s1, Lock(b), tx);
    assert LockItem(s.db, tx) == Locks(p, [high], map[low := s.db.items[low]]);
    assert s.txs[b := tx][b := Locks(p, [high], map[low := s.db.items[low]])]
      == s.txs[b := Locks(p, [high], map[low := s.db.items[low]])];
  }

  /** Whenever a sweep is out of order on items open for sale, one more checkout closes a circle with it. */
  lemma LateSweepCanDeadlock(env: Env, s: State, t: TxId, low: ItemId, high: ItemId, event: string, b: TxId,
                             orderId: OrderId)
    returns (run: seq<Action>)
    requires Catchable(s, t, low, high, event) && b !in s.txs && UnusedOrderId(s, orderId)
    ensures Possible(env, s, run)
    ensures Circle(After(env, s, run), [b, t, b], [ForItem(high), ForItem(low)])
  {
    var p := Trap(event, orderId, low, high);
    TrapOpens(env, s, b, p, low, high);
    TrapCloses(env, s, b, p, low, high);
    run := Then(env, s, [], BeginCheckout(b, p));
    run := Then(env, s, run, LookUp(b, [low, high]));
    run := Then(env, s, run, Lock(b));
    var e := After(env, s, run);
    assert e == s.(txs := s.txs[b := Locks(p, [high], map[low := s.db.items[low]])]);
    assert Waits(e, b, t, ForItem(high)) && Waits(e, t, b, ForItem(low));
  }

  // ----- progress -----

  ghost predicate InOrder(s: State) {
    forall t, i :: Seeks(s, t, i) ==> !OutOfOrder(s, t, i)
  }

  /** A step of its own that is not giving up. */
  ghost predicate StepOf(s: State, t: TxId, a: Action) {
    Enabled(s, a) && !Admin(a) && !Begins(a) && !a.Rollback? && a.t == t
  }

  ghost predicate Unfinished(s: State, t: TxId) { t in s.txs && !Over(s.txs[t]) }

  ghost predicate ItemStuck(s: State, t: TxId) { exists i, u :: Waits(s, t, u, ForItem(i)) }

  lemma ItemHolderIsUnfinished(env: Env, s: State, t: TxId, u: TxId, r: Reason)
    requires AllOk(env, s.db, s.txs) && Waits(s, t, u, r)
    ensures Unfinished(s, u)
  {
    assert TxOk(env, s.db, s.txs[u]);
  }

  /** A checkout that waits for no item can step, or waits for a key whose holder can. */
  lemma BuyerSteps(env: Env, s: State, t: TxId) returns (r: TxId, a: Action)
    requires Inv(env, s) && Unfinished(s, t) && s.txs[t].job.Buying? && !ItemStuck(s, t)
    ensures StepOf(s, r, a)
  {
    r := t;
    if u :| WaitsFor(s, t, u) {
      assert WantsKey(s, t) by { assert WantsItem(s, t) ==> !Waits(s, t, u, ForItem(Wanted(s, t))); }
      KeyHolderIsUnblocked(s, t, u);
      r := u;
    }
    a := UnblockedCanStep(env, s, r);
  }

  lemma SweepSteps(env: Env, s: State, t: TxId) returns (a: Action)
    requires Unfinished(s, t) && s.txs[t].job.Sweeping? && !ItemStuck(s, t)
    ensures StepOf(s, t, a)
  {
    match s.txs[t].job.sweepAt
    case Selecting =>
      a := EndSelect(t);
      assert SweepEnabled(s, a, s.txs[t]);
    case Restoring(left, _) =>
      if left == {} {
        a := Commit(t);
      } else {
        var o :| o in left;
        a := Expire(t, o);
        assert SweepEnabled(s, a, s.txs[t]);
      }
    case Returning(_, todo, _, _) =>
      if todo == {} {
        a := Next(t);
      } else {
        var i :| i in todo;
        a := Return(t, i);
        forall u | u in s.txs && u != t ensures i !in s.txs[u].heldItems { assert !Waits(s, t, u, ForItem(i)); }
        assert ItemFree(s, t, i);
      }
      assert SweepEnabled(s, a, s.txs[t]);
  }

  /** A confirmation can step, or waits for a hash whose holder can commit, or for an order row. */
  lemma ConfirmSteps(s: State, t: TxId) returns (r: TxId, a: Action)
    requires Unfinished(s, t) && s.txs[t].job.Confirming?
    requires forall u :: !Waits(s, t, u, ForOrder)
    ensures StepOf(s, r, a)
  {
    r := t;
    match s.txs[t].job.confirmAt
    case Opening =>
      a := LockRow(t);
      OpeningCanLock(s, t);
    case Locked(_) =>
      a := TestHash(t);
      assert ConfirmEnabled(s, a, s.txs[t]);
    case HashFree(_) =>
      a := VerifyOnChain(t);
      assert ConfirmEnabled(s, a, s.txs[t]);
    case Verified(_) =>
      a := Update(t);
      if u :| Waits(s, t, u, ForHash) {
        r, a := u, Commit(u);
      } else {
        VerifiedCanUpdate(s, t);
      }
    case Updated(_) => a := Commit(t);
  }

  lemma OpeningCanLock(s: State, t: TxId)
    requires t in s.txs && s.txs[t].job.Confirming? && s.txs[t].job.confirmAt.Opening?
    requires forall u :: !Waits(s, t, u, ForOrder)
    ensures StepOf(s, t, LockRow(t))
  {
    var o := s.txs[t].job.c.orderId;
    if o in s.db.orders {
      forall u | u in s.txs && u != t ensures o !in s.txs[u].heldOrders { assert !Waits(s, t, u, ForOrder); }
    }
    assert ConfirmEnabled(s, LockRow(t), s.txs[t]);
  }

  lemma VerifiedCanUpdate(s: State, t: TxId)
    requires t in s.txs && s.txs[t].job.Confirming? && s.txs[t].job.confirmAt.Verified?
    requires forall u :: !Waits(s, t, u, ForHash)
    ensures StepOf(s, t, Update(t))
  {
    forall u | u in s.txs && u != t
      ensures !SetsHash(s.txs[u], s.txs[t].job.c.hash)
    {
      assert !Waits(s, t, u, ForHash);
    }
    assert ConfirmEnabled(s, Update(t), s.txs[t]);
  }

  /** Whoever holds an order row is not itself waiting for one. */
  lemma OrderHolderSteps(env: Env, s: State, t: TxId, u: TxId) returns (r: TxId, a: Action)
    requires Inv(env, s) && Waits(s, t, u, ForOrder) && !ItemStuck(s, u)
    ensures StepOf(s, r, a)
  {
    ItemHolderIsUnfinished(env, s, t, u, ForOrder);
    assert TxOk(env, s.db, s.txs[u]);
    if s.txs[u].job.Confirming? {
      r, a := ConfirmSteps(s, u);
    } else {
      r := u;
      a := SweepSteps(env, s, u);
    }
  }

  lemma FreeOfItemsSteps(env: Env, s: State, t: TxId) returns (found: bool, r: TxId, a: Action)
    requires Inv(env, s) && Unfinished(s, t) && !ItemStuck(s, t)
    ensures found ==> StepOf(s, r, a)
    ensures !found ==> Unfinished(s, r) && ItemStuck(s, r) && s.txs[t].job.Confirming?
  {
    found, r, a := true, t, Commit(t);
    match s.txs[t].job
    case Buying(_, _, _) => r, a := BuyerSteps(env, s, t);
    case Sweeping(_, _) => a := SweepSteps(env, s, t);
    case Confirming(_, _) =>
      if u :| Waits(s, t, u, ForOrder) {
        if ItemStuck(s, u) {
          ItemHolderIsUnfinished(env, s, t, u, ForOrder);
          found, r := false, u;
        } else {
          r, a := OrderHolderSteps(env, s, t, u);
        }
      } else {
        r, a := ConfirmSteps(s, t);
      }
  }

  ghost function StuckOn(s: State, t: TxId): ItemId
    requires ItemStuck(s, t)
  {
    var i, u :| Waits(s, t, u, ForItem(i));
    i
  }

  lemma {:induction false} GreatestStuck(s: State, ts: set<TxId>) returns (t: TxId)
    requires ts != {} && forall u :: u in ts ==> ItemStuck(s, u)
    ensures t in ts && forall u :: u in ts ==> !Less(StuckOn(s, t), StuckOn(s, u))
    decreases |ts|
  {
    var first :| first in ts;
    t := first;
    LessIrreflexive(StuckOn(s, t));
    if ts - {first} == {} {
      assert ts == {first};
    } else {
      var r := GreatestStuck(s, ts - {first});
      if Less(StuckOn(s, first), StuckOn(s, r)) { t := r; }
      forall u | u in ts ensures !Less(StuckOn(s, t), StuckOn(s, u)) {
        if u == first {
          NotBelow(StuckOn(s, first), StuckOn(s, r));
        } else {
          assert u in ts - {first};
          NotBelowAny(StuckOn(s, first), StuckOn(s, r), StuckOn(s, u));
        }
      }
    }
  }

  /** The holder of the greatest item waited for waits for no item itself. */
  lemma GreatestHolder(env: Env, s: State, t: TxId) returns (u: TxId)
    requires Inv(env, s) && InOrder(s) && Unfinished(s, t) && ItemStuck(s, t)
    ensures Unfinished(s, u) && !ItemStuck(s, u) && !s.txs[u].job.Confirming?
  {
    var stuck := set v | v in s.txs && !Over(s.txs[v]) && ItemStuck(s, v);
    assert t in stuck;
    var top := GreatestStuck(s, stuck);
    var i := StuckOn(s, top);
    u :| Waits(s, top, u, ForItem(i));
    ItemHolderIsUnfinished(env, s, top, u, ForItem(i));
    assert TxOk(env, s.db, s.txs[u]);
    assert ItemStuck(s, u) ==> u in stuck;
    if ItemStuck(s, u) {
      var j := StuckOn(s, u);
      var v :| Waits(s, u, v, ForItem(j));
      ItemWaitsClimb(env, s, top, u, i, v, j);
    }
  }

  /**
   * While no sweep is out of order, as long as any transaction is unfinished some transaction can
   * take a step other than its rollback.
   */
  lemma SomebodyCanStep(env: Env, s: State, t: TxId) returns (r: TxId, a: Action)
    requires Inv(env, s) && InOrder(s) && Unfinished(s, t)
    ensures StepOf(s, r, a)
  {
    var found, u := false, t;
    if !ItemStuck(s, t) { found, u, a := FreeOfItemsSteps(env, s, t); }
    if found { r := u; } else { r, a := StuckSteps(env, s, u); }
  }

  lemma StuckSteps(env: Env, s: State, t: TxId) returns (r: TxId, a: Action)
    requires Inv(env, s) && InOrder(s) && Unfinished(s, t) && ItemStuck(s, t)
    ensures StepOf(s, r, a)
  {
    var u := GreatestHolder(env, s, t);
    var found;
    found, r, a := FreeOfItemsSteps(env, s, u);
  }
}
