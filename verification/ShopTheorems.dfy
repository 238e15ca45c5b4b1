/** What the shop promises, over every interleaving of checkouts, confirms, sweeps and organizer changes. */
module ShopTheorems {
  import opened Sums
  import opened Money
  import opened ShopTables
  import opened ShopInvariants
  import opened ShopMeaning
  import opened ShopProtocol
  import opened ShopTxInvariant
  import opened ShopSafety
  import opened ShopRuns

  // ----- stock, allowances, keys, payments -----

  /** After any run, for every item: stock is not negative and stock plus held units is the supply. */
  lemma StockIsConserved(env: Env, s: State, run: seq<Action>, i: ItemId)
    requires Initial(env, s) && Possible(env, s, run)
    ensures var e := After(env, s, run);
      i in e.db.items ==>
        i in e.supply && e.db.items[i].stock >= 0 && e.db.items[i].stock + Held(e.db, i) == e.supply[i]
  {
    InitialIsInv(env, s);
    RunKeepsInv(env, s, run);
  }

  /** The supply moves only when the organizer edits an item's stock. */
  lemma {:induction false} SupplyIsFixed(env: Env, s: State, run: seq<Action>)
    requires Possible(env, s, run) && forall k :: 0 <= k < |run| ==> !run[k].AdminEdit?
    ensures After(env, s, run).supply == s.supply
    decreases |run|
  {
    if run == [] {
    } else {
      SupplyIsFixed(env, Do(env, s, run[0]), run[1..]);
    }
  }

  /** After any run no user holds more of a capped item than its cap allows, for any event. */
  lemma AllowanceIsRespected(env: Env, s: State, run: seq<Action>, user: string, event: string, i: ItemId)
    requires Initial(env, s) && Possible(env, s, run)
    ensures var db := After(env, s, run).db;
      i in db.items && db.items[i].maxPerUser.Some? && db.items[i].maxPerUser.value > 0
      ==> Counted(db, user, event, i) <= db.items[i].maxPerUser.value
  {
    InitialIsInv(env, s);
    RunKeepsInv(env, s, run);
    var db := After(env, s, run).db;
    assert i in db.items ==> WithinCap(db, user, event, i);
    PurchasedIsCounted(db, user, event, i);
  }

  /** After any run each hash backs one order, pays that order exactly, and the books balance. */
  lemma PaymentsBackOrders(env: Env, s: State, run: seq<Action>)
    requires Initial(env, s) && Possible(env, s, run)
    ensures var db := After(env, s, run).db;
      && HashesUnique(db)
      && (forall o :: o in db.orders && db.orders[o].hash.Some? ==>
        ReachedWallet(env, env.chain(db.orders[o].hash.value), db.orders[o].total))
      && (forall o :: o in db.orders && (db.orders[o].status.Confirmed? || db.orders[o].status.Fulfilled?) ==>
            db.orders[o].hash.Some?)
      && Total(PaidTotals(db)) == Total(HashAmounts(env, db))
  {
    InitialIsInv(env, s);
    RunKeepsInv(env, s, run);
    var e := After(env, s, run);
    forall o | o in e.db.orders && e.db.orders[o].hash.Some?
      ensures ReachedWallet(env, env.chain(e.db.orders[o].hash.value), e.db.orders[o].total)
    {
      assert OrderPaid(env, e.db.orders[o]);
      AcceptedMeans(env, e.db.orders[o].hash.value, e.db.orders[o].total);
    }
    forall o | o in e.db.orders ensures OrderPaid(env, e.db.orders[o]) {}
    PaymentsBalance(env, e.db);
  }

  /** Every order's total is the sum of its lines. */
  lemma TotalsMatchLines(env: Env, s: State, run: seq<Action>, o: OrderId)
    requires Initial(env, s) && Possible(env, s, run) && o in After(env, s, run).db.orders
    ensures After(env, s, run).db.orders[o].total == LineTotal(After(env, s, run).db.lines, o)
  {
    InitialIsInv(env, s);
    RunKeepsInv(env, s, run);
  }

  // ----- refinement: the interleaved protocol does only what the atomic operations do -----

  ghost predicate AtomicStep(env: Env, s: State, a: Action, db': Db)
    requires Enabled(s, a)
  {
    if Admin(a) then db' == AdminStep(s, a).db
    else if !a.Commit? then db' == s.db
    else match s.txs[a.t].job
      case Buying(p, _, _) =>
        && Placeable(s.db, p) && Stocked(s.db.items, p.cart) && db' == PlaceOrder(s.db, p)
        && AllBuyable(s.db, p) && Booked(s.db, p, CartTotal(s.db.items, p.cart), db')
      case Confirming(c, _) => Confirmable(env, s.db, c) && Settles(env, s.db, c) && db' == Confirm(s.db, c)
      case Sweeping(cutoff, at) =>
        && at.Restoring?
        && (forall o :: o in at.done ==>
          o in s.db.orders && s.db.orders[o].status == Pending && s.db.orders[o].createdOn < cutoff)
        && db' == Release(s.db, at.done, Expired) && Reverted(s.db, at.done, db')
  }

  /**
   * Each step changes the committed tables as one atomic operation run on them at that
   * moment, or not at all. In particular a checkout that fails changes nothing, and a
   * sweep takes back only orders still pending and older than its cutoff.
   */
  lemma EveryStepIsAtomic(env: Env, s: State, a: Action)
    requires Inv(env, s) && Enabled(s, a)
    ensures AtomicStep(env, s, a, Do(env, s, a).db)
  {
    if !Admin(a) && a.Commit? {
      var tx := s.txs[a.t];
      assert TxOk(env, s.db, tx);
      match tx.job
      case Buying(p, _, _) =>
        CheckoutCommitIsAtomic(s.db, tx);
        PlacedIsBooked(s.db, p);
        FirstFaultMeans(s.db, p);
      case Confirming(c, _) =>
        ConfirmCommitIsAtomic(env, s.db, tx);
        ConfirmableMeans(env, s.db, c);
      case Sweeping(_, at) =>
        SweepCommitIsAtomic(s.db, tx);
        ReleaseMeans(s.db, at.done);
    }
  }

  /** The three `RowsAffected() == 0` branches are never taken in any run. */
  lemma GuardedUpdatesAlwaysHit(env: Env, s: State, run: seq<Action>, t: TxId)
    requires Initial(env, s) && Possible(env, s, run) && t in After(env, s, run).txs
    ensures var e := After(env, s, run); var tx := e.txs[t];
      && (tx.job.Buying? && tx.job.buyAt.Writing? && tx.job.buyAt.n < |tx.job.p.cart| ==> DecrementHits(e.db, tx))
      && (tx.job.Confirming? && tx.job.confirmAt.Verified? ==> ConfirmHits(e.db, tx))
      && (tx.job.Sweeping? && tx.job.sweepAt.Restoring? ==> forall o :: o in tx.job.sweepAt.left ==>
        ExpireHits(e.db, tx, o))
  {
    InitialIsInv(env, s);
    RunKeepsInv(env, s, run);
    var e := After(env, s, run);
    var tx := e.txs[t];
    assert TxOk(env, e.db, tx);
    if tx.job.Buying? && tx.job.buyAt.Writing? && tx.job.buyAt.n < |tx.job.p.cart| {
      DecrementAlwaysHits(e.db, tx);
    }
    if tx.job.Sweeping? && tx.job.sweepAt.Restoring? {
      forall o | o in tx.job.sweepAt.left ensures ExpireHits(e.db, tx, o) { ExpireAlwaysHits(e.db, tx, o); }
    }
  }

  // ----- stock comes back at most once -----

  ghost predicate Releases(env: Env, s: State, a: Action, o: OrderId)
    requires Enabled(s, a)
  {
    var db' := Do(env, s, a).db;
    o in s.db.orders && Holds(s.db.orders[o].status) && o in db'.orders && !Holds(db'.orders[o].status)
  }

  /** How often order `o`'s stock is returned in a run. */
  ghost function Releasings(env: Env, s: State, run: seq<Action>, o: OrderId): nat
    requires Possible(env, s, run)
    decreases |run|
  {
    if run == [] then 0
    else (if Releases(env, s, run[0], o) then 1 else 0) + Releasings(env, Do(env, s, run[0]), run[1..], o)
  }

  lemma AtomicStepKeepsReleased(env: Env, s: State, a: Action, db': Db, o: OrderId)
    requires Enabled(s, a) && AtomicStep(env, s, a, db')
    requires o in s.db.orders && !Holds(s.db.orders[o].status)
    ensures o in db'.orders && !Holds(db'.orders[o].status)
  {}

  lemma ReleasedStays(env: Env, s: State, a: Action, o: OrderId)
    requires Inv(env, s) && Enabled(s, a) && o in s.db.orders && !Holds(s.db.orders[o].status)
    ensures o in Do(env, s, a).db.orders && !Holds(Do(env, s, a).db.orders[o].status)
  {
    EveryStepIsAtomic(env, s, a);
    AtomicStepKeepsReleased(env, s, a, Do(env, s, a).db, o);
  }

  lemma {:induction false} NeverAgain(env: Env, s: State, run: seq<Action>, o: OrderId)
    requires Inv(env, s) && Possible(env, s, run) && o in s.db.orders && !Holds(s.db.orders[o].status)
    ensures Releasings(env, s, run, o) == 0
    decreases |run|
  {
    if run == [] {
    } else {
      StepKeepsInv(env, s, run[0]);
      ReleasedStays(env, s, run[0], o);
      NeverAgain(env, Do(env, s, run[0]), run[1..], o);
    }
  }

  lemma {:induction false} ReleasedAtMostOnce(env: Env, s: State, run: seq<Action>, o: OrderId)
    requires Inv(env, s) && Possible(env, s, run)
    ensures Releasings(env, s, run, o) <= 1
    decreases |run|
  {
    if run == [] {
    } else {
      StepKeepsInv(env, s, run[0]);
      if Releases(env, s, run[0], o) {
        NeverAgain(env, Do(env, s, run[0]), run[1..], o);
      } else {
        ReleasedAtMostOnce(env, Do(env, s, run[0]), run[1..], o);
      }
    }
  }

  /** In any run an order's stock comes back at most once ... */
  lemma StockComesBackOnce(env: Env, s: State, run: seq<Action>, o: OrderId)
    requires Initial(env, s) && Possible(env, s, run)
    ensures Releasings(env, s, run, o) <= 1
  {
    InitialIsInv(env, s);
    ReleasedAtMostOnce(env, s, run, o);
  }

  /** ... a sweep never takes it from a confirmed order ... */
  lemma SweepSparesConfirmed(env: Env, s: State, a: Action, o: OrderId)
    requires Inv(env, s) && a.Commit? && Enabled(s, a) && s.txs[a.t].job.Sweeping?
    requires o in s.db.orders && !s.db.orders[o].status.Pending?
    ensures o in Do(env, s, a).db.orders && Do(env, s, a).db.orders[o] == s.db.orders[o]
  {
    EveryStepIsAtomic(env, s, a);
  }

  /** ... and an order being confirmed is skipped by every sweep. */
  lemma ConfirmingOrderIsSkipped(env: Env, s: State, run: seq<Action>, t: TxId, u: TxId)
    requires Initial(env, s) && Possible(env, s, run)
    requires var e := After(env, s, run); t in e.txs && u in e.txs
    requires var at := After(env, s, run).txs[t].job;
      at.Confirming? && (at.confirmAt.Locked? || at.confirmAt.HashFree? || at.confirmAt.Verified? ||
        at.confirmAt.Updated?)
    requires After(env, s, run).txs[u].job.Sweeping?
    ensures After(env, s, run).txs[t].job.c.orderId !in After(env, s, run).txs[u].heldOrders
  {
    InitialIsInv(env, s);
    RunKeepsInv(env, s, run);
    var e := After(env, s, run);
    assert TxOk(env, e.db, e.txs[t]) && Disjoint(e.txs[t], e.txs[u]);
    assert e.txs[t].job.c.orderId in e.txs[t].heldOrders;
  }

  // ----- idempotent checkout -----

  /** After any run, two successful checkouts of one user under one key were told the same order and total. */
  lemma SameKeySameAnswer(env: Env, s: State, run: seq<Action>, t: TxId, u: TxId)
    requires Initial(env, s) && Possible(env, s, run)
    requires var e := After(env, s, run); t in e.txs && u in e.txs
    requires var e := After(env, s, run); var a, b := e.txs[t].job, e.txs[u].job;
      && a.Buying? && a.buyAt.Bought? && a.buyAt.outcome.Placed?
      && b.Buying? && b.buyAt.Bought? && b.buyAt.outcome.Placed?
      && a.p.user == b.p.user && a.p.key == b.p.key != ""
    ensures After(env, s, run).txs[t].job.buyAt.outcome == After(env, s, run).txs[u].job.buyAt.outcome
  {
    InitialIsInv(env, s);
    RunKeepsInv(env, s, run);
    var e := After(env, s, run);
    assert TxOk(env, e.db, e.txs[t]) && TxOk(env, e.db, e.txs[u]);
  }

  lemma OverStays(env: Env, s: State, a: Action, t: TxId)
    requires Enabled(s, a) && t in s.txs && Over(s.txs[t])
    ensures t in Do(env, s, a).txs && Do(env, s, a).txs[t] == s.txs[t] && a != Commit(t)
  {
    if !Admin(a) && !Begins(a) && a.t == t { OverIsStuck(s, a, t); }
  }

  lemma OverIsStuck(s: State, a: Action, t: TxId)
    requires t in s.txs && Over(s.txs[t]) && !Admin(a) && !Begins(a) && a.t == t
    ensures !Enabled(s, a)
  {}

  /** A transaction that is over never moves or commits again. */
  lemma {:induction false} OverIsFinal(env: Env, s: State, run: seq<Action>, t: TxId)
    requires Possible(env, s, run) && t in s.txs && Over(s.txs[t])
    ensures t in After(env, s, run).txs && After(env, s, run).txs[t] == s.txs[t]
    ensures Commit(t) !in run
    decreases |run|
  {
    if run == [] {
    } else {
      OverStays(env, s, run[0], t);
      OverIsFinal(env, Do(env, s, run[0]), run[1..], t);
      assert run == [run[0]] + run[1..];
    }
  }

  lemma {:induction false} CommittersCreated(env: Env, s: State, run: seq<Action>, t: TxId)
    requires Possible(env, s, run) && Commit(t) in run && t in After(env, s, run).txs
    ensures var job := After(env, s, run).txs[t].job;
      job.Buying? ==> job.buyAt.Bought? && job.buyAt.outcome.Placed? && job.buyAt.outcome.orderId == job.p.orderId
    decreases |run|
  {
    var s' := Do(env, s, run[0]);
    if run[0] == Commit(t) {
      OverIsFinal(env, s', run[1..], t);
    } else {
      assert run == [run[0]] + run[1..];
      CommittersCreated(env, s', run[1..], t);
    }
  }

  /**
   * Only the creator of an order writes: a checkout that was rejected, rolled back, or
   * answered with another request's order has committed nothing in the whole run.
   */
  lemma OnlyTheCreatorWrites(env: Env, s: State, run: seq<Action>, t: TxId)
    requires Initial(env, s) && Possible(env, s, run) && t in After(env, s, run).txs
    requires var job := After(env, s, run).txs[t].job;
      job.Buying? && !(job.buyAt.Bought? && job.buyAt.outcome.Placed? && job.buyAt.outcome.orderId == job.p.orderId)
    ensures Commit(t) !in run
  {
    if Commit(t) in run { CommittersCreated(env, s, run, t); }
  }
}
