/** The shop protocol's results over every run. */
module ShopRuns {
  import opened Text
  import opened Sums
  import opened Money
  import opened ShopTables
  import opened ShopInvariants
  import opened ShopProtocol
  import opened ShopTxInvariant
  import opened ShopSafety

  ghost predicate AllOk(env: Env, db: Db, txs: map<TxId, Tx>) {
    forall t :: t in txs ==> TxOk(env, db, txs[t])
  }

  ghost predicate AllDisjoint(txs: map<TxId, Tx>) {
    forall t, u :: t in txs && u in txs && t != u ==> Disjoint(txs[t], txs[u])
  }

  ghost predicate Inv(env: Env, s: State) {
    Rounding(env.fl) && Sound(env, s.db, s.supply) && AllOk(env, s.db, s.txs) && AllDisjoint(s.txs)
  }

  // ----- steps of one transaction -----

  lemma BuyStepOk(env: Env, s: State, a: Action, tx: Tx)
    requires BuyEnabled(s, a, tx) && BuyOk(s.db, tx)
    ensures BuyStep(s, a, tx).job.Buying? && BuyOk(s.db, BuyStep(s, a, tx))
  {
    match a
    case LookUp(_, order) => LookUpKeepsOk(s.db, tx, order);
    case Lock(_) => if tx.job.buyAt.todo != [] { LockKeepsOk(env, s.db, tx); }
    case Check(_) => CheckKeepsOk(s.db, tx);
    case Insert(_) => InsertKeepsOk(s.db, tx);
    case Read(_) => ReadKeepsOk(s.db, tx);
    case Write(_) => WriteKeepsOk(s.db, tx);
  }

  lemma ConfirmStepOk(env: Env, s: State, a: Action, tx: Tx)
    requires Rounding(env.fl) && OrdersSound(env, s.db)
    requires ConfirmEnabled(s, a, tx) && ConfirmOk(env, s.db, tx)
    ensures ConfirmStep(env, s, a, tx).job.Confirming? && ConfirmOk(env, s.db, ConfirmStep(env, s, a, tx))
  {
    match a
    case LockRow(_) => LockRowKeepsOk(env, s.db, tx);
    case TestHash(_) =>
    case VerifyOnChain(_) => VerifyKeepsOk(env, s.db, tx);
    case Update(_) => UpdateKeepsOk(env, s.db, tx);
  }

  lemma SweepStepOk(s: State, a: Action, tx: Tx)
    requires LinesLinked(s.db) && SweepEnabled(s, a, tx) && SweepOk(s.db, tx)
    ensures SweepStep(s, a, tx).job.Sweeping? && SweepOk(s.db, SweepStep(s, a, tx))
  {
    match a
    case Select(_, o) =>
    case EndSelect(_) => StartRestoringKeepsOk(s.db, tx);
    case Expire(_, o) => ExpireKeepsOk(s.db, tx, o);
    case Return(_, i) => ReturnKeepsOk(s.db, tx, i);
    case Next(_) => NextKeepsOk(s.db, tx);
  }

  predicate Local(a: Action) { !Admin(a) && !Begins(a) && !a.Commit? }

  lemma StepTxOk(env: Env, s: State, a: Action)
    requires Rounding(env.fl) && Sound(env, s.db, s.supply)
    requires Local(a) && Enabled(s, a) && TxOk(env, s.db, s.txs[a.t])
    ensures TxOk(env, s.db, StepTx(env, s, a))
  {
    var tx := s.txs[a.t];
    if a.Rollback? {
    } else if BuyEnabled(s, a, tx) {
      BuyStepOk(env, s, a, tx);
    } else if ConfirmEnabled(s, a, tx) {
      ConfirmStepOk(env, s, a, tx);
    } else {
      SweepStepOk(s, a, tx);
    }
  }

  /** A step of `a` locks nothing another transaction has locked. */
  lemma BuyStepDisjoint(s: State, a: Action, tx: Tx, u: TxId)
    requires BuyEnabled(s, a, tx) && !Over(tx) && u in s.txs && u != a.t && Disjoint(tx, s.txs[u])
    ensures Disjoint(BuyStep(s, a, tx), s.txs[u]) && Disjoint(s.txs[u], BuyStep(s, a, tx))
  {}

  lemma ConfirmStepDisjoint(env: Env, s: State, a: Action, tx: Tx, u: TxId)
    requires ConfirmEnabled(s, a, tx) && !Over(tx) && u in s.txs && u != a.t && Disjoint(tx, s.txs[u])
    ensures Disjoint(ConfirmStep(env, s, a, tx), s.txs[u]) && Disjoint(s.txs[u], ConfirmStep(env, s, a, tx))
  {}

  lemma SweepStepDisjoint(s: State, a: Action, tx: Tx, u: TxId)
    requires SweepEnabled(s, a, tx) && !Over(tx) && u in s.txs && u != a.t && Disjoint(tx, s.txs[u])
    ensures Disjoint(SweepStep(s, a, tx), s.txs[u]) && Disjoint(s.txs[u], SweepStep(s, a, tx))
  {}

  lemma StepTxDisjoint(env: Env, s: State, a: Action, u: TxId)
    requires Local(a) && Enabled(s, a) && u in s.txs && u != a.t && Disjoint(s.txs[a.t], s.txs[u])
    ensures Disjoint(StepTx(env, s, a), s.txs[u]) && Disjoint(s.txs[u], StepTx(env, s, a))
  {
    var tx := s.txs[a.t];
    if a.Rollback? {
    } else if BuyEnabled(s, a, tx) {
      BuyStepDisjoint(s, a, tx, u);
    } else if ConfirmEnabled(s, a, tx) {
      ConfirmStepDisjoint(env, s, a, tx, u);
    } else {
      SweepStepDisjoint(s, a, tx, u);
    }
  }

  lemma OneMoved(env: Env, db: Db, txs: map<TxId, Tx>, t: TxId, tx: Tx)
    requires AllOk(env, db, txs) && AllDisjoint(txs) && TxOk(env, db, tx)
    requires forall u :: u in txs && u != t ==> Disjoint(tx, txs[u]) && Disjoint(txs[u], tx)
    ensures AllOk(env, db, txs[t := tx]) && AllDisjoint(txs[t := tx])
  {}

  lemma LocalKeepsInv(env: Env, s: State, a: Action)
    requires Inv(env, s) && Local(a) && Enabled(s, a)
    ensures Inv(env, Do(env, s, a))
  {
    StepTxOk(env, s, a);
    forall u | u in s.txs && u != a.t
      ensures Disjoint(StepTx(env, s, a), s.txs[u]) && Disjoint(s.txs[u], StepTx(env, s, a))
    {
      StepTxDisjoint(env, s, a, u);
    }
    OneMoved(env, s.db, s.txs, a.t, StepTx(env, s, a));
  }

  lemma FreshIsOk(env: Env, db: Db, a: Action)
    requires Begins(a) && (a.BeginCheckout? ==> ValidCart(a.p.cart) && a.p.orderId !in db.orders)
    ensures TxOk(env, db, Fresh(env, a))
  {}

  lemma FreshIsDisjoint(env: Env, s: State, a: Action, u: TxId)
    requires Begins(a) && Begun(s, a) && u in s.txs
    ensures Disjoint(Fresh(env, a), s.txs[u]) && Disjoint(s.txs[u], Fresh(env, a))
  {}

  lemma BeginKeepsInv(env: Env, s: State, a: Action)
    requires Inv(env, s) && Begins(a) && Enabled(s, a)
    ensures Inv(env, Do(env, s, a))
  {
    FreshIsOk(env, s.db, a);
    forall u | u in s.txs && u != a.t ensures Disjoint(Fresh(env, a), s.txs[u]) && Disjoint(s.txs[u], Fresh(env, a)) {
      FreshIsDisjoint(env, s, a, u);
    }
    OneMoved(env, s.db, s.txs, a.t, Fresh(env, a));
  }

  // ----- commits -----

  lemma CommitKeepsSound(env: Env, db: Db, supply: map<ItemId, int>, tx: Tx)
    requires Sound(env, db, supply) && TxOk(env, db, tx) && Committable(tx)
    ensures Sound(env, Apply(db, tx.writes), supply)
  {
    match tx.job
    case Buying(p, _, _) =>
      CheckoutCommitIsAtomic(db, tx);
      PlaceOrderKeepsSound(env, db, supply, p);
    case Confirming(c, _) =>
      ConfirmCommitIsAtomic(env, db, tx);
      ConfirmKeepsSound(env, db, supply, c);
    case Sweeping(_, _) =>
      SweepCommitIsAtomic(db, tx);
      ReleaseKeepsSound(env, db, supply, tx.heldOrders, Expired);
  }

  lemma CommittedOk(env: Env, db: Db, tx: Tx)
    requires TxOk(env, db, tx) && Committable(tx)
    ensures TxOk(env, Apply(db, tx.writes), Committed(tx))
  {
    if tx.job.Buying? { CheckoutCommitIsAtomic(db, tx); }
  }

  lemma OthersOkAfterCommit(env: Env, db: Db, a: Tx, b: Tx)
    requires LinesLinked(db) && OrdersSound(env, db) && TxOk(env, db, a) && Committable(a)
    requires TxOk(env, db, b) && Disjoint(a, b)
    ensures TxOk(env, Apply(db, a.writes), b)
  {
    CommitDisturbsNoOther(env, db, a, b);
    TxUndisturbed(env, db, Apply(db, a.writes), b);
  }

  lemma FinishedDisjoint(a: Tx, b: Tx)
    requires Committable(a) && Disjoint(a, b)
    ensures Disjoint(Committed(a), b) && Disjoint(b, Committed(a))
  {}

  lemma CommitKeepsOk(env: Env, s: State, t: TxId)
    requires LinesLinked(s.db) && OrdersSound(env, s.db) && AllOk(env, s.db, s.txs) && AllDisjoint(s.txs)
    requires t in s.txs && Committable(s.txs[t])
    ensures AllOk(env, Apply(s.db, s.txs[t].writes), s.txs[t := Committed(s.txs[t])])
  {
    CommittedOk(env, s.db, s.txs[t]);
    forall u | u in s.txs && u != t ensures TxOk(env, Apply(s.db, s.txs[t].writes), s.txs[u]) {
      OthersOkAfterCommit(env, s.db, s.txs[t], s.txs[u]);
    }
  }

  lemma CommitKeepsDisjoint(txs: map<TxId, Tx>, t: TxId)
    requires AllDisjoint(txs) && t in txs && Committable(txs[t])
    ensures AllDisjoint(txs[t := Committed(txs[t])])
  {
    forall u | u in txs && u != t
      ensures Disjoint(Committed(txs[t]), txs[u]) && Disjoint(txs[u], Committed(txs[t]))
    {
      FinishedDisjoint(txs[t], txs[u]);
    }
  }

  lemma CommitKeepsInv(env: Env, s: State, a: Action)
    requires Inv(env, s) && a.Commit? && Enabled(s, a)
    ensures Inv(env, Do(env, s, a))
  {
    CommitKeepsSound(env, s.db, s.supply, s.txs[a.t]);
    CommitKeepsOk(env, s, a.t);
    CommitKeepsDisjoint(s.txs, a.t);
  }

  // ----- the organizer -----

  lemma ReversedItems(db: Db, o: OrderId, i: ItemId)
    requires i !in ItemsOf(db.lines, o)
    ensures Returned(db.lines, {o}, i) == 0
  {
    QtyOutside(db.lines, o, i);
    TotalZero(ReturnedRows(db.lines, {o}, i));
  }

  lemma FulfilUndisturbs(db: Db, o: OrderId, tx: Tx)
    requires o in db.orders && db.orders[o].status.Confirmed? && o !in tx.heldOrders
    requires tx.job.Buying? && !Over(tx) ==> tx.job.p.orderId !in db.orders
    ensures Undisturbed(db, Fulfil(db, o), tx)
  {
    SameHolders(db, Fulfil(db, o));
  }

  lemma EditUndisturbs(db: Db, i: ItemId, price: nat, visible: bool, event: Option<string>, added: int, tx: Tx)
    requires i in db.items && i !in tx.heldItems
    requires tx.job.Buying? && !Over(tx) ==> tx.job.p.orderId !in db.orders
    ensures Undisturbed(db, EditItem(db, i, price, visible, event, added), tx)
  {
    SameHolders(db, EditItem(db, i, price, visible, event, added));
  }

  lemma ReverseUndisturbs(env: Env, db: Db, o: OrderId, final: Status, tx: Tx)
    requires LinesLinked(db) && o in db.orders && Holds(db.orders[o].status) && !Holds(final)
    requires TxOk(env, db, tx) && o !in tx.heldOrders && tx.heldItems !! ItemsOf(db.lines, o)
    ensures Undisturbed(db, Release(db, {o}, final), tx)
  {
    forall i | i in tx.heldItems && i in db.items ensures Returned(db.lines, {o}, i) == 0 {
      ReversedItems(db, o, i);
    }
    ReleaseDisturbsNoOther(env, db, {o}, final, tx);
  }

  lemma AdminUndisturbs(env: Env, s: State, a: Action, u: TxId)
    requires LinesLinked(s.db) && Admin(a) && AdminEnabled(s, a) && u in s.txs && TxOk(env, s.db, s.txs[u])
    ensures Undisturbed(s.db, AdminStep(s, a).db, s.txs[u])
  {
    match a
    case AdminFulfil(o) => FulfilUndisturbs(s.db, o, s.txs[u]);
    case AdminReverse(o, final) => ReverseUndisturbs(env, s.db, o, final, s.txs[u]);
    case AdminEdit(i, price, visible, event, added) =>
      EditUndisturbs(s.db, i, price, visible, event, added, s.txs[u]);
  }

  lemma AdminKeepsSound(env: Env, s: State, a: Action)
    requires Inv(env, s) && Admin(a) && Enabled(s, a)
    ensures Sound(env, AdminStep(s, a).db, AdminStep(s, a).supply)
  {
    match a
    case AdminFulfil(o) => FulfilKeepsSound(env, s.db, s.supply, o);
    case AdminReverse(o, final) => ReleaseKeepsSound(env, s.db, s.supply, {o}, final);
    case AdminEdit(i, price, visible, event, added) =>
      EditKeepsSound(env, s.db, s.supply, i, price, visible, event, added);
  }

  lemma AdminKeepsInv(env: Env, s: State, a: Action)
    requires Inv(env, s) && Admin(a) && Enabled(s, a)
    ensures Inv(env, Do(env, s, a))
  {
    AdminKeepsSound(env, s, a);
    forall u | u in s.txs ensures TxOk(env, AdminStep(s, a).db, s.txs[u]) {
      AdminUndisturbs(env, s, a, u);
      TxUndisturbed(env, s.db, AdminStep(s, a).db, s.txs[u]);
    }
  }

  // ----- runs -----

  lemma StepKeepsInv(env: Env, s: State, a: Action)
    requires Inv(env, s) && Enabled(s, a)
    ensures Inv(env, Do(env, s, a))
  {
    if Admin(a) { AdminKeepsInv(env, s, a); }
    else if Begins(a) { BeginKeepsInv(env, s, a); }
    else if a.Commit? { CommitKeepsInv(env, s, a); }
    else { LocalKeepsInv(env, s, a); }
  }

  lemma {:induction false} RunKeepsInv(env: Env, s: State, run: seq<Action>)
    requires Inv(env, s) && Possible(env, s, run)
    ensures Inv(env, After(env, s, run))
    decreases |run|
  {
    if run == [] {
    } else {
      StepKeepsInv(env, s, run[0]);
      RunKeepsInv(env, Do(env, s, run[0]), run[1..]);
    }
  }

  lemma InitialIsInv(env: Env, s: State)
    requires Initial(env, s)
    ensures Inv(env, s)
  {}

  // ----- building runs -----

  lemma {:induction false} Then(env: Env, s: State, run: seq<Action>, a: Action) returns (longer: seq<Action>)
    requires Possible(env, s, run) && Enabled(After(env, s, run), a)
    ensures longer == run + [a] && Possible(env, s, longer) && After(env, s, longer) == Do(env, After(env, s, run), a)
    decreases |run|
  {
    longer := run + [a];
    if run == [] {
    } else {
      var rest := Then(env, Do(env, s, run[0]), run[1..], a);
      assert longer[1..] == rest;
    }
  }

  lemma Prepend(env: Env, s: State, a: Action, rest: seq<Action>)
    requires Enabled(s, a) && Possible(env, Do(env, s, a), rest)
    ensures Possible(env, s, [a] + rest) && After(env, s, [a] + rest) == After(env, Do(env, s, a), rest)
  {
    assert ([a] + rest)[1..] == rest;
  }
}
