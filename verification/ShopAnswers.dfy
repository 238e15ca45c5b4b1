/** In every run, what a transaction tells its caller is true of the committed tables of that moment. */
module ShopAnswers {
  import opened Text
  import opened Money
  import opened ShopTables
  import opened ShopMeaning
  import opened ShopProtocol
  import opened ShopTxInvariant
  import opened ShopRuns
  import opened ShopTheorems
  import opened ShopReplay

  // ----- the order of a transaction's statements -----

  predicate BuyContinues(cart: seq<CartLine>, at: BuyAt, at': BuyAt) {
    match at
    case Replaying => at'.Locking? || (at'.Bought? && at'.outcome.Placed?)
    case Locking(todo) => if todo == [] then at' == Checking(0, 0) else at' == Locking(todo[1..])
    case Checking(n, total) =>
      if n < |cart| then (at'.Checking? && at'.n == n + 1) || (at'.Bought? && at'.outcome.Rejected?)
      else at' == Writing(0, total) || at'.Rereading? || at' == Bought(Rejected(TotalOutOfRange))
    case Writing(n, total) =>
      if n < |cart| then at' == Writing(n + 1, total)
      else at'.Bought? && at'.outcome.Placed? && at'.outcome.total == total
    case Rereading => at'.Bought?
    case _ => false
  }

  predicate ConfirmContinues(at: ConfirmAt, at': ConfirmAt) {
    match at
    case Opening => at'.Locked? || at'.Ended?
    case Locked(order) => at' == HashFree(order) || at' == Ended(HashUsed)
    case HashFree(order) => at' == Verified(order) || at' == Ended(PaymentRefused)
    case Verified(order) => at' == Updated(order) || at' == Ended(HashUsed)
    case Updated(_) => at' == Ended(Done)
    case _ => false
  }

  predicate SweepContinues(db: Db, held: set<OrderId>, at: SweepAt, at': SweepAt) {
    match at
    case Selecting => at'.Selecting? || at' == Restoring(held, {})
    case Restoring(left, done) =>
      if left == {} then at' == Swept(done)
      else
        at'.Returning? && at'.order in left &&
        at' == Returning(at'.order, ItemsOf(db.lines, at'.order), left - {at'.order}, done)
    case Returning(o, todo, left, done) =>
      if todo == {} then at' == Restoring(left, done + {o})
      else at'.Returning? && at' == Returning(o, at'.todo, left, done) && at'.todo < todo && |todo - at'.todo| == 1
    case _ => false
  }

  /** Where a transaction may be after its next statement, a rollback aside. */
  predicate Continues(db: Db, tx: Tx, job: Job) {
    match tx.job
    case Buying(p, at, _) => job.Buying? && job.p == p && BuyContinues(p.cart, at, job.buyAt)
    case Confirming(c, at) => job.Confirming? && job.c == c && ConfirmContinues(at, job.confirmAt)
    case Sweeping(cutoff, at) =>
      job.Sweeping? && job.cutoff == cutoff && SweepContinues(db, tx.heldOrders, at, job.sweepAt)
  }

  predicate Proceeds(a: Action) { !Admin(a) && !Begins(a) && !a.Rollback? }

  lemma BuyerMoves(env: Env, s: State, a: Action)
    requires Enabled(s, a) && Proceeds(a) && s.txs[a.t].job.Buying?
    ensures a.Commit? ==> Committable(s.txs[a.t]) && Do(env, s, a).txs[a.t] == Committed(s.txs[a.t])
    ensures !a.Commit? ==> BuyEnabled(s, a, s.txs[a.t]) && Do(env, s, a).txs[a.t] == BuyStep(s, a, s.txs[a.t])
  {}

  lemma BuyStepContinues(s: State, a: Action, tx: Tx)
    requires BuyEnabled(s, a, tx) && BuyOk(s.db, tx)
    ensures Continues(s.db, tx, BuyStep(s, a, tx).job)
  {
    if a.Write? { DecrementAlwaysHits(s.db, tx); }
  }

  lemma BuyingContinues(env: Env, s: State, a: Action)
    requires Inv(env, s) && Enabled(s, a) && Proceeds(a) && s.txs[a.t].job.Buying?
    ensures Continues(s.db, s.txs[a.t], Do(env, s, a).txs[a.t].job)
  {
    assert TxOk(env, s.db, s.txs[a.t]);
    BuyerMoves(env, s, a);
    if !a.Commit? { BuyStepContinues(s, a, s.txs[a.t]); }
  }

  lemma ConfirmerMoves(env: Env, s: State, a: Action)
    requires Enabled(s, a) && Proceeds(a) && s.txs[a.t].job.Confirming?
    ensures a.Commit? ==> Committable(s.txs[a.t]) && Do(env, s, a).txs[a.t] == Committed(s.txs[a.t])
    ensures !a.Commit? ==>
      ConfirmEnabled(s, a, s.txs[a.t]) && Do(env, s, a).txs[a.t] == ConfirmStep(env, s, a, s.txs[a.t])
  {}

  lemma ConfirmStepContinues(env: Env, s: State, a: Action, tx: Tx)
    requires ConfirmEnabled(s, a, tx) && ConfirmOk(env, s.db, tx)
    ensures Continues(s.db, tx, ConfirmStep(env, s, a, tx).job)
  {}

  lemma ConfirmingContinues(env: Env, s: State, a: Action)
    requires Inv(env, s) && Enabled(s, a) && Proceeds(a) && s.txs[a.t].job.Confirming?
    ensures Continues(s.db, s.txs[a.t], Do(env, s, a).txs[a.t].job)
  {
    assert TxOk(env, s.db, s.txs[a.t]);
    ConfirmerMoves(env, s, a);
    if !a.Commit? { ConfirmStepContinues(env, s, a, s.txs[a.t]); }
  }

  lemma SweeperMoves(env: Env, s: State, a: Action)
    requires Enabled(s, a) && Proceeds(a) && s.txs[a.t].job.Sweeping?
    ensures a.Commit? ==> Committable(s.txs[a.t]) && Do(env, s, a).txs[a.t] == Committed(s.txs[a.t])
    ensures !a.Commit? ==> SweepEnabled(s, a, s.txs[a.t]) && Do(env, s, a).txs[a.t] == SweepStep(s, a, s.txs[a.t])
  {}

  lemma SweepStepContinues(s: State, a: Action, tx: Tx)
    requires SweepEnabled(s, a, tx) && (a.Expire? ==> ExpireHits(s.db, tx, a.o))
    ensures Continues(s.db, tx, SweepStep(s, a, tx).job)
  {
    if a.Return? {
      var todo := tx.job.sweepAt.todo;
      assert todo - (todo - {a.i}) == {a.i};
    }
  }

  lemma SweepingContinues(env: Env, s: State, a: Action)
    requires Inv(env, s) && Enabled(s, a) && Proceeds(a) && s.txs[a.t].job.Sweeping?
    ensures Continues(s.db, s.txs[a.t], Do(env, s, a).txs[a.t].job)
  {
    assert TxOk(env, s.db, s.txs[a.t]);
    SweeperMoves(env, s, a);
    if !a.Commit? {
      if a.Expire? { ExpireAlwaysHits(s.db, s.txs[a.t], a.o); }
      SweepStepContinues(s, a, s.txs[a.t]);
    }
  }

  /**
   * In every run each step that is no rollback takes its transaction on along the code; none of the branches for a
   * guarded update that finds no row is ever taken.
   */
  lemma TransactionsFollowTheCode(env: Env, start: State, run: seq<Action>, a: Action)
    requires Initial(env, start) && Possible(env, start, run) && Enabled(After(env, start, run), a) && Proceeds(a)
    ensures var s := After(env, start, run); Continues(s.db, s.txs[a.t], Do(env, s, a).txs[a.t].job)
  {
    InitialIsInv(env, start);
    RunKeepsInv(env, start, run);
    var s := After(env, start, run);
    match s.txs[a.t].job
    case Buying(_, _, _) => BuyingContinues(env, s, a);
    case Confirming(_, _) => ConfirmingContinues(env, s, a);
    case Sweeping(_, _) => SweepingContinues(env, s, a);
  }

  /** And each step touches one transaction at most, one that begins doing so where its code begins. */
  lemma OneTransactionMoves(env: Env, s: State, a: Action, t: TxId)
    requires Enabled(s, a)
    ensures t in s.txs ==> t in Do(env, s, a).txs
    ensures t in s.txs && (Admin(a) || a.t != t) ==> Do(env, s, a).txs[t] == s.txs[t]
    ensures t !in s.txs && t in Do(env, s, a).txs ==> Begins(a) && a.t == t && Starts(env, a, Do(env, s, a).txs[t])
  {
    BlankIsEmpty(env.wallet);
  }

  predicate Starts(env: Env, a: Action, tx: Tx)
    requires Begins(a)
  {
    && tx.writes == NO_WRITES && tx.heldItems == {} && tx.heldOrders == {}
    && match a
       case BeginCheckout(_, p) => tx.job == Buying(p, Replaying, map[])
       case BeginConfirm(_, c) =>
         tx.job == Confirming(c, if Blank(env.wallet) then Ended(WalletNotConfigured) else Opening)
       case BeginSweep(_, cutoff) => tx.job == Sweeping(cutoff, Selecting)
  }

  // ----- what a statement waits for -----

  predicate HoldsItem(tx: Tx, i: ItemId) { i in tx.heldItems }

  predicate HoldsOrder(tx: Tx, o: OrderId) { o in tx.heldOrders }

  /** It has inserted, and not committed, an order of this user under this key. */
  predicate HasInserted(tx: Tx, user: string, key: string) {
    key != "" && tx.job.Buying? && tx.job.p.user == user && tx.job.p.key == key && tx.job.buyAt.Writing?
  }

  /** It has set, and not committed, this hash. */
  predicate HasSet(tx: Tx, hash: string) {
    tx.job.Confirming? && tx.job.c.hash == hash && tx.job.confirmAt.Updated?
  }

  /** Statements of a checkout wait for item rows and for a rival's key, and for nothing else. */
  lemma CheckoutWaitsExactly(s: State, t: TxId)
    requires t in s.txs && s.txs[t].job.Buying?
    ensures s.txs[t].job.buyAt.Locking? ==>
      var todo := s.txs[t].job.buyAt.todo;
      (Enabled(s, Lock(t)) <==>
        todo == [] || !OnSale(s.db, s.txs[t].job.p.event, todo[0]) ||
        forall u :: u in s.txs && u != t ==> !HoldsItem(s.txs[u], todo[0]))
    ensures s.txs[t].job.buyAt.Checking? ==>
      var n, total, p := s.txs[t].job.buyAt.n, s.txs[t].job.buyAt.total, s.txs[t].job.p;
      && (Enabled(s, Check(t)) <==> n < |p.cart|)
      && (Enabled(s, Insert(t)) <==>
           n == |p.cart| &&
           (total < 10_000_000_000 ==> forall u :: u in s.txs && u != t ==> !HasInserted(s.txs[u], p.user, p.key)))
    ensures s.txs[t].job.buyAt.Writing? ==>
      && (Enabled(s, Write(t)) <==> s.txs[t].job.buyAt.n < |s.txs[t].job.p.cart|)
      && (Enabled(s, Commit(t)) <==> s.txs[t].job.buyAt.n == |s.txs[t].job.p.cart|)
    ensures s.txs[t].job.buyAt.Rereading? ==> Enabled(s, Read(t))
  {
    var p := s.txs[t].job.p;
    assert forall u :: u in s.txs ==> (HasInserted(s.txs[u], p.user, p.key) <==> InsertsKey(s.txs[u], p.user, p.key));
  }

  /** Those of a confirmation wait for the order row and for a rival's hash ... */
  lemma ConfirmationWaitsExactly(s: State, t: TxId)
    requires t in s.txs && s.txs[t].job.Confirming?
    ensures s.txs[t].job.confirmAt.Opening? ==>
      (Enabled(s, LockRow(t)) <==>
        s.txs[t].job.c.orderId !in s.db.orders ||
        forall u :: u in s.txs && u != t ==> !HoldsOrder(s.txs[u], s.txs[t].job.c.orderId))
    ensures s.txs[t].job.confirmAt.Locked? ==> Enabled(s, TestHash(t))
    ensures s.txs[t].job.confirmAt.HashFree? ==> Enabled(s, VerifyOnChain(t))
    ensures s.txs[t].job.confirmAt.Verified? ==>
      (Enabled(s, Update(t)) <==> forall u :: u in s.txs && u != t ==> !HasSet(s.txs[u], s.txs[t].job.c.hash))
    ensures s.txs[t].job.confirmAt.Updated? ==> Enabled(s, Commit(t))
  {
    var hash := s.txs[t].job.c.hash;
    assert forall u :: u in s.txs ==> (HasSet(s.txs[u], hash) <==> SetsHash(s.txs[u], hash));
  }

  /** ... and a sweep selects what nobody holds and waits for item rows only. */
  lemma SweepWaitsExactly(s: State, t: TxId, o: OrderId, i: ItemId)
    requires t in s.txs && s.txs[t].job.Sweeping?
    ensures s.txs[t].job.sweepAt.Selecting? ==>
      && Enabled(s, EndSelect(t))
      && (Enabled(s, Select(t, o)) <==>
           && o in s.db.orders && s.db.orders[o].status == Pending && s.db.orders[o].createdOn < s.txs[t].job.cutoff
           && forall u :: u in s.txs && u != t ==> !HoldsOrder(s.txs[u], o))
    ensures s.txs[t].job.sweepAt.Restoring? ==>
      && (Enabled(s, Expire(t, o)) <==> o in s.txs[t].job.sweepAt.left)
      && (Enabled(s, Commit(t)) <==> s.txs[t].job.sweepAt.left == {})
    ensures s.txs[t].job.sweepAt.Returning? ==>
      && (Enabled(s, Return(t, i)) <==>
           i in s.txs[t].job.sweepAt.todo && forall u :: u in s.txs && u != t ==> !HoldsItem(s.txs[u], i))
      && (Enabled(s, Next(t)) <==> s.txs[t].job.sweepAt.todo == {})
  {
    assert forall u :: u in s.txs ==> (HoldsOrder(s.txs[u], o) <==> o in s.txs[u].heldOrders);
    assert forall u :: u in s.txs ==> (HoldsItem(s.txs[u], i) <==> i in s.txs[u].heldItems);
  }

  // ----- confirmations -----

  predicate OwnPending(db: Db, c: ConfirmParams) {
    c.orderId in db.orders && db.orders[c.orderId].user == c.user && db.orders[c.orderId].status == Pending
  }

  ghost predicate UsedElsewhere(db: Db, c: ConfirmParams) {
    exists o :: o in db.orders && o != c.orderId && db.orders[o].hash == Some(c.hash)
  }

  /** What a refused confirmation was told, on the tables it met. */
  ghost predicate TrueRefusal(env: Env, db: Db, c: ConfirmParams, outcome: ConfirmOutcome) {
    match outcome
    case NotFound => c.orderId !in db.orders
    case NotOwned => c.orderId in db.orders && db.orders[c.orderId].user != c.user
    case NotPending =>
      c.orderId in db.orders && db.orders[c.orderId].user == c.user && db.orders[c.orderId].status != Pending
    case HashUsed => OwnPending(db, c) && UsedElsewhere(db, c)
    case PaymentRefused =>
      OwnPending(db, c) && !ReachedWallet(env, env.chain(c.hash), db.orders[c.orderId].total)
    case _ => false
  }

  /** Whether the step has nothing to refuse. */
  ghost predicate MayGoOn(env: Env, db: Db, c: ConfirmParams, a: Action) {
    match a
    case LockRow(_) => OwnPending(db, c)
    case TestHash(_) => !UsedElsewhere(db, c)
    case VerifyOnChain(_) => OwnPending(db, c) && ReachedWallet(env, env.chain(c.hash), db.orders[c.orderId].total)
    case Update(_) => !UsedElsewhere(db, c)
    case _ => true
  }

  predicate Asks(a: Action) { a.LockRow? || a.TestHash? || a.VerifyOnChain? || a.Update? }

  /** The step ends the confirmation exactly when there is something to refuse, and then says what. */
  ghost predicate ConfirmSpeaksTrue(env: Env, db: Db, a: Action, c: ConfirmParams, after: Job) {
    && after.Confirming? && after.c == c
    && (after.confirmAt.Ended? <==> !MayGoOn(env, db, c, a))
    && (after.confirmAt.Ended? ==> TrueRefusal(env, db, c, after.confirmAt.outcome))
  }

  lemma LockSpeaksTrue(env: Env, db: Db, t: TxId, tx: Tx)
    requires tx.job.Confirming? && tx.job.confirmAt.Opening?
    ensures ConfirmSpeaksTrue(env, db, LockRow(t), tx.job.c, LockOrderRow(db, tx).job)
  {}

  lemma TestSpeaksTrue(env: Env, db: Db, t: TxId, tx: Tx)
    requires tx.job.Confirming? && tx.job.confirmAt.Locked? && OrderRead(db, tx, tx.job.confirmAt.order)
    ensures ConfirmSpeaksTrue(env, db, TestHash(t), tx.job.c, CheckHash(db, tx).job)
  {
    assert UsedElsewhere(db, tx.job.c) <==>
      exists o :: o in db.orders && o != tx.job.c.orderId && db.orders[o].hash == Some(tx.job.c.hash);
  }

  lemma VerifySpeaksTrue(env: Env, db: Db, t: TxId, tx: Tx)
    requires Rounding(env.fl) && OrdersSound(env, db)
    requires tx.job.Confirming? && tx.job.confirmAt.HashFree? && OrderRead(db, tx, tx.job.confirmAt.order)
    ensures ConfirmSpeaksTrue(env, db, VerifyOnChain(t), tx.job.c, Verify(env, tx).job)
  {
    assert OrderPaid(env, db.orders[tx.job.c.orderId]);
    AcceptedMeans(env, tx.job.c.hash, tx.job.confirmAt.order.total);
  }

  lemma UpdateSpeaksTrue(env: Env, db: Db, t: TxId, tx: Tx)
    requires OrdersSound(env, db)
    requires tx.job.Confirming? && tx.job.confirmAt.Verified? && OrderRead(db, tx, tx.job.confirmAt.order)
    ensures ConfirmSpeaksTrue(env, db, Update(t), tx.job.c, UpdateOrder(db, tx).job)
  {
    assert OrderPaid(env, db.orders[tx.job.c.orderId]);
    assert UsedElsewhere(db, tx.job.c) <==> HashTaken(db, tx.job.c.hash);
  }

  /** In every run a confirmation goes on exactly while it may, and each refusal is true of the tables it met. */
  lemma ConfirmationsTellTheTruth(env: Env, start: State, run: seq<Action>, a: Action)
    requires Initial(env, start) && Possible(env, start, run) && Enabled(After(env, start, run), a) && Asks(a)
    ensures var s := After(env, start, run);
      ConfirmSpeaksTrue(env, s.db, a, s.txs[a.t].job.c, Do(env, s, a).txs[a.t].job)
  {
    InitialIsInv(env, start);
    RunKeepsInv(env, start, run);
    var s := After(env, start, run);
    var tx := s.txs[a.t];
    assert TxOk(env, s.db, tx) && ConfirmEnabled(s, a, tx) && !BuyEnabled(s, a, tx);
    match a
    case LockRow(t) => LockSpeaksTrue(env, s.db, t, tx);
    case TestHash(t) => TestSpeaksTrue(env, s.db, t, tx);
    case VerifyOnChain(t) => VerifySpeaksTrue(env, s.db, t, tx);
    case Update(t) => UpdateSpeaksTrue(env, s.db, t, tx);
  }

  // ----- checkouts -----

  /** The order that stands under the request's key. */
  predicate StandsUnderKey(db: Db, p: CheckoutParams, o: OrderId, total: int) {
    p.key != "" && o in db.orders && db.orders[o].user == p.user && db.orders[o].key == Some(p.key)
    && db.orders[o].total == total
  }

  ghost predicate KeyInUse(db: Db, p: CheckoutParams) {
    p.key != "" && exists o :: o in db.orders && db.orders[o].user == p.user && db.orders[o].key == Some(p.key)
  }

  /** Asking for the key: answered with the standing order, or on to the locks when there is none. */
  ghost predicate LookUpSpeaksTrue(db: Db, p: CheckoutParams, after: Job) {
    after.Buying? && after.p == p &&
    if KeyInUse(db, p) then
      after.buyAt.Bought? && after.buyAt.outcome.Placed? &&
        StandsUnderKey(db, p, after.buyAt.outcome.orderId, after.buyAt.outcome.total)
    else after.buyAt.Locking?
  }

  /** Checking line `n`, its item being locked or not. */
  ghost predicate LineSpeaksTrue(db: Db, p: CheckoutParams, want: CartLine, locked: bool, after: Job) {
    after.Buying? && after.p == p &&
    if !locked then after.buyAt == Bought(Rejected(ItemUnavailable(want.id)))
    else if Buyable(db, p, want) then after.buyAt.Checking?
    else after.buyAt.Bought? && after.buyAt.outcome.Rejected? && Refuses(db, p, want, after.buyAt.outcome.error)
  }

  /** Inserting: every line can be bought; the exact total decides, and then the key. */
  ghost predicate InsertSpeaksTrue(db: Db, p: CheckoutParams, after: Job) {
    && after.Buying? && after.p == p && AllBuyable(db, p) && Stocked(db.items, p.cart)
    && (after.buyAt == Bought(Rejected(TotalOutOfRange)) <==> CartTotal(db.items, p.cart) >= 10_000_000_000)
    && (after.buyAt.Rereading? <==> CartTotal(db.items, p.cart) < 10_000_000_000 && KeyInUse(db, p))
    && (after.buyAt == Writing(0, CartTotal(db.items, p.cart)) <==>
          CartTotal(db.items, p.cart) < 10_000_000_000 && !KeyInUse(db, p))
  }

  lemma InsertTells(db: Db, tx: Tx)
    requires tx.job.Buying? && tx.job.buyAt.Checking? && tx.job.buyAt.n == |tx.job.p.cart|
    requires CheckedUpTo(db, tx, tx.job.buyAt.n, tx.job.buyAt.total)
    ensures InsertSpeaksTrue(db, tx.job.p, InsertOrder(db, tx).job)
  {
    var p := tx.job.p;
    assert p.cart[..|p.cart|] == p.cart;
    forall n | 0 <= n < |p.cart| ensures Buyable(db, p, p.cart[n]) {
      assert LineOk(db, tx, n);
      LineFaultMeans(db, p, p.cart[n]);
    }
    assert KeyInUse(db, p) <==> KeyTaken(db, p.user, p.key);
  }

  /** In every run the first question of a checkout is answered from the order under its key, if there is one ... */
  lemma LookUpsTellTheTruth(env: Env, start: State, run: seq<Action>, t: TxId, order: seq<ItemId>)
    requires Initial(env, start) && Possible(env, start, run) && Enabled(After(env, start, run), LookUp(t, order))
    ensures var s := After(env, start, run);
      LookUpSpeaksTrue(s.db, s.txs[t].job.p, Do(env, s, LookUp(t, order)).txs[t].job)
  {
    var s := After(env, start, run);
    OwnBuyStepIs(env, s, LookUp(t, order));
    assert KeyInUse(s.db, s.txs[t].job.p) <==> KeyTaken(s.db, s.txs[t].job.p.user, s.txs[t].job.p.key);
  }

  lemma OwnBuyStepIs(env: Env, s: State, a: Action)
    requires Enabled(s, a) && (a.LookUp? || a.Check? || a.Insert?)
    ensures a.t in s.txs && BuyEnabled(s, a, s.txs[a.t])
    ensures Do(env, s, a).txs[a.t] == BuyStep(s, a, s.txs[a.t])
  {}

  /** ... each check refuses exactly a line that cannot be bought, for its reason ... */
  lemma LineChecksTellTheTruth(env: Env, start: State, run: seq<Action>, t: TxId)
    requires Initial(env, start) && Possible(env, start, run) && Enabled(After(env, start, run), Check(t))
    ensures var s := After(env, start, run); var tx := s.txs[t];
      var want := tx.job.p.cart[tx.job.buyAt.n];
      LineSpeaksTrue(s.db, tx.job.p, want, want.id in tx.heldItems, Do(env, s, Check(t)).txs[t].job)
  {
    ChecksTellTheTruth(env, start, run, t);
    var s := After(env, start, run);
    LineFaultMeans(s.db, s.txs[t].job.p, s.txs[t].job.p.cart[s.txs[t].job.buyAt.n]);
  }

  /** ... and the insert is reached with every line buyable, its total the exact one. */
  lemma InsertsTellTheTruth(env: Env, start: State, run: seq<Action>, t: TxId)
    requires Initial(env, start) && Possible(env, start, run) && Enabled(After(env, start, run), Insert(t))
    ensures var s := After(env, start, run);
      InsertSpeaksTrue(s.db, s.txs[t].job.p, Do(env, s, Insert(t)).txs[t].job)
  {
    InitialIsInv(env, start);
    RunKeepsInv(env, start, run);
    var s := After(env, start, run);
    assert TxOk(env, s.db, s.txs[t]);
    OwnBuyStepIs(env, s, Insert(t));
    InsertTells(s.db, s.txs[t]);
  }

  lemma TotalIsExact(db: Db, tx: Tx)
    requires tx.job.Buying? && tx.job.buyAt.Writing? && BuyOk(db, tx)
    ensures Stocked(db.items, tx.job.p.cart) && tx.job.buyAt.total == CartTotal(db.items, tx.job.p.cart)
  {
    assert tx.job.p.cart[..|tx.job.p.cart|] == tx.job.p.cart;
  }

  lemma CommitMoves(env: Env, s: State, t: TxId)
    requires Enabled(s, Commit(t)) && s.txs[t].job.Buying?
    ensures s.txs[t].job.buyAt.Writing?
    ensures Do(env, s, Commit(t)).txs[t].job ==
      s.txs[t].job.(buyAt := Bought(Placed(s.txs[t].job.p.orderId, s.txs[t].job.buyAt.total)))
  {}

  lemma CommitBooks(env: Env, s: State, t: TxId)
    requires Inv(env, s) && Enabled(s, Commit(t)) && s.txs[t].job.Buying?
    ensures Stocked(s.db.items, s.txs[t].job.p.cart)
    ensures Booked(s.db, s.txs[t].job.p, CartTotal(s.db.items, s.txs[t].job.p.cart), Do(env, s, Commit(t)).db)
  {
    EveryStepIsAtomic(env, s, Commit(t));
  }

  lemma CommitTells(env: Env, s: State, t: TxId)
    requires Inv(env, s) && Enabled(s, Commit(t)) && s.txs[t].job.Buying?
    ensures var p, s' := s.txs[t].job.p, Do(env, s, Commit(t));
      && p.orderId in s'.db.orders && s'.txs[t].job.Buying?
      && s'.txs[t].job.buyAt == Bought(Placed(p.orderId, s'.db.orders[p.orderId].total))
      && Booked(s.db, p, s'.db.orders[p.orderId].total, s'.db)
      && s'.db.orders[p.orderId].createdOn == p.now
  {
    CommitMoves(env, s, t);
    CommitBooks(env, s, t);
    assert TxOk(env, s.db, s.txs[t]);
    TotalIsExact(s.db, s.txs[t]);
  }

  /** A checkout that commits tells its own order and the total now stored for it. */
  lemma CommitsTellTheTruth(env: Env, start: State, run: seq<Action>, t: TxId)
    requires Initial(env, start) && Possible(env, start, run) && Enabled(After(env, start, run), Commit(t))
    requires After(env, start, run).txs[t].job.Buying?
    ensures var s := After(env, start, run); var p, s' := s.txs[t].job.p, Do(env, s, Commit(t));
      && p.orderId in s'.db.orders && s'.txs[t].job.Buying?
      && s'.txs[t].job.buyAt == Bought(Placed(p.orderId, s'.db.orders[p.orderId].total))
      && Booked(s.db, p, s'.db.orders[p.orderId].total, s'.db)
  {
    InitialIsInv(env, start);
    RunKeepsInv(env, start, run);
    CommitTells(env, After(env, start, run), t);
  }

  // ----- young orders -----

  predicate SameOrigin(a: Order, b: Order) {
    a.user == b.user && a.event == b.event && a.key == b.key && a.total == b.total && a.createdOn == b.createdOn
  }

  lemma AtomicStepKeepsOrigin(env: Env, s: State, a: Action, db': Db, o: OrderId)
    requires Enabled(s, a) && AtomicStep(env, s, a, db') && o in s.db.orders
    ensures o in db'.orders && SameOrigin(s.db.orders[o], db'.orders[o])
  {}

  /** Who ordered, for which event, under which key, at what total and when never changes. */
  lemma {:induction false} OriginStays(env: Env, s: State, run: seq<Action>, o: OrderId)
    requires Inv(env, s) && Possible(env, s, run) && o in s.db.orders
    ensures o in After(env, s, run).db.orders && SameOrigin(s.db.orders[o], After(env, s, run).db.orders[o])
    decreases |run|
  {
    if run == [] {
    } else {
      EveryStepIsAtomic(env, s, run[0]);
      AtomicStepKeepsOrigin(env, s, run[0], Do(env, s, run[0]).db, o);
      StepKeepsInv(env, s, run[0]);
      OriginStays(env, Do(env, s, run[0]), run[1..], o);
    }
  }

  lemma SweepSparesYoung(env: Env, s: State, u: TxId, o: OrderId)
    requires Inv(env, s) && Enabled(s, Commit(u)) && s.txs[u].job.Sweeping?
    requires o in s.db.orders && s.txs[u].job.cutoff <= s.db.orders[o].createdOn
    ensures o in Do(env, s, Commit(u)).db.orders && Do(env, s, Commit(u)).db.orders[o] == s.db.orders[o]
  {
    EveryStepIsAtomic(env, s, Commit(u));
  }

  lemma YoungOrderStays(env: Env, s: State, o: OrderId, more: seq<Action>, u: TxId)
    requires Inv(env, s) && Possible(env, s, more) && o in s.db.orders
    requires Enabled(After(env, s, more), Commit(u)) && After(env, s, more).txs[u].job.Sweeping?
    requires After(env, s, more).txs[u].job.cutoff <= s.db.orders[o].createdOn
    ensures var e := After(env, s, more);
      o in e.db.orders && o in Do(env, e, Commit(u)).db.orders && Do(env, e, Commit(u)).db.orders[o] == e.db.orders[o]
  {
    OriginStays(env, s, more, o);
    RunKeepsInv(env, s, more);
    SweepSparesYoung(env, After(env, s, more), u, o);
  }

  /**
   * An order placed at a moment is left alone by every later sweep that looks for orders older than that moment
   * or an earlier one.
   */
  lemma YoungOrdersAreSpared(env: Env, start: State, run: seq<Action>, t: TxId, p: CheckoutParams, s: State,
                             more: seq<Action>, u: TxId)
    requires Initial(env, start) && Possible(env, start, run) && Enabled(After(env, start, run), Commit(t))
    requires After(env, start, run).txs[t].job.Buying? && p == After(env, start, run).txs[t].job.p
    requires s == Do(env, After(env, start, run), Commit(t)) && Possible(env, s, more)
    requires Enabled(After(env, s, more), Commit(u)) && After(env, s, more).txs[u].job.Sweeping?
    requires After(env, s, more).txs[u].job.cutoff <= p.now
    ensures var e := After(env, s, more);
      p.orderId in e.db.orders && p.orderId in Do(env, e, Commit(u)).db.orders &&
      Do(env, e, Commit(u)).db.orders[p.orderId] == e.db.orders[p.orderId]
  {
    InitialIsInv(env, start);
    RunKeepsInv(env, start, run);
    CommitTells(env, After(env, start, run), t);
    StepKeepsInv(env, After(env, start, run), Commit(t));
    YoungOrderStays(env, s, p.orderId, more, u);
  }
}
