/** What a checkout is told when its idempotency key was used while it waited for item locks. */
module ShopReplay {
  import opened Text
  import opened Money
  import opened ShopTables
  import opened ShopInvariants
  import opened ShopProtocol
  import opened ShopTxInvariant
  import opened ShopRuns
  import opened ShopTheorems

  /** Every item of the cart that can be bought now was locked. */
  ghost predicate CatalogComplete(db: Db, tx: Tx)
    requires tx.job.Buying?
  {
    forall i :: i in CartIds(tx.job.p.cart) && RowSelected(db, tx, i) ==> i in tx.heldItems
  }

  /** A checkout past its key lookup, with its locks, while an order is committed under its key. */
  ghost predicate LateReplay(env: Env, s: State, t: TxId) {
    && t in s.txs && AllOk(env, s.db, s.txs)
    && s.txs[t].job.Buying? && s.txs[t].job.buyAt.Checking? && CatalogComplete(s.db, s.txs[t])
    && KeyTaken(s.db, s.txs[t].job.p.user, s.txs[t].job.p.key)
  }

  ghost predicate OwnStep(a: Action, t: TxId) { (a.Check? || a.Insert? || a.Read?) && a.t == t }

  /** The existing order, or the first line that can no longer be bought. */
  ghost predicate ReplayAnswer(db: Db, p: CheckoutParams, answer: CheckoutOutcome) {
    if FirstFault(db, p, p.cart).Some? then answer == Rejected(FirstFault(db, p, p.cart).value)
    else if !Stocked(db.items, p.cart) then false
    else if CartTotal(db.items, p.cart) >= DECIMAL_LIMIT then answer == Rejected(TotalOutOfRange)
    else answer.Placed? && HasOrder(db, p, answer.orderId, answer.total)
  }

  predicate HasOrder(db: Db, p: CheckoutParams, o: OrderId, total: int) {
    o in db.orders && db.orders[o].user == p.user && db.orders[o].key == Some(p.key) && db.orders[o].total == total
  }

  lemma NobodyElseInserts(env: Env, s: State, t: TxId)
    requires AllOk(env, s.db, s.txs) && t in s.txs && s.txs[t].job.Buying?
    requires KeyTaken(s.db, s.txs[t].job.p.user, s.txs[t].job.p.key)
    ensures KeyFree(s, t, s.txs[t].job.p.user, s.txs[t].job.p.key)
  {
    forall u | u in s.txs && u != t ensures !InsertsKey(s.txs[u], s.txs[t].job.p.user, s.txs[t].job.p.key) {
      assert TxOk(env, s.db, s.txs[u]);
    }
  }

  lemma CheckedIsFaultFree(db: Db, tx: Tx, total: int)
    requires tx.job.Buying? && CheckedUpTo(db, tx, |tx.job.p.cart|, total)
    ensures FirstFault(db, tx.job.p, tx.job.p.cart).None? && Stocked(db.items, tx.job.p.cart)
    ensures total == CartTotal(db.items, tx.job.p.cart)
  {
    var p := tx.job.p;
    assert p.cart[..|p.cart|] == p.cart;
    forall n | 0 <= n < |p.cart| ensures LineFault(db, p, p.cart[n]).None? { assert LineOk(db, tx, n); }
    FaultFree(db, p, p.cart);
  }

  lemma OwnBuyStep(env: Env, s: State, a: Action, t: TxId)
    requires t in s.txs && !Admin(a) && a.t == t && BuyEnabled(s, a, s.txs[t])
    ensures Enabled(s, a) && Do(env, s, a) == s.(txs := s.txs[t := BuyStep(s, a, s.txs[t])])
  {}

  lemma InsertTx(db: Db, tx: Tx)
    requires tx.job.Buying? && tx.job.buyAt.Checking? && tx.job.buyAt.n == |tx.job.p.cart|
    requires CheckedUpTo(db, tx, |tx.job.p.cart|, tx.job.buyAt.total) && KeyTaken(db, tx.job.p.user, tx.job.p.key)
    ensures var p, after := tx.job.p, InsertOrder(db, tx);
      after.job.Buying? && after.job.p == p &&
      if tx.job.buyAt.total >= DECIMAL_LIMIT then
        after.job.buyAt.Bought? && ReplayAnswer(db, p, after.job.buyAt.outcome)
      else
        after.job.buyAt.Rereading? && Reread(db, after).job.Buying? && Reread(db, after).job.p == p
        && Reread(db, after).job.buyAt.Bought? && ReplayAnswer(db, p, Reread(db, after).job.buyAt.outcome)
  {
    CheckedIsFaultFree(db, tx, tx.job.buyAt.total);
    FindByKeyFinds(db, tx.job.p.user, tx.job.p.key);
  }

  /** Transaction `t` of `s` has been answered in `e`, and the committed tables are as before. */
  ghost predicate Answered(s: State, t: TxId, e: State)
    requires t in s.txs && s.txs[t].job.Buying?
  {
    e.db == s.db && t in e.txs && e.txs[t].job.Buying? && e.txs[t].job.p == s.txs[t].job.p
    && e.txs[t].job.buyAt.Bought? && ReplayAnswer(s.db, s.txs[t].job.p, e.txs[t].job.buyAt.outcome)
  }

  lemma InsertAndRead(env: Env, s: State, t: TxId) returns (run: seq<Action>)
    requires LateReplay(env, s, t) && s.txs[t].job.buyAt.n == |s.txs[t].job.p.cart|
    ensures Possible(env, s, run) && forall k :: 0 <= k < |run| ==> OwnStep(run[k], t)
    ensures Answered(s, t, After(env, s, run))
  {
    var tx := s.txs[t];
    CheckedSoFar(env, s.db, tx);
    InsertTx(s.db, tx);
    NobodyElseInserts(env, s, t);
    OwnBuyStep(env, s, Insert(t), t);
    run := [Insert(t)];
    Prepend(env, s, Insert(t), []);
    if tx.job.buyAt.total < DECIMAL_LIMIT {
      var s1 := Do(env, s, Insert(t));
      OwnBuyStep(env, s1, Read(t), t);
      Prepend(env, s1, Read(t), []);
      Prepend(env, s, Insert(t), [Read(t)]);
      run := [Insert(t), Read(t)];
      assert run == [Insert(t)] + [Read(t)];
    }
  }

  lemma CheckedSoFar(env: Env, db: Db, tx: Tx)
    requires TxOk(env, db, tx) && tx.job.Buying? && tx.job.buyAt.Checking?
    ensures BuyOk(db, tx) && CheckedUpTo(db, tx, tx.job.buyAt.n, tx.job.buyAt.total)
    ensures CatalogCurrent(db, tx)
  {}

  /** One check: the line passes, or the reported fault is the first one of the cart. */
  lemma CheckTx(db: Db, tx: Tx)
    requires tx.job.Buying? && tx.job.buyAt.Checking? && tx.job.buyAt.n < |tx.job.p.cart|
    requires CheckedUpTo(db, tx, tx.job.buyAt.n, tx.job.buyAt.total) && CatalogCurrent(db, tx) &&
      CatalogComplete(db, tx)
    ensures var p, after := tx.job.p, CheckLine(db, tx);
      after.job.Buying? && after.job.p == p &&
      if after.job.buyAt.Checking? then after.job.buyAt.n == tx.job.buyAt.n + 1 && after.heldItems == tx.heldItems
      else after.job.buyAt.Bought? && ReplayAnswer(db, p, after.job.buyAt.outcome)
  {
    var p, n := tx.job.p, tx.job.buyAt.n;
    forall k | 0 <= k < n ensures LineFault(db, p, p.cart[..n][k]).None? { assert LineOk(db, tx, k); }
    FaultFree(db, p, p.cart[..n]);
    FirstFaultStays(db, p, n);
    CartIdsAre(p.cart, p.cart[n].id);
  }

  lemma StillLate(env: Env, s: State, t: TxId)
    requires LateReplay(env, s, t) && s.txs[t].job.buyAt.n < |s.txs[t].job.p.cart|
    requires CheckLine(s.db, s.txs[t]).job.Buying? && CheckLine(s.db, s.txs[t]).job.buyAt.Checking?
    requires CheckLine(s.db, s.txs[t]).job.p == s.txs[t].job.p &&
      CheckLine(s.db, s.txs[t]).heldItems == s.txs[t].heldItems
    ensures LateReplay(env, s.(txs := s.txs[t := CheckLine(s.db, s.txs[t])]), t)
  {
    assert TxOk(env, s.db, s.txs[t]);
    CheckKeepsOk(s.db, s.txs[t]);
  }

  /**
   * Whoever waited for the item locks while another request committed under the same key is told of that
   * order exactly when every line can still be bought and the total fits; otherwise of the first fault.
   */
  lemma {:induction false} LateReplayIsAnswered(env: Env, s: State, t: TxId) returns (run: seq<Action>)
    requires LateReplay(env, s, t)
    ensures Possible(env, s, run) && forall k :: 0 <= k < |run| ==> OwnStep(run[k], t)
    ensures Answered(s, t, After(env, s, run))
    decreases |s.txs[t].job.p.cart| - s.txs[t].job.buyAt.n
  {
    var tx := s.txs[t];
    CheckedSoFar(env, s.db, tx);
    if tx.job.buyAt.n == |tx.job.p.cart| {
      run := InsertAndRead(env, s, t);
    } else {
      CheckTx(s.db, tx);
      OwnBuyStep(env, s, Check(t), t);
      var s1 := Do(env, s, Check(t));
      var rest := [];
      if s1.txs[t].job.buyAt.Checking? {
        StillLate(env, s, t);
        rest := LateReplayIsAnswered(env, s1, t);
      }
      Prepend(env, s, Check(t), rest);
      run := [Check(t)] + rest;
    }
  }

  // ----- whatever the others do in between -----

  ghost predicate CheckDecides(db: Db, tx: Tx, after: Tx)
    requires tx.job.Buying? && tx.job.buyAt.Checking? && tx.job.buyAt.n < |tx.job.p.cart|
  {
    var line := tx.job.p.cart[tx.job.buyAt.n];
    after.job.Buying? && after.job.p == tx.job.p &&
    if line.id !in tx.heldItems then after.job.buyAt == Bought(Rejected(ItemUnavailable(line.id)))
    else if LineFault(db, tx.job.p, line).Some? then
      after.job.buyAt == Bought(Rejected(LineFault(db, tx.job.p, line).value))
    else after.job.buyAt.Checking? && after.job.buyAt.n == tx.job.buyAt.n + 1
  }

  lemma CheckSpeaksTrue(env: Env, s: State, t: TxId)
    requires AllOk(env, s.db, s.txs) && t in s.txs && Enabled(s, Check(t))
    ensures CheckDecides(s.db, s.txs[t], Do(env, s, Check(t)).txs[t])
  {
    CheckedSoFar(env, s.db, s.txs[t]);
    OwnBuyStep(env, s, Check(t), t);
  }

  /**
   * At any moment of any run a check speaks for the committed tables of that moment: a line whose item
   * is locked is refused for its fault and for nothing else, and one whose item could not be locked is
   * reported as unavailable.
   */
  lemma ChecksTellTheTruth(env: Env, start: State, run: seq<Action>, t: TxId)
    requires Initial(env, start) && Possible(env, start, run) && Enabled(After(env, start, run), Check(t))
    ensures var s := After(env, start, run); CheckDecides(s.db, s.txs[t], Do(env, s, Check(t)).txs[t])
  {
    InitialIsInv(env, start);
    RunKeepsInv(env, start, run);
    CheckSpeaksTrue(env, After(env, start, run), t);
  }

  /** A replay on its way: an order stands under its key and it has not been answered. */
  ghost predicate LateAt(s: State, t: TxId, p: CheckoutParams) {
    && t in s.txs && s.txs[t].job.Buying? && s.txs[t].job.p == p && KeyTaken(s.db, p.user, p.key)
    && BuyAtReplay(s.txs[t].job.buyAt)
  }

  predicate BuyAtReplay(at: BuyAt) { at.Replaying? || at.Locking? || at.Checking? || at.Rereading? }

  /** Step `a` fails a check of `t` with `fault`, or its total does not fit the column. */
  ghost predicate RefusesNow(s: State, a: Action, t: TxId, fault: CheckoutError) {
    t in s.txs && s.txs[t].job.Buying? && s.txs[t].job.buyAt.Checking? &&
    if s.txs[t].job.buyAt.n == |s.txs[t].job.p.cart| then
      a == Insert(t) && s.txs[t].job.buyAt.total >= DECIMAL_LIMIT && fault == TotalOutOfRange
    else a == Check(t) && LineRefused(s.db, s.txs[t], fault)
  }

  ghost predicate LineRefused(db: Db, tx: Tx, fault: CheckoutError)
    requires tx.job.Buying? && tx.job.buyAt.Checking?
  {
    0 <= tx.job.buyAt.n < |tx.job.p.cart| &&
    var line := tx.job.p.cart[tx.job.buyAt.n];
    if line.id !in tx.heldItems then fault == ItemUnavailable(line.id)
    else LineFault(db, tx.job.p, line) == Some(fault)
  }

  /** Some step of the run refuses `t` for `fault`, on the tables as they then are. */
  ghost predicate RefusedFor(env: Env, s: State, run: seq<Action>, t: TxId, fault: CheckoutError)
    requires Possible(env, s, run)
    decreases |run|
  {
    run != [] && (RefusesNow(s, run[0], t, fault) || RefusedFor(env, Do(env, s, run[0]), run[1..], t, fault))
  }

  lemma AtomicStepKeepsOrder(env: Env, s: State, a: Action, db': Db, o: OrderId)
    requires Enabled(s, a) && AtomicStep(env, s, a, db') && o in s.db.orders
    ensures o in db'.orders && SameIdentity(s.db.orders[o], db'.orders[o])
  {}

  predicate SameIdentity(a: Order, b: Order) { a.user == b.user && a.key == b.key && a.total == b.total }

  lemma StepKeepsOrder(env: Env, s: State, a: Action, o: OrderId)
    requires Inv(env, s) && Enabled(s, a) && o in s.db.orders
    ensures o in Do(env, s, a).db.orders && SameIdentity(s.db.orders[o], Do(env, s, a).db.orders[o])
  {
    EveryStepIsAtomic(env, s, a);
    AtomicStepKeepsOrder(env, s, a, Do(env, s, a).db, o);
  }

  lemma KeyStaysTaken(env: Env, s: State, a: Action, user: string, key: string)
    requires Inv(env, s) && Enabled(s, a) && KeyTaken(s.db, user, key)
    ensures KeyTaken(Do(env, s, a).db, user, key)
  {
    var o :| o in s.db.orders && s.db.orders[o].user == user && s.db.orders[o].key == Some(key);
    StepKeepsOrder(env, s, a, o);
  }

  lemma OthersLeaveAlone(env: Env, s: State, a: Action, t: TxId)
    requires Enabled(s, a) && t in s.txs && (Admin(a) || a.t != t)
    ensures t in Do(env, s, a).txs && Do(env, s, a).txs[t] == s.txs[t]
  {}

  /** What a step makes of the replay. */
  ghost predicate ReplayMoves(env: Env, s: State, a: Action, t: TxId, p: CheckoutParams)
    requires Enabled(s, a)
  {
    var s' := Do(env, s, a);
    t in s'.txs && s'.txs[t].job.Buying? && s'.txs[t].job.p == p &&
    match s'.txs[t].job.buyAt
    case Bought(Placed(o, total)) => HasOrder(s.db, p, o, total)
    case Bought(Rejected(fault)) => RefusesNow(s, a, t, fault)
    case BuyAborted => true
    case _ => LateAt(s', t, p)
  }

  lemma CheckMoves(env: Env, s: State, t: TxId, p: CheckoutParams)
    requires AllOk(env, s.db, s.txs) && LateAt(s, t, p) && Enabled(s, Check(t))
    ensures ReplayMoves(env, s, Check(t), t, p)
  {
    CheckSpeaksTrue(env, s, t);
    OwnBuyStep(env, s, Check(t), t);
  }

  lemma InsertMoves(env: Env, s: State, t: TxId, p: CheckoutParams)
    requires AllOk(env, s.db, s.txs) && LateAt(s, t, p) && Enabled(s, Insert(t))
    ensures ReplayMoves(env, s, Insert(t), t, p)
  {
    CheckedSoFar(env, s.db, s.txs[t]);
    OwnBuyStep(env, s, Insert(t), t);
  }

  lemma ReadMoves(env: Env, s: State, t: TxId, p: CheckoutParams)
    requires LateAt(s, t, p) && Enabled(s, Read(t))
    ensures ReplayMoves(env, s, Read(t), t, p)
  {
    FindByKeyFinds(s.db, p.user, p.key);
    OwnBuyStep(env, s, Read(t), t);
  }

  lemma LookUpMoves(env: Env, s: State, order: seq<ItemId>, t: TxId, p: CheckoutParams)
    requires LateAt(s, t, p) && Enabled(s, LookUp(t, order))
    ensures ReplayMoves(env, s, LookUp(t, order), t, p)
  {
    FindByKeyFinds(s.db, p.user, p.key);
    OwnBuyStep(env, s, LookUp(t, order), t);
  }

  lemma LockMoves(env: Env, s: State, t: TxId, p: CheckoutParams)
    requires LateAt(s, t, p) && Enabled(s, Lock(t))
    ensures ReplayMoves(env, s, Lock(t), t, p)
  {
    OwnBuyStep(env, s, Lock(t), t);
  }

  lemma RollbackMoves(env: Env, s: State, a: Action, t: TxId, p: CheckoutParams)
    requires LateAt(s, t, p) && Enabled(s, a) && !Admin(a) && a.t == t
    requires !a.LookUp? && !a.Lock? && !a.Check? && !a.Insert? && !a.Read?
    ensures ReplayMoves(env, s, a, t, p)
  {}

  lemma ReplayStep(env: Env, s: State, a: Action, t: TxId, p: CheckoutParams)
    requires Inv(env, s) && LateAt(s, t, p) && Enabled(s, a)
    ensures ReplayMoves(env, s, a, t, p)
  {
    if Admin(a) || a.t != t {
      OthersLeaveAlone(env, s, a, t);
      KeyStaysTaken(env, s, a, p.user, p.key);
    } else if a.LookUp? {
      LookUpMoves(env, s, a.order, t, p);
    } else if a.Lock? {
      LockMoves(env, s, t, p);
    } else if a.Check? {
      CheckMoves(env, s, t, p);
    } else if a.Insert? {
      InsertMoves(env, s, t, p);
    } else if a.Read? {
      ReadMoves(env, s, t, p);
    } else {
      RollbackMoves(env, s, a, t, p);
    }
  }

  /** What may have become of a replay that was at `s`, once run's end `e` is reached. */
  ghost predicate ReplayEnds(env: Env, s: State, run: seq<Action>, t: TxId, p: CheckoutParams)
    requires Possible(env, s, run)
  {
    var e := After(env, s, run);
    t in e.txs && e.txs[t].job.Buying? && e.txs[t].job.p == p &&
    match e.txs[t].job.buyAt
    case Bought(Placed(o, total)) => HasOrder(e.db, p, o, total)
    case Bought(Rejected(fault)) => RefusedFor(env, s, run, t, fault)
    case BuyAborted => true
    case _ => LateAt(e, t, p)
  }

  lemma {:induction false} OrderStays(env: Env, s: State, run: seq<Action>, p: CheckoutParams, o: OrderId, total: int)
    requires Inv(env, s) && Possible(env, s, run) && HasOrder(s.db, p, o, total)
    ensures HasOrder(After(env, s, run).db, p, o, total)
    decreases |run|
  {
    if run == [] {
    } else {
      StepKeepsInv(env, s, run[0]);
      StepKeepsOrder(env, s, run[0], o);
      OrderStays(env, Do(env, s, run[0]), run[1..], p, o, total);
    }
  }

  /**
   * Whatever other transactions do between its steps, a checkout whose key is taken ends with the order
   * already placed under the key, or refused by a check that failed or a total that did not fit on the
   * tables of that moment, or rolled back, or is still on its way.
   */
  lemma {:induction false} ReplayInEveryRun(env: Env, s: State, run: seq<Action>, t: TxId, p: CheckoutParams)
    requires Inv(env, s) && Possible(env, s, run) && LateAt(s, t, p)
    ensures ReplayEnds(env, s, run, t, p)
    decreases |run|
  {
    if run == [] {
    } else {
      var a, s1 := run[0], Do(env, s, run[0]);
      ReplayStep(env, s, a, t, p);
      StepKeepsInv(env, s, a);
      if LateAt(s1, t, p) {
        ReplayInEveryRun(env, s1, run[1..], t, p);
      } else {
        ReplayIsOver(env, s, run, t, p);
      }
    }
  }

  lemma ReplayIsOver(env: Env, s: State, run: seq<Action>, t: TxId, p: CheckoutParams)
    requires Inv(env, s) && run != [] && Possible(env, s, run) && ReplayMoves(env, s, run[0], t, p)
    requires Inv(env, Do(env, s, run[0])) && !LateAt(Do(env, s, run[0]), t, p)
    ensures ReplayEnds(env, s, run, t, p)
  {
    var s1 := Do(env, s, run[0]);
    OverIsFinal(env, s1, run[1..], t);
    if s1.txs[t].job.buyAt.Bought? && s1.txs[t].job.buyAt.outcome.Placed? {
      var o := s1.txs[t].job.buyAt.outcome.orderId;
      StepKeepsOrder(env, s, run[0], o);
      OrderStays(env, s1, run[1..], p, o, s1.txs[t].job.buyAt.outcome.total);
    }
  }

  // ----- a replay that is refused -----

  const A := "a"
  const ENV := Env(x => x, hash => Details(false, None, Missing, false, ""), "w")
  const LAST := Item(0, 1, None, true, None)
  const GONE := Item(0, 0, None, true, None)
  const FULL := Db(map[A := LAST], map[], map[])
  const FIRST := CheckoutParams("o1", "v", "e", "k", [CartLine(A, 1)], 0)
  const SECOND := CheckoutParams("o2", "v", "e", "k", [CartLine(A, 1)], 0)
  const ORDER := Order("v", Some("e"), Pending, None, 0, Some("k"), 0)
  const SOLD := Db(map[A := GONE], map["o1" := ORDER], map[("o1", A) := Line(1, 0)])

  function Pair(db: Db, a: Tx, b: Tx): State { State(db, map[0 := a, 1 := b], map[A := 1]) }

  function Asking(p: CheckoutParams): Tx { Finish(Buying(p, Replaying, map[])) }
  function Holding(p: CheckoutParams, at: BuyAt, item: Item): Tx {
    Tx(Buying(p, at, map[A := item]), NO_WRITES, {A}, {})
  }

  const WROTE := Tx(Buying(FIRST, Writing(1, 0), map[A := LAST]),
    Writes(map[A := GONE], map["o1" := ORDER], map[("o1", A) := Line(1, 0)]), {A}, {})
  const INSERTED := Tx(Buying(FIRST, Writing(0, 0), map[A := LAST]), NO_WRITES.(orders := map["o1" := ORDER]), {A}, {})
  const PLACED := Finish(Buying(FIRST, Bought(Placed("o1", 0)), map[A := LAST]))
  const REFUSED := Finish(Buying(SECOND, Bought(Rejected(StockShortfall(A, 0))), map[A := GONE]))

  lemma FullIsSound()
    ensures Initial(ENV, State(FULL, map[], map[A := 1]))
  {
    forall x: real | 0.00001 <= Abs(x) <= 1.0e18 ensures Abs(ENV.fl(x) - x) <= ULP * Abs(x) {}
    assert HeldRows(FULL, A) == map[];
  }

  lemma CartOfOne(p: CheckoutParams)
    requires p == FIRST || p == SECOND
    ensures ValidCart(p.cart) && LockOrder(p.cart, [A])
  {
    assert p.cart[..0] == [];
    assert CartIds(p.cart) == {A};
    assert (set i | i in [A]) == {A};
  }

  lemma LocksTheItem(db: Db, p: CheckoutParams, item: Item)
    requires db.items == map[A := item] && item.visible && item.event.None?
    ensures LockItem(db, Finish(Buying(p, Locking([A]), map[]))) == Holding(p, Locking([]), item)
  {
    assert [A][1..] == [];
    assert {} + {A} == {A};
  }

  lemma NothingPurchased()
    ensures CheckLine(FULL, Holding(FIRST, Checking(0, 0), LAST)) == Holding(FIRST, Checking(1, 0), LAST)
    ensures CheckLine(SOLD, Holding(SECOND, Checking(0, 0), GONE)) == REFUSED
  {}

  lemma WritesTheOrder()
    ensures InsertOrder(FULL, Holding(FIRST, Checking(1, 0), LAST)) == INSERTED
    ensures WriteLine(FULL, INSERTED) == WROTE && Apply(FULL, WROTE.writes) == SOLD
  {
    assert Apply(FULL, INSERTED.writes).items == FULL.items;
    assert FULL.items + WROTE.writes.items == SOLD.items;
    assert FULL.orders + WROTE.writes.orders == SOLD.orders;
    assert FULL.lines + WROTE.writes.lines == SOLD.lines;
  }

  ghost predicate Leads(s: State, a: Action, s': State) { Enabled(s, a) && Do(ENV, s, a) == s' }

  function Queued(p: CheckoutParams): Tx { Finish(Buying(p, Locking([A]), map[])) }

  lemma BothBegin()
    ensures Leads(State(FULL, map[], map[A := 1]), BeginCheckout(0, FIRST),
                  State(FULL, map[0 := Asking(FIRST)], map[A := 1]))
    ensures Leads(State(FULL, map[0 := Asking(FIRST)], map[A := 1]), BeginCheckout(1, SECOND),
                  Pair(FULL, Asking(FIRST), Asking(SECOND)))
  {
    CartOfOne(FIRST);
    CartOfOne(SECOND);
  }

  lemma FirstMoves(db: Db, a: Tx, b: Tx, act: Action, a': Tx)
    requires a.job.Buying? && !Admin(act) && act.t == 0 && BuyEnabled(Pair(db, a, b), act, a)
    requires BuyStep(Pair(db, a, b), act, a) == a'
    ensures Leads(Pair(db, a, b), act, Pair(db, a', b))
  {
    OwnBuyStep(ENV, Pair(db, a, b), act, 0);
    assert Pair(db, a, b).txs[0 := a'] == Pair(db, a', b).txs;
  }

  lemma SecondMoves(db: Db, a: Tx, b: Tx, act: Action, b': Tx)
    requires b.job.Buying? && !Admin(act) && act.t == 1 && BuyEnabled(Pair(db, a, b), act, b)
    requires BuyStep(Pair(db, a, b), act, b) == b'
    ensures Leads(Pair(db, a, b), act, Pair(db, a, b'))
  {
    OwnBuyStep(ENV, Pair(db, a, b), act, 1);
    assert Pair(db, a, b).txs[1 := b'] == Pair(db, a, b').txs;
  }

  lemma BothLookUp()
    ensures Leads(Pair(FULL, Asking(FIRST), Asking(SECOND)), LookUp(0, [A]), Pair(FULL, Queued(FIRST), Asking(SECOND)))
    ensures Leads(Pair(FULL, Queued(FIRST), Asking(SECOND)), LookUp(1, [A]), Pair(FULL, Queued(FIRST), Queued(SECOND)))
  {
    CartOfOne(FIRST);
    CartOfOne(SECOND);
    FirstMoves(FULL, Asking(FIRST), Asking(SECOND), LookUp(0, [A]), Queued(FIRST));
    SecondMoves(FULL, Queued(FIRST), Asking(SECOND), LookUp(1, [A]), Queued(SECOND));
  }

  lemma FirstLocks()
    ensures Leads(Pair(FULL, Queued(FIRST), Queued(SECOND)), Lock(0),
      Pair(FULL, Holding(FIRST, Locking([]), LAST), Queued(SECOND)))
    ensures Leads(Pair(FULL, Holding(FIRST, Locking([]), LAST), Queued(SECOND)), Lock(0),
      Pair(FULL, Holding(FIRST, Checking(0, 0), LAST), Queued(SECOND)))
  {
    LocksTheItem(FULL, FIRST, LAST);
    FirstMoves(FULL, Queued(FIRST), Queued(SECOND), Lock(0), Holding(FIRST, Locking([]), LAST));
    FirstMoves(FULL, Holding(FIRST, Locking([]), LAST), Queued(SECOND), Lock(0), Holding(FIRST, Checking(0, 0), LAST));
  }

  lemma FirstChecks()
    ensures Leads(Pair(FULL, Holding(FIRST, Checking(0, 0), LAST), Queued(SECOND)), Check(0),
      Pair(FULL, Holding(FIRST, Checking(1, 0), LAST), Queued(SECOND)))
    ensures Leads(Pair(FULL, Holding(FIRST, Checking(1, 0), LAST), Queued(SECOND)), Insert(0),
      Pair(FULL, INSERTED, Queued(SECOND)))
  {
    NothingPurchased();
    WritesTheOrder();
    FirstMoves(FULL, Holding(FIRST, Checking(0, 0), LAST), Queued(SECOND), Check(0),
               Holding(FIRST, Checking(1, 0), LAST));
    FirstMoves(FULL, Holding(FIRST, Checking(1, 0), LAST), Queued(SECOND), Insert(0), INSERTED);
  }

  lemma FirstCommits()
    ensures Leads(Pair(FULL, INSERTED, Queued(SECOND)), Write(0), Pair(FULL, WROTE, Queued(SECOND)))
    ensures Leads(Pair(FULL, WROTE, Queued(SECOND)), Commit(0), Pair(SOLD, PLACED, Queued(SECOND)))
  {
    WritesTheOrder();
    FirstMoves(FULL, INSERTED, Queued(SECOND), Write(0), WROTE);
    assert Committed(WROTE) == PLACED;
    assert Pair(FULL, WROTE, Queued(SECOND)).txs[0 := PLACED] == Pair(SOLD, PLACED, Queued(SECOND)).txs;
  }

  lemma SecondLocks()
    ensures Leads(Pair(SOLD, PLACED, Queued(SECOND)), Lock(1), Pair(SOLD, PLACED, Holding(SECOND, Locking([]), GONE)))
    ensures Leads(Pair(SOLD, PLACED, Holding(SECOND, Locking([]), GONE)), Lock(1),
      Pair(SOLD, PLACED, Holding(SECOND, Checking(0, 0), GONE)))
  {
    LocksTheItem(SOLD, SECOND, GONE);
    SecondMoves(SOLD, PLACED, Queued(SECOND), Lock(1), Holding(SECOND, Locking([]), GONE));
    SecondMoves(SOLD, PLACED, Holding(SECOND, Locking([]), GONE), Lock(1), Holding(SECOND, Checking(0, 0), GONE));
  }

  lemma SecondIsRefused()
    ensures Leads(Pair(SOLD, PLACED, Holding(SECOND, Checking(0, 0), GONE)), Check(1), Pair(SOLD, PLACED, REFUSED))
  {
    NothingPurchased();
    SecondMoves(SOLD, PLACED, Holding(SECOND, Checking(0, 0), GONE), Check(1), REFUSED);
  }

  /** Two requests of one user under one key, one unit left: the first is placed and the second refused. */
  lemma ReplayCanBeRefused() returns (start: State, run: seq<Action>)
    ensures Initial(ENV, start) && Possible(ENV, start, run)
    ensures After(ENV, start, run) == Pair(SOLD, PLACED, REFUSED)
  {
    FullIsSound();
    BothBegin();
    BothLookUp();
    FirstLocks();
    FirstChecks();
    FirstCommits();
    SecondLocks();
    SecondIsRefused();
    start := State(FULL, map[], map[A := 1]);
    run := Then(ENV, start, [], BeginCheckout(0, FIRST));
    run := Then(ENV, start, run, BeginCheckout(1, SECOND));
    run := Then(ENV, start, run, LookUp(0, [A]));
    run := Then(ENV, start, run, LookUp(1, [A]));
    run := Then(ENV, start, run, Lock(0));
    run := Then(ENV, start, run, Lock(0));
    run := Then(ENV, start, run, Check(0));
    run := Then(ENV, start, run, Insert(0));
    run := Then(ENV, start, run, Write(0));
    run := Then(ENV, start, run, Commit(0));
    run := Then(ENV, start, run, Lock(1));
    run := Then(ENV, start, run, Lock(1));
    run := Then(ENV, start, run, Check(1));
  }
}
