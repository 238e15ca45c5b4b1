/**
 * Which transfers pay for orders. A hash is a name of a transfer, and the database tells names
 * apart as strings; this module says when that also tells the transfers apart.
 */
module ShopTransfers {
  import opened Text
  import opened Sums
  import opened Money
  import opened ShopTables
  import opened ShopProtocol
  import opened ShopRuns
  import opened ShopTheorems

  type TransferId = string

  /** `transfer` identifies the transfer a hash names; what the chain reports depends on it alone. */
  ghost predicate Identifies(env: Env, transfer: string -> TransferId) {
    forall g, h :: transfer(g) == transfer(h) ==> env.chain(g) == env.chain(h)
  }

  predicate Configured(env: Env) { TrimSpace(env.wallet) != "" }

  /** A string a confirmation accepts, naming a transfer that pays an order of `amount`. */
  predicate Payable(env: Env, hash: string, amount: int) {
    UsableHash(hash) && 0 <= amount < DECIMAL_LIMIT && Pays(env, hash, amount)
  }

  /** No payable transfer goes by two names. */
  ghost predicate OneName(env: Env, transfer: string -> TransferId) {
    forall g, h, amount :: Payable(env, g, amount) && Payable(env, h, amount) && transfer(g) == transfer(h) ==> g == h
  }

  /** No two orders carry names of one transfer. */
  ghost predicate PaidApart(transfer: string -> TransferId, db: Db) {
    forall o, p :: o in db.orders && p in db.orders && o != p && db.orders[o].hash.Some? && db.orders[p].hash.Some?
      ==> transfer(db.orders[o].hash.value) != transfer(db.orders[p].hash.value)
  }

  /** A shop that opens with no order confirmed yet. */
  ghost predicate Opening(env: Env, s: State) {
    Initial(env, s) && forall o :: o in s.db.orders ==> s.db.orders[o].hash.None?
  }

  ghost predicate AlwaysPaidApart(env: Env, transfer: string -> TransferId) {
    forall s, run :: Opening(env, s) && Possible(env, s, run) ==> PaidApart(transfer, After(env, s, run).db)
  }

  // ----- stored hashes are ones a confirmation accepts -----

  ghost predicate HashesFrom(env: Env, s: State) {
    && (forall o :: o in s.db.orders && s.db.orders[o].hash.Some? ==>
          Configured(env) && UsableHash(s.db.orders[o].hash.value))
    && (forall t :: t in s.txs && s.txs[t].job.Confirming? ==>
          UsableHash(s.txs[t].job.c.hash) && (Configured(env) || Over(s.txs[t])))
  }

  lemma ConfirmStaysWithHash(env: Env, s: State, a: Action, t: TxId)
    requires Enabled(s, a) && t in s.txs && s.txs[t].job.Confirming?
    ensures t in Do(env, s, a).txs && Do(env, s, a).txs[t].job.Confirming?
    ensures Do(env, s, a).txs[t].job.c == s.txs[t].job.c && (Over(s.txs[t]) ==> Over(Do(env, s, a).txs[t]))
  {
    if Admin(a) || Begins(a) || a.t != t {
      assert Do(env, s, a).txs[t] == s.txs[t];
    } else if Over(s.txs[t]) {
      OverStays(env, s, a, t);
    }
  }

  lemma NewConfirmIsUsable(env: Env, s: State, a: Action, t: TxId)
    requires Enabled(s, a) && t !in s.txs && t in Do(env, s, a).txs && Do(env, s, a).txs[t].job.Confirming?
    ensures UsableHash(Do(env, s, a).txs[t].job.c.hash) && (Configured(env) || Over(Do(env, s, a).txs[t]))
  {}

  lemma OldConfirmStays(env: Env, s: State, a: Action, t: TxId)
    requires Enabled(s, a) && t in s.txs && t in Do(env, s, a).txs && Do(env, s, a).txs[t].job.Confirming?
    ensures s.txs[t].job.Confirming?
  {}

  lemma StoredHashesFrom(env: Env, s: State, a: Action, db': Db)
    requires HashesFrom(env, s) && Enabled(s, a) && AtomicStep(env, s, a, db')
    ensures forall o :: o in db'.orders && db'.orders[o].hash.Some? ==>
      Configured(env) && UsableHash(db'.orders[o].hash.value)
  {
    if !Admin(a) && a.Commit? { assert !Over(s.txs[a.t]); }
  }

  lemma StepKeepsHashes(env: Env, s: State, a: Action)
    requires Inv(env, s) && HashesFrom(env, s) && Enabled(s, a)
    ensures HashesFrom(env, Do(env, s, a))
  {
    var s' := Do(env, s, a);
    EveryStepIsAtomic(env, s, a);
    StoredHashesFrom(env, s, a, s'.db);
    forall t | t in s'.txs && s'.txs[t].job.Confirming?
      ensures UsableHash(s'.txs[t].job.c.hash) && (Configured(env) || Over(s'.txs[t]))
    {
      if t in s.txs {
        OldConfirmStays(env, s, a, t);
        ConfirmStaysWithHash(env, s, a, t);
      } else {
        NewConfirmIsUsable(env, s, a, t);
      }
    }
  }

  lemma {:induction false} RunKeepsHashes(env: Env, s: State, run: seq<Action>)
    requires Inv(env, s) && HashesFrom(env, s) && Possible(env, s, run)
    ensures HashesFrom(env, After(env, s, run))
    decreases |run|
  {
    if run == [] {
    } else {
      StepKeepsInv(env, s, run[0]);
      StepKeepsHashes(env, s, run[0]);
      RunKeepsHashes(env, Do(env, s, run[0]), run[1..]);
    }
  }

  // ----- one name per transfer is enough -----

  lemma PaidOrdersAreApart(env: Env, transfer: string -> TransferId, db: Db)
    requires Identifies(env, transfer) && OneName(env, transfer)
    requires HashesUnique(db) && OrdersSound(env, db)
    requires forall o :: o in db.orders && db.orders[o].hash.Some? ==> UsableHash(db.orders[o].hash.value)
    ensures PaidApart(transfer, db)
  {
    forall o, p | o in db.orders && p in db.orders && o != p && db.orders[o].hash.Some? && db.orders[p].hash.Some?
      ensures transfer(db.orders[o].hash.value) != transfer(db.orders[p].hash.value)
    {
      var g, h := db.orders[o].hash.value, db.orders[p].hash.value;
      assert OrderPaid(env, db.orders[o]) && OrderPaid(env, db.orders[p]);
      assert g != h;
      if transfer(g) == transfer(h) {
        assert env.chain(g) == env.chain(h);
        assert Payable(env, g, db.orders[o].total) && Payable(env, h, db.orders[o].total);
      }
    }
  }

  /** If no payable transfer goes by two names, no run pays two orders with one transfer. */
  lemma OneNamePaysOnce(env: Env, transfer: string -> TransferId, s: State, run: seq<Action>)
    requires Identifies(env, transfer) && OneName(env, transfer) && Opening(env, s) && Possible(env, s, run)
    ensures PaidApart(transfer, After(env, s, run).db)
  {
    InitialIsInv(env, s);
    RunKeepsInv(env, s, run);
    RunKeepsHashes(env, s, run);
    PaidOrdersAreApart(env, transfer, After(env, s, run).db);
  }

  // ----- a transfer with two names pays twice -----

  function At(c: ConfirmParams, at: ConfirmAt, writes: Writes, held: set<OrderId>): Tx {
    Tx(Confirming(c, at), writes, {}, held)
  }

  ghost predicate Moves(env: Env, s: State, t: TxId, a: Action, tx: Tx) {
    Enabled(s, a) && Do(env, s, a) == s.(txs := s.txs[t := tx])
  }

  /** Nobody stands in the way of confirming `c` as transaction `t`. */
  ghost predicate ReadyToConfirm(env: Env, s: State, t: TxId, c: ConfirmParams) {
    && Rounding(env.fl) && Configured(env) && ValidConfirm(c.orderId, c.hash) && Confirmable(env, s.db, c)
    && 0 <= s.db.orders[c.orderId].total < DECIMAL_LIMIT
    && t !in s.txs && OrderFree(s, t, c.orderId) && HashNotPending(s, t, c.hash)
  }

  ghost function With(s: State, t: TxId, tx: Tx): State { s.(txs := s.txs[t := tx]) }

  ghost predicate Reaches(env: Env, start: State, run: seq<Action>, s: State) {
    Possible(env, start, run) && After(env, start, run) == s
  }

  lemma Follow(env: Env, start: State, run: seq<Action>, s: State, t: TxId, a: Action, tx: Tx)
    returns (longer: seq<Action>)
    requires Reaches(env, start, run, s) && Moves(env, s, t, a, tx)
    ensures Reaches(env, start, longer, With(s, t, tx))
  {
    longer := Then(env, start, run, a);
  }

  lemma FollowOn(env: Env, start: State, run: seq<Action>, s: State, t: TxId, before: Tx, a: Action, after: Tx)
    returns (longer: seq<Action>)
    requires Reaches(env, start, run, With(s, t, before)) && Moves(env, With(s, t, before), t, a, after)
    ensures Reaches(env, start, longer, With(s, t, after))
  {
    longer := Follow(env, start, run, With(s, t, before), t, a, after);
    assert With(With(s, t, before), t, after) == With(s, t, after);
  }

  lemma ConfirmBegins(env: Env, s: State, t: TxId, c: ConfirmParams)
    requires ReadyToConfirm(env, s, t, c)
    ensures Moves(env, s, t, BeginConfirm(t, c), At(c, ConfirmAt.Opening, NO_WRITES, {}))
  {}

  lemma ConfirmLocks(env: Env, s: State, t: TxId, c: ConfirmParams)
    requires ReadyToConfirm(env, s, t, c)
    ensures Moves(env, With(s, t, At(c, ConfirmAt.Opening, NO_WRITES, {})), t, LockRow(t),
                  At(c, Locked(s.db.orders[c.orderId]), NO_WRITES, {c.orderId}))
  {
    var s1 := With(s, t, At(c, ConfirmAt.Opening, NO_WRITES, {}));
    assert OrderFree(s1, t, c.orderId);
    assert ConfirmEnabled(s1, LockRow(t), s1.txs[t]);
  }

  lemma ConfirmTests(env: Env, s: State, t: TxId, c: ConfirmParams, order: Order)
    requires ReadyToConfirm(env, s, t, c) && order == s.db.orders[c.orderId]
    ensures Moves(env, With(s, t, At(c, Locked(order), NO_WRITES, {c.orderId})), t, TestHash(t),
                  At(c, HashFree(order), NO_WRITES, {c.orderId}))
  {
    var s1 := With(s, t, At(c, Locked(order), NO_WRITES, {c.orderId}));
    assert ConfirmEnabled(s1, TestHash(t), s1.txs[t]);
  }

  lemma ConfirmVerifies(env: Env, s: State, t: TxId, c: ConfirmParams, order: Order)
    requires ReadyToConfirm(env, s, t, c) && order == s.db.orders[c.orderId]
    ensures Moves(env, With(s, t, At(c, HashFree(order), NO_WRITES, {c.orderId})), t, VerifyOnChain(t),
                  At(c, Verified(order), NO_WRITES, {c.orderId}))
  {
    VerifyIsExact(env, c.hash, order.total);
    var s1 := With(s, t, At(c, HashFree(order), NO_WRITES, {c.orderId}));
    assert ConfirmEnabled(s1, VerifyOnChain(t), s1.txs[t]);
  }

  function Confirmation(c: ConfirmParams, order: Order): Writes {
    NO_WRITES.(orders := map[c.orderId := ConfirmedOrder(order, c.hash)])
  }

  lemma ConfirmWrites(env: Env, s: State, t: TxId, c: ConfirmParams, order: Order)
    requires ReadyToConfirm(env, s, t, c) && order == s.db.orders[c.orderId]
    ensures Moves(env, With(s, t, At(c, Verified(order), NO_WRITES, {c.orderId})), t, Update(t),
                  At(c, Updated(order), Confirmation(c, order), {c.orderId}))
  {
    var s1 := With(s, t, At(c, Verified(order), NO_WRITES, {c.orderId}));
    assert HashNotPending(s1, t, c.hash);
    assert ConfirmEnabled(s1, Update(t), s1.txs[t]);
  }

  lemma WritesAreConfirm(db: Db, c: ConfirmParams)
    requires c.orderId in db.orders
    ensures Apply(db, Confirmation(c, db.orders[c.orderId])) == Confirm(db, c)
  {
    var w := Confirmation(c, db.orders[c.orderId]);
    assert db.orders + w.orders == Confirm(db, c).orders;
    assert db.items + map[] == db.items && db.lines + map[] == db.lines;
  }

  lemma ConfirmCommits(env: Env, s: State, t: TxId, c: ConfirmParams, order: Order)
    requires ReadyToConfirm(env, s, t, c) && order == s.db.orders[c.orderId]
    ensures var s1 := With(s, t, At(c, Updated(order), Confirmation(c, order), {c.orderId}));
      Enabled(s1, Commit(t)) && Do(env, s1, Commit(t)) ==
        With(s, t, At(c, Ended(Done), NO_WRITES, {})).(db := Confirm(s.db, c))
  {
    WritesAreConfirm(s.db, c);
  }

  lemma ConfirmOpens(env: Env, start: State, before: seq<Action>, s: State, t: TxId, c: ConfirmParams)
    returns (run: seq<Action>)
    requires Reaches(env, start, before, s) && ReadyToConfirm(env, s, t, c)
    ensures Reaches(env, start, run, With(s, t, At(c, Locked(s.db.orders[c.orderId]), NO_WRITES, {c.orderId})))
  {
    var opening := At(c, ConfirmAt.Opening, NO_WRITES, {});
    ConfirmBegins(env, s, t, c);
    run := Follow(env, start, before, s, t, BeginConfirm(t, c), opening);
    ConfirmLocks(env, s, t, c);
    run := FollowOn(env, start, run, s, t, opening, LockRow(t),
                    At(c, Locked(s.db.orders[c.orderId]), NO_WRITES, {c.orderId}));
  }

  lemma ConfirmPasses(env: Env, start: State, before: seq<Action>, s: State, t: TxId, c: ConfirmParams, order: Order)
    returns (run: seq<Action>)
    requires ReadyToConfirm(env, s, t, c) && order == s.db.orders[c.orderId]
    requires Reaches(env, start, before, With(s, t, At(c, Locked(order), NO_WRITES, {c.orderId})))
    ensures Reaches(env, start, run, With(s, t, At(c, HashFree(order), NO_WRITES, {c.orderId})))
  {
    ConfirmTests(env, s, t, c, order);
    run := FollowOn(env, start, before, s, t, At(c, Locked(order), NO_WRITES, {c.orderId}), TestHash(t),
                    At(c, HashFree(order), NO_WRITES, {c.orderId}));
  }

  lemma ConfirmIsPaid(env: Env, start: State, before: seq<Action>, s: State, t: TxId, c: ConfirmParams, order: Order)
    returns (run: seq<Action>)
    requires ReadyToConfirm(env, s, t, c) && order == s.db.orders[c.orderId]
    requires Reaches(env, start, before, With(s, t, At(c, HashFree(order), NO_WRITES, {c.orderId})))
    ensures Reaches(env, start, run, With(s, t, At(c, Verified(order), NO_WRITES, {c.orderId})))
  {
    ConfirmVerifies(env, s, t, c, order);
    run := FollowOn(env, start, before, s, t, At(c, HashFree(order), NO_WRITES, {c.orderId}), VerifyOnChain(t),
                    At(c, Verified(order), NO_WRITES, {c.orderId}));
  }

  lemma ConfirmEnds(env: Env, start: State, before: seq<Action>, s: State, t: TxId, c: ConfirmParams, order: Order)
    returns (run: seq<Action>)
    requires ReadyToConfirm(env, s, t, c) && order == s.db.orders[c.orderId]
    requires Reaches(env, start, before, With(s, t, At(c, Verified(order), NO_WRITES, {c.orderId})))
    ensures Reaches(env, start, run, With(s, t, At(c, Ended(Done), NO_WRITES, {})).(db := Confirm(s.db, c)))
  {
    var updated := At(c, Updated(order), Confirmation(c, order), {c.orderId});
    ConfirmWrites(env, s, t, c, order);
    run := FollowOn(env, start, before, s, t, At(c, Verified(order), NO_WRITES, {c.orderId}), Update(t), updated);
    ConfirmCommits(env, s, t, c, order);
    run := Then(env, start, run, Commit(t));
  }

  /** An undisturbed confirmation of a confirmable order goes through. */
  lemma ConfirmAlone(env: Env, start: State, before: seq<Action>, s: State, t: TxId, c: ConfirmParams)
    returns (run: seq<Action>)
    requires Reaches(env, start, before, s) && ReadyToConfirm(env, s, t, c)
    ensures Reaches(env, start, run, With(s, t, At(c, Ended(Done), NO_WRITES, {})).(db := Confirm(s.db, c)))
  {
    var order := s.db.orders[c.orderId];
    run := ConfirmOpens(env, start, before, s, t, c);
    run := ConfirmPasses(env, start, run, s, t, c, order);
    run := ConfirmIsPaid(env, start, run, s, t, c, order);
    run := ConfirmEnds(env, start, run, s, t, c, order);
  }

  const ITEM := "i"
  const ONE := "1"
  const TWO := "2"

  function Unpaid(amount: int): Order { Order("u", None, Pending, None, amount, None, 0) }

  function TwoOrders(amount: nat): State {
    State(Db(map[ITEM := Item(amount, 0, None, true, None)], map[ONE := Unpaid(amount), TWO := Unpaid(amount)],
             map[(ONE, ITEM) := Line(1, amount), (TWO, ITEM) := Line(1, amount)]), map[], map[ITEM := 2])
  }

  lemma TwoUnitsHeld(amount: nat)
    ensures Held(TwoOrders(amount).db, ITEM) == 2
  {
    var db := TwoOrders(amount).db;
    var rows := HeldRows(db, ITEM);
    assert (ONE, ITEM) in db.lines && (TWO, ITEM) in db.lines;
    TotalPick(rows, ONE);
    TotalPick(rows - {ONE}, TWO);
    assert rows - {ONE} - {TWO} == map[];
  }

  lemma LinesCost(amount: nat, o: OrderId)
    requires o == ONE || o == TWO
    ensures LineTotal(TwoOrders(amount).db.lines, o) == amount
  {
    var lines := TwoOrders(amount).db.lines;
    assert (ONE, ITEM) in lines && (TWO, ITEM) in lines;
    var rows := LineRows(lines, o);
    TotalPick(rows, (o, ITEM));
    assert rows - {(o, ITEM)} == map[];
  }

  lemma TwoOrdersOpen(env: Env, amount: nat)
    requires Rounding(env.fl) && amount < DECIMAL_LIMIT
    ensures Opening(env, TwoOrders(amount))
  {
    StockOfTwo(amount);
    OrdersOfTwo(env, amount);
    NoCapsOfTwo(amount);
  }

  lemma StockOfTwo(amount: nat)
    ensures StockConserved(TwoOrders(amount).db, TwoOrders(amount).supply)
  {
    TwoUnitsHeld(amount);
  }

  lemma OrdersOfTwo(env: Env, amount: nat)
    requires amount < DECIMAL_LIMIT
    ensures OrdersSound(env, TwoOrders(amount).db)
  {
    LinesCost(amount, ONE);
    LinesCost(amount, TWO);
  }

  lemma NoCapsOfTwo(amount: nat)
    ensures var db := TwoOrders(amount).db; CapsRespected(db) && LinesLinked(db) && KeysUnique(db) && HashesUnique(db)
  {}

  /** Under two names, one transfer confirms two orders. */
  lemma TwoNamesPayTwice(env: Env, g: string, h: string, amount: int) returns (s: State, run: seq<Action>)
    requires Rounding(env.fl) && Configured(env) && Payable(env, g, amount) && Payable(env, h, amount) && g != h
    ensures Opening(env, s) && Possible(env, s, run)
    ensures var orders := After(env, s, run).db.orders;
      ONE in orders && TWO in orders && orders[ONE].hash == Some(g) && orders[TWO].hash == Some(h)
  {
    s := TwoOrders(amount);
    TwoOrdersOpen(env, amount);
    var first, second := ConfirmParams(ONE, "u", g), ConfirmParams(TWO, "u", h);
    ReadyFirst(env, amount, first);
    run := ConfirmAlone(env, s, [], s, 0, first);
    ReadySecond(env, amount, first, second);
    run := ConfirmAlone(env, s, run, AfterFirst(amount, first), 1, second);
  }

  function AfterFirst(amount: nat, c: ConfirmParams): State
    requires c.orderId == ONE
  {
    var s := TwoOrders(amount);
    State(Confirm(s.db, c), map[0 := At(c, Ended(Done), NO_WRITES, {})], s.supply)
  }

  lemma ReadyFirst(env: Env, amount: nat, c: ConfirmParams)
    requires Rounding(env.fl) && Configured(env) && Payable(env, c.hash, amount) && c.orderId == ONE && c.user == "u"
    ensures ReadyToConfirm(env, TwoOrders(amount), 0, c)
    ensures With(TwoOrders(amount), 0, At(c, Ended(Done), NO_WRITES, {})).(db := Confirm(TwoOrders(amount).db, c)) ==
      AfterFirst(amount, c)
  {
    assert Utf8Length(ONE) == 1 by { assert ONE[1..] == ""; }
  }

  lemma ReadySecond(env: Env, amount: nat, first: ConfirmParams, c: ConfirmParams)
    requires Rounding(env.fl) && Configured(env) && Payable(env, c.hash, amount) && first.hash != c.hash
    requires first.orderId == ONE && c.orderId == TWO && c.user == "u"
    ensures ReadyToConfirm(env, AfterFirst(amount, first), 1, c)
  {
    assert Utf8Length(TWO) == 1 by { assert TWO[1..] == ""; }
    assert ONE != TWO;
  }

  /**
   * Runs pay each order with a transfer of its own if and only if no payable transfer goes by two
   * names, or confirmations are switched off for want of a wallet.
   */
  lemma OneTransferOneOrder(env: Env, transfer: string -> TransferId)
    requires Rounding(env.fl) && Identifies(env, transfer)
    ensures AlwaysPaidApart(env, transfer) <==> !Configured(env) || OneName(env, transfer)
  {
    if !Configured(env) || OneName(env, transfer) {
      forall s, run | Opening(env, s) && Possible(env, s, run)
        ensures PaidApart(transfer, After(env, s, run).db)
      {
        if OneName(env, transfer) {
          OneNamePaysOnce(env, transfer, s, run);
        } else {
          InitialIsInv(env, s);
          RunKeepsHashes(env, s, run);
        }
      }
    } else {
      var g, h, amount :| Payable(env, g, amount) && Payable(env, h, amount) && transfer(g) == transfer(h) && g != h;
      var s, run := TwoNamesPayTwice(env, g, h, amount);
      assert !PaidApart(transfer, After(env, s, run).db) by { assert ONE != TWO; }
    }
  }

  // ----- the spellings a hash may take -----

  lemma {:induction false} LowerIsUsable(hash: string)
    ensures HashSafe(hash) ==> HashSafe(ToLower(hash)) && Utf8Length(ToLower(hash)) == Utf8Length(hash)
  {
    if hash == "" {
    } else {
      LowerIsUsable(hash[1..]);
      assert ToLower(hash)[1..] == ToLower(hash[1..]);
      if HashSafe(hash) {
        assert forall i :: 0 <= i < |hash| - 1 ==> hash[1..][i] == hash[i + 1];
        assert '0' <= hash[0] <= '9' || 'a' <= hash[0] <= 'z' || 'A' <= hash[0] <= 'Z';
      }
    }
  }

  /** A chain that reads hashes in either letter case lets one transfer pay twice once a hash has a capital. */
  lemma EitherCasePaysTwice(env: Env, transfer: string -> TransferId, hash: string, amount: int)
    requires Rounding(env.fl) && Configured(env) && Identifies(env, transfer)
    requires transfer(hash) == transfer(ToLower(hash)) && Payable(env, hash, amount) && hash != ToLower(hash)
    ensures !AlwaysPaidApart(env, transfer)
  {
    LowerIsUsable(hash);
    assert env.chain(hash) == env.chain(ToLower(hash));
    assert Payable(env, ToLower(hash), amount);
    OneTransferOneOrder(env, transfer);
  }
}
