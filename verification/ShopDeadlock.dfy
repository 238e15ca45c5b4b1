/**
 * Why the deadlock result is about checkouts only: a sweep returns stock in no fixed item
 * order, so a sweep and a checkout can each hold the row the other wants.
 */
module ShopDeadlock {
  import opened Text
  import opened Sums
  import opened Money
  import opened ShopTables
  import opened ShopProtocol
  import opened ShopRuns

  const A := "a"
  const B := "b"
  const OLD_ORDER := "o"
  const NEW_ORDER := "n"
  const SWEEP: TxId := 0
  const BUYER: TxId := 1

  const ENV := Env(x => x, hash => Details(false, None, Missing, false, ""), "w")
  const UNITS := Item(0, 1, None, true, None)
  const STALE := Order("u", None, Pending, None, 0, None, 0)
  const CART := [CartLine(A, 1), CartLine(B, 1)]
  const PARAMS := CheckoutParams(NEW_ORDER, "v", "e", "", CART, 5)
  const DB := Db(map[A := UNITS, B := UNITS], map[OLD_ORDER := STALE],
                 map[(OLD_ORDER, A) := Line(1, 0), (OLD_ORDER, B) := Line(1, 0)])
  const START := State(DB, map[], map[A := 2, B := 2])

  lemma HeldOne(i: ItemId)
    requires i == A || i == B
    ensures Held(DB, i) == 1
  {
    var rows := HeldRows(DB, i);
    assert (OLD_ORDER, A) in DB.lines && (OLD_ORDER, B) in DB.lines;
    assert rows == map[OLD_ORDER := 1];
    TotalPick(rows, OLD_ORDER);
    assert rows - {OLD_ORDER} == map[];
  }

  lemma StartIsInitial()
    ensures Initial(ENV, START)
  {
    NoRounding();
    OrderIsRight();
    StockIsRight();
    NoCaps();
  }

  lemma NoRounding()
    ensures Rounding(ENV.fl)
  {
    forall x: real | 0.00001 <= Abs(x) <= 1.0e18 ensures Abs(ENV.fl(x) - x) <= ULP * Abs(x) {}
  }

  lemma OrderIsRight()
    ensures OrdersSound(ENV, DB)
  {
    TotalZero(LineRows(DB.lines, OLD_ORDER));
  }

  lemma NoCaps()
    ensures CapsRespected(DB) && LinesLinked(DB) && KeysUnique(DB) && HashesUnique(DB)
  {}

  lemma StockIsRight()
    ensures StockConserved(DB, START.supply)
  {
    HeldOne(A);
    HeldOne(B);
  }

  function Sweeper(at: SweepAt, writes: Writes, items: set<ItemId>, orders: set<OrderId>): Tx {
    Tx(Sweeping(1, at), writes, items, orders)
  }

  /** The sweep has expired the old order and given back its units of B first. */
  const EXPIRED := STALE.(status := Expired)
  const MIDWAY := Sweeper(Returning(OLD_ORDER, {A}, {}, {}),
    Writes(map[B := UNITS.(stock := 2)], map[OLD_ORDER := EXPIRED], map[]), {B}, {OLD_ORDER})

  lemma ItemsOfOld()
    ensures ItemsOf(DB.lines, OLD_ORDER) == {A, B}
  {
    assert (OLD_ORDER, A) in DB.lines && (OLD_ORDER, B) in DB.lines;
    assert (OLD_ORDER, A).1 in ItemsOf(DB.lines, OLD_ORDER) && (OLD_ORDER, B).1 in ItemsOf(DB.lines, OLD_ORDER);
  }

  function With(txs: map<TxId, Tx>): State { START.(txs := txs) }

  ghost predicate Leads(before: map<TxId, Tx>, a: Action, after: map<TxId, Tx>) {
    Enabled(With(before), a) && Do(ENV, With(before), a) == With(after)
  }

  const SELECTING := Sweeper(Selecting, NO_WRITES, {}, {})
  const SELECTED := Sweeper(Selecting, NO_WRITES, {}, {OLD_ORDER})
  const RESTORING := Sweeper(Restoring({OLD_ORDER}, {}), NO_WRITES, {}, {OLD_ORDER})
  const RETURNING := Sweeper(Returning(OLD_ORDER, {A, B}, {}, {}),
    Writes(map[], map[OLD_ORDER := EXPIRED], map[]), {}, {OLD_ORDER})

  lemma SweepSelects()
    ensures Leads(map[], BeginSweep(SWEEP, 1), map[SWEEP := SELECTING])
    ensures Leads(map[SWEEP := SELECTING], Select(SWEEP, OLD_ORDER), map[SWEEP := SELECTED])
  {
    assert {} + {OLD_ORDER} == {OLD_ORDER};
    assert SelectStale(SELECTING, OLD_ORDER) == SELECTED;
    assert map[SWEEP := SELECTING][SWEEP := SELECTED] == map[SWEEP := SELECTED];
  }

  lemma SweepStarts()
    ensures Leads(map[SWEEP := SELECTED], EndSelect(SWEEP), map[SWEEP := RESTORING])
  {
    assert map[SWEEP := SELECTED][SWEEP := RESTORING] == map[SWEEP := RESTORING];
  }

  lemma ExpiringOldOrder()
    ensures ExpireOrder(DB, RESTORING, OLD_ORDER) == RETURNING
  {
    ItemsOfOld();
    assert Apply(DB, NO_WRITES).orders == DB.orders;
    assert {OLD_ORDER} - {OLD_ORDER} == {};
  }

  lemma ReturningB()
    ensures ReturnItem(DB, RETURNING, B) == MIDWAY
  {
    assert (OLD_ORDER, B) in DB.lines;
    assert Apply(DB, RETURNING.writes).items == DB.items;
    assert {A, B} - {B} == {A};
  }

  lemma SweepExpires()
    ensures Leads(map[SWEEP := RESTORING], Expire(SWEEP, OLD_ORDER), map[SWEEP := RETURNING])
  {
    ExpiringOldOrder();
    assert map[SWEEP := RESTORING][SWEEP := RETURNING] == map[SWEEP := RETURNING];
  }

  lemma SweepReturns()
    ensures Leads(map[SWEEP := RETURNING], Return(SWEEP, B), map[SWEEP := MIDWAY])
  {
    ReturningB();
    assert map[SWEEP := RETURNING][SWEEP := MIDWAY] == map[SWEEP := MIDWAY];
  }

  const ASKING := Tx(Buying(PARAMS, Replaying, map[]), NO_WRITES, {}, {})
  const LOCKING := Tx(Buying(PARAMS, Locking([A, B]), map[]), NO_WRITES, {}, {})
  const WAITING := Tx(Buying(PARAMS, Locking([B]), map[A := UNITS]), NO_WRITES, {A}, {})

  lemma CartInOrder()
    ensures ValidCart(CART) && LockOrder(CART, [A, B])
  {
    assert CART[..1] == [CartLine(A, 1)] && CART[..1][..0] == [];
    assert CartIds(CART[..1]) == {A};
    assert Less(A, B);
    assert (set i | i in [A, B]) == {A, B};
  }

  lemma BuyerBegins()
    ensures Leads(map[SWEEP := MIDWAY], BeginCheckout(BUYER, PARAMS), map[SWEEP := MIDWAY, BUYER := ASKING])
  {
    CartInOrder();
    assert NEW_ORDER != OLD_ORDER;
  }

  lemma BuyerLooksUp()
    ensures Leads(map[SWEEP := MIDWAY, BUYER := ASKING], LookUp(BUYER, [A, B]), map[SWEEP := MIDWAY, BUYER := LOCKING])
  {
    CartInOrder();
    assert LookUpKey(DB, ASKING, [A, B]) == LOCKING;
    assert map[SWEEP := MIDWAY, BUYER := ASKING][BUYER := LOCKING] == map[SWEEP := MIDWAY, BUYER := LOCKING];
  }

  lemma BuyerLocks()
    ensures Leads(map[SWEEP := MIDWAY, BUYER := LOCKING], Lock(BUYER), map[SWEEP := MIDWAY, BUYER := WAITING])
  {
    assert [A, B][1..] == [B];
    assert LockItem(DB, LOCKING) == WAITING;
    assert ItemFree(With(map[SWEEP := MIDWAY, BUYER := LOCKING]), BUYER, A);
    assert map[SWEEP := MIDWAY, BUYER := LOCKING][BUYER := WAITING] == map[SWEEP := MIDWAY, BUYER := WAITING];
  }

  lemma BothMidway() returns (run: seq<Action>)
    ensures Possible(ENV, START, run) && After(ENV, START, run) == With(map[SWEEP := MIDWAY, BUYER := WAITING])
  {
    SweepSelects();
    SweepStarts();
    SweepExpires();
    SweepReturns();
    BuyerBegins();
    BuyerLooksUp();
    BuyerLocks();
    run := Then(ENV, START, [], BeginSweep(SWEEP, 1));
    run := Then(ENV, START, run, Select(SWEEP, OLD_ORDER));
    run := Then(ENV, START, run, EndSelect(SWEEP));
    run := Then(ENV, START, run, Expire(SWEEP, OLD_ORDER));
    run := Then(ENV, START, run, Return(SWEEP, B));
    run := Then(ENV, START, run, BeginCheckout(BUYER, PARAMS));
    run := Then(ENV, START, run, LookUp(BUYER, [A, B]));
    run := Then(ENV, START, run, Lock(BUYER));
  }

  lemma NobodyMoves(a: Action)
    requires Enabled(With(map[SWEEP := MIDWAY, BUYER := WAITING]), a) && !Admin(a) && !Begins(a)
    ensures a.Rollback?
  {
    var e := With(map[SWEEP := MIDWAY, BUYER := WAITING]);
    assert !ItemFree(e, SWEEP, A) by { assert A in e.txs[BUYER].heldItems; }
    assert !ItemFree(e, BUYER, B) by { assert B in e.txs[SWEEP].heldItems; }
    assert RowSelected(DB, WAITING, B);
  }

  /** Both transactions are under way and neither has a step but its rollback. */
  ghost predicate Deadlocked(e: State) {
    SWEEP in e.txs && BUYER in e.txs && !Over(e.txs[SWEEP]) && !Over(e.txs[BUYER]) &&
    forall a :: Enabled(e, a) && !Admin(a) && !Begins(a) ==> a.Rollback?
  }

  lemma MidwayIsDeadlocked()
    ensures Deadlocked(With(map[SWEEP := MIDWAY, BUYER := WAITING]))
  {
    forall a | Enabled(With(map[SWEEP := MIDWAY, BUYER := WAITING]), a) && !Admin(a) && !Begins(a)
      ensures a.Rollback?
    {
      NobodyMoves(a);
    }
  }

  /** A run after which a sweep and a checkout can only be rolled back. */
  lemma SweepAndCheckoutCanDeadlock() returns (run: seq<Action>)
    ensures Initial(ENV, START) && Possible(ENV, START, run) && Deadlocked(After(ENV, START, run))
  {
    StartIsInitial();
    run := BothMidway();
    MidwayIsDeadlocked();
  }
}
