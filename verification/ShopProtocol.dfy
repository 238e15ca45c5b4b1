/**
 * Checkouts, confirmations and sweeps as interleaved database transactions. Each step is
 * one statement of the code, or one row of a statement that locks several; READ COMMITTED
 * means a statement sees the committed tables plus its own transaction's writes.
 */
module ShopProtocol {
  import opened Text
  import opened Money
  import opened ShopTables

  datatype Writes = Writes(items: map<ItemId, Item>, orders: map<OrderId, Order>, lines: map<LineKey, Line>)

  const NO_WRITES := Writes(map[], map[], map[])

  /** The tables as a transaction with these uncommitted writes sees them. */
  function Apply(db: Db, w: Writes): Db {
    Db(db.items + w.items, db.orders + w.orders, db.lines + w.lines)
  }

  datatype BuyAt =
    | Replaying                          // looking the idempotency key up, outside the transaction
    | Locking(todo: seq<ItemId>)         // SELECT ... ORDER BY id FOR UPDATE, rows still to lock
    | Checking(n: nat, total: int)       // the first n lines passed
    | Writing(n: nat, total: int)        // the order row is in, with the first n lines and decrements
    | Rereading                          // the insert hit the unique index; reading the winner's order
    | Bought(outcome: CheckoutOutcome)
    | BuyAborted                         // a database or network error; everything rolled back

  datatype ConfirmAt =
    | Opening
    | Locked(order: Order)
    | HashFree(order: Order)
    | Verified(order: Order)
    | Updated(order: Order)
    | Ended(outcome: ConfirmOutcome)
    | ConfirmAborted

  datatype SweepAt =
    | Selecting
    | Restoring(left: set<OrderId>, done: set<OrderId>)
    | Returning(order: OrderId, todo: set<ItemId>, left: set<OrderId>, done: set<OrderId>)
    | Swept(done: set<OrderId>)
    | SweepAborted

  datatype Job =
    | Buying(p: CheckoutParams, buyAt: BuyAt, catalog: map<ItemId, Item>)
    | Confirming(c: ConfirmParams, confirmAt: ConfirmAt)
    | Sweeping(cutoff: int, sweepAt: SweepAt)

  /** A transaction: where it is, what it has written, and the rows it has locked. */
  datatype Tx = Tx(job: Job, writes: Writes, heldItems: set<ItemId>, heldOrders: set<OrderId>)

  type TxId = nat

  /** The committed tables, every transaction started so far, and the units ever stocked. */
  datatype State = State(db: Db, txs: map<TxId, Tx>, supply: map<ItemId, int>)

  function Finish(job: Job): Tx { Tx(job, NO_WRITES, {}, {}) }

  // ----- locks -----

  ghost predicate ItemFree(s: State, t: TxId, i: ItemId) {
    forall u :: u in s.txs && u != t ==> i !in s.txs[u].heldItems
  }

  ghost predicate OrderFree(s: State, t: TxId, o: OrderId) {
    forall u :: u in s.txs && u != t ==> o !in s.txs[u].heldOrders
  }

  /** `tx` has an uncommitted order under this idempotency key. */
  predicate InsertsKey(tx: Tx, user: string, key: string) {
    tx.job.Buying? && tx.job.buyAt.Writing? && tx.job.p.user == user && tx.job.p.key == key && key != ""
  }

  /** `tx` has an uncommitted update setting this transaction hash. */
  predicate SetsHash(tx: Tx, hash: string) {
    tx.job.Confirming? && tx.job.confirmAt.Updated? && tx.job.c.hash == hash
  }

  ghost predicate KeyFree(s: State, t: TxId, user: string, key: string) {
    forall u :: u in s.txs && u != t ==> !InsertsKey(s.txs[u], user, key)
  }

  ghost predicate HashNotPending(s: State, t: TxId, hash: string) {
    forall u :: u in s.txs && u != t ==> !SetsHash(s.txs[u], hash)
  }

  // ----- Checkout, statement by statement -----

  predicate StrictlySorted(ids: seq<ItemId>) {
    forall m, n :: 0 <= m < n < |ids| ==> Less(ids[m], ids[n])
  }

  /** The ids of the cart in the order the SELECT ... ORDER BY id FOR UPDATE visits them. */
  predicate LockOrder(cart: seq<CartLine>, todo: seq<ItemId>) {
    StrictlySorted(todo) && (set i | i in todo) == CartIds(cart)
  }

  ghost function FindByKey(db: Db, user: string, key: string): Option<OrderId> {
    if KeyTaken(db, user, key) then
      var o :| o in db.orders && db.orders[o].user == user && db.orders[o].key == Some(key);
      Some(o)
    else None
  }

  ghost function LookUpKey(db: Db, tx: Tx, todo: seq<ItemId>): Tx
    requires tx.job.Buying?
  {
    match FindByKey(db, tx.job.p.user, tx.job.p.key)
    case Some(o) => Finish(tx.job.(buyAt := Bought(Placed(o, db.orders[o].total))))
    case None => tx.(job := tx.job.(buyAt := Locking(todo)))
  }

  predicate RowSelected(db: Db, tx: Tx, i: ItemId)
    requires tx.job.Buying?
  {
    i in db.items && Purchasable(db.items[i], tx.job.p.event)
  }

  function LockItem(db: Db, tx: Tx): Tx
    requires tx.job.Buying? && tx.job.buyAt.Locking? && tx.job.buyAt.todo != []
  {
    var i, rest := tx.job.buyAt.todo[0], tx.job.buyAt.todo[1..];
    if RowSelected(db, tx, i) then
      tx.(job := tx.job.(buyAt := Locking(rest), catalog := tx.job.catalog[i := db.items[i]]),
          heldItems := tx.heldItems + {i})
    else tx.(job := tx.job.(buyAt := Locking(rest)))
  }

  function StartChecks(tx: Tx): Tx
    requires tx.job.Buying?
  {
    tx.(job := tx.job.(buyAt := Checking(0, 0)))
  }

  function Reject(tx: Tx, e: CheckoutError): Tx
    requires tx.job.Buying?
  {
    Finish(tx.job.(buyAt := Bought(Rejected(e))))
  }

  ghost function CheckLine(db: Db, tx: Tx): Tx
    requires tx.job.Buying? && tx.job.buyAt.Checking? && tx.job.buyAt.n < |tx.job.p.cart|
  {
    var Checking(n, total) := tx.job.buyAt;
    var p, want := tx.job.p, tx.job.p.cart[n];
    if want.id !in tx.job.catalog then Reject(tx, ItemUnavailable(want.id))
    else
      var row := tx.job.catalog[want.id];
      if row.stock < want.quantity then Reject(tx, StockShortfall(want.id, row.stock))
      else
        var purchased := Purchased(db, p.user, p.event, want.id);
        if row.maxPerUser.Some? && row.maxPerUser.value > 0 && purchased + want.quantity > row.maxPerUser.value then
          Reject(tx, PerUserLimit(want.id, row.maxPerUser.value, purchased))
        else tx.(job := tx.job.(buyAt := Checking(n + 1, total + row.price * want.quantity)))
  }

  ghost function InsertOrder(db: Db, tx: Tx): Tx
    requires tx.job.Buying? && tx.job.buyAt.Checking?
  {
    var total := tx.job.buyAt.total;
    if total >= DECIMAL_LIMIT then Reject(tx, TotalOutOfRange)
    else if KeyTaken(db, tx.job.p.user, tx.job.p.key) then tx.(job := tx.job.(buyAt := Rereading))
    else tx.(job := tx.job.(buyAt := Writing(0, total)),
             writes := NO_WRITES.(orders := map[tx.job.p.orderId := NewOrder(tx.job.p, total)]))
  }

  ghost function Reread(db: Db, tx: Tx): Tx
    requires tx.job.Buying?
  {
    match FindByKey(db, tx.job.p.user, tx.job.p.key)
    case Some(o) => Finish(tx.job.(buyAt := Bought(Placed(o, db.orders[o].total))))
    case None => Reject(tx, DuplicateOrder)
  }

  /** Whether the guarded decrement of the next line finds a row to update. */
  predicate DecrementHits(db: Db, tx: Tx)
    requires tx.job.Buying? && tx.job.buyAt.Writing? && tx.job.buyAt.n < |tx.job.p.cart|
  {
    var want, view := tx.job.p.cart[tx.job.buyAt.n], Apply(db, tx.writes);
    want.id in view.items && want.quantity <= view.items[want.id].stock
  }

  function WriteLine(db: Db, tx: Tx): Tx
    requires tx.job.Buying? && tx.job.buyAt.Writing? && tx.job.buyAt.n < |tx.job.p.cart|
  {
    var Writing(n, total) := tx.job.buyAt;
    var want, view := tx.job.p.cart[n], Apply(db, tx.writes);
    if !DecrementHits(db, tx) then
      Reject(tx, StockShortfall(want.id, if want.id in tx.job.catalog then tx.job.catalog[want.id].stock else 0))
    else
      var row := view.items[want.id];
      var price := if want.id in tx.job.catalog then tx.job.catalog[want.id].price else 0;
      tx.(job := tx.job.(buyAt := Writing(n + 1, total)),
          writes := tx.writes.(items := tx.writes.items[want.id := row.(stock := row.stock - want.quantity)],
                               lines := tx.writes.lines[(tx.job.p.orderId, want.id) := Line(want.quantity, price)]))
  }

  // ----- ConfirmOrder, statement by statement -----

  function EndConfirm(tx: Tx, outcome: ConfirmOutcome): Tx
    requires tx.job.Confirming?
  {
    Finish(tx.job.(confirmAt := Ended(outcome)))
  }

  function LockOrderRow(db: Db, tx: Tx): Tx
    requires tx.job.Confirming?
  {
    var c := tx.job.c;
    if c.orderId !in db.orders then EndConfirm(tx, NotFound)
    else
      var order := db.orders[c.orderId];
      if order.user != c.user then EndConfirm(tx, NotOwned)
      else if !order.status.Pending? then EndConfirm(tx, NotPending)
      else tx.(job := tx.job.(confirmAt := Locked(order)), heldOrders := {c.orderId})
  }

  ghost function CheckHash(db: Db, tx: Tx): Tx
    requires tx.job.Confirming? && tx.job.confirmAt.Locked?
  {
    if exists o :: o in db.orders && o != tx.job.c.orderId && db.orders[o].hash == Some(tx.job.c.hash) then
      EndConfirm(tx, HashUsed)
    else tx.(job := tx.job.(confirmAt := HashFree(tx.job.confirmAt.order)))
  }

  function Verify(env: Env, tx: Tx): Tx
    requires tx.job.Confirming? && tx.job.confirmAt.HashFree?
  {
    var order := tx.job.confirmAt.order;
    if VerifyPayment(env, env.chain(tx.job.c.hash), FromScaled(env.fl, order.total)).Accepted? then
      tx.(job := tx.job.(confirmAt := Verified(order)))
    else EndConfirm(tx, PaymentRefused)
  }

  /** Whether UPDATE ... WHERE id = $1 AND status = 'PENDING' finds its row. */
  predicate ConfirmHits(db: Db, tx: Tx)
    requires tx.job.Confirming?
  {
    tx.job.c.orderId in db.orders && db.orders[tx.job.c.orderId].status.Pending?
  }

  ghost function UpdateOrder(db: Db, tx: Tx): Tx
    requires tx.job.Confirming? && tx.job.confirmAt.Verified?
  {
    var c := tx.job.c;
    if !ConfirmHits(db, tx) then EndConfirm(tx, NotPending)
    else if HashTaken(db, c.hash) then EndConfirm(tx, HashUsed)
    else tx.(job := tx.job.(confirmAt := Updated(tx.job.confirmAt.order)),
             writes := NO_WRITES.(orders := map[c.orderId := ConfirmedOrder(db.orders[c.orderId], c.hash)]))
  }

  // ----- MarkStaleOrders, row by row -----

  function ItemsOf(lines: map<LineKey, Line>, o: OrderId): set<ItemId> {
    set k | k in lines && k.0 == o :: k.1
  }

  predicate Stale(db: Db, o: OrderId, cutoff: int) {
    o in db.orders && db.orders[o].status.Pending? && db.orders[o].createdOn < cutoff
  }

  function SelectStale(tx: Tx, o: OrderId): Tx { tx.(heldOrders := tx.heldOrders + {o}) }

  function StartRestoring(tx: Tx): Tx
    requires tx.job.Sweeping?
  {
    tx.(job := tx.job.(sweepAt := Restoring(tx.heldOrders, {})))
  }

  /** Whether UPDATE ... SET status = 'EXPIRED' WHERE status = 'PENDING' finds its row. */
  predicate ExpireHits(db: Db, tx: Tx, o: OrderId) {
    var view := Apply(db, tx.writes);
    o in view.orders && view.orders[o].status.Pending?
  }

  function ExpireOrder(db: Db, tx: Tx, o: OrderId): Tx
    requires tx.job.Sweeping? && tx.job.sweepAt.Restoring?
  {
    var Restoring(left, done) := tx.job.sweepAt;
    if !ExpireHits(db, tx, o) then tx.(job := tx.job.(sweepAt := Restoring(left - {o}, done)))
    else
      var order := Apply(db, tx.writes).orders[o];
      tx.(job := tx.job.(sweepAt := Returning(o, ItemsOf(db.lines, o), left - {o}, done)),
          writes := tx.writes.(orders := tx.writes.orders[o := order.(status := Expired)]))
  }

  function ReturnItem(db: Db, tx: Tx, i: ItemId): Tx
    requires tx.job.Sweeping? && tx.job.sweepAt.Returning?
  {
    var Returning(o, todo, left, done) := tx.job.sweepAt;
    var view := Apply(db, tx.writes);
    var next := tx.(job := tx.job.(sweepAt := Returning(o, todo - {i}, left, done)));
    if i !in view.items then next
    else
      var row := view.items[i];
      next.(writes := tx.writes.(items := tx.writes.items[i := row.(stock := row.stock + Qty(db.lines, o, i))]),
            heldItems := tx.heldItems + {i})
  }

  function NextOrder(tx: Tx): Tx
    requires tx.job.Sweeping? && tx.job.sweepAt.Returning?
  {
    var Returning(o, todo, left, done) := tx.job.sweepAt;
    tx.(job := tx.job.(sweepAt := Restoring(left, done + {o})))
  }

  // ----- commit and rollback -----

  predicate Committable(tx: Tx) {
    match tx.job
    case Buying(p, at, _) => at.Writing? && at.n == |p.cart|
    case Confirming(_, at) => at.Updated?
    case Sweeping(_, at) => at.Restoring? && at.left == {}
  }

  function Committed(tx: Tx): Tx
    requires Committable(tx)
  {
    match tx.job
    case Buying(p, at, _) => Finish(tx.job.(buyAt := Bought(Placed(p.orderId, at.total))))
    case Confirming(_, _) => EndConfirm(tx, Done)
    case Sweeping(_, at) => Finish(tx.job.(sweepAt := Swept(at.done)))
  }

  predicate Over(tx: Tx) {
    match tx.job
    case Buying(_, at, _) => at.Bought? || at.BuyAborted?
    case Confirming(_, at) => at.Ended? || at.ConfirmAborted?
    case Sweeping(_, at) => at.Swept? || at.SweepAborted?
  }

  function RolledBack(tx: Tx): Tx {
    match tx.job
    case Buying(_, _, _) => Finish(tx.job.(buyAt := BuyAborted))
    case Confirming(_, _) => Finish(tx.job.(confirmAt := ConfirmAborted))
    case Sweeping(_, _) => Finish(tx.job.(sweepAt := SweepAborted))
  }

  // ----- the steps of the whole system -----

  datatype Action =
    | BeginCheckout(t: TxId, p: CheckoutParams)
    | LookUp(t: TxId, order: seq<ItemId>)
    | Lock(t: TxId)
    | Check(t: TxId)
    | Insert(t: TxId)
    | Read(t: TxId)
    | Write(t: TxId)
    | BeginConfirm(t: TxId, c: ConfirmParams)
    | LockRow(t: TxId)
    | TestHash(t: TxId)
    | VerifyOnChain(t: TxId)
    | Update(t: TxId)
    | BeginSweep(t: TxId, cutoff: int)
    | Select(t: TxId, o: OrderId)
    | EndSelect(t: TxId)
    | Expire(t: TxId, o: OrderId)
    | Return(t: TxId, i: ItemId)
    | Next(t: TxId)
    | Commit(t: TxId)
    | Rollback(t: TxId)
    | AdminFulfil(o: OrderId)
    | AdminReverse(o: OrderId, final: Status)
    | AdminEdit(i: ItemId, price: nat, visible: bool, event: Option<string>, added: int)

  predicate Admin(a: Action) { a.AdminFulfil? || a.AdminReverse? || a.AdminEdit? }

  predicate Begins(a: Action) { a.BeginCheckout? || a.BeginConfirm? || a.BeginSweep? }

  ghost predicate UnusedOrderId(s: State, o: OrderId) {
    o !in s.db.orders && forall u :: u in s.txs && s.txs[u].job.Buying? ==> s.txs[u].job.p.orderId != o
  }

  ghost predicate Begun(s: State, a: Action)
    requires Begins(a)
  {
    && a.t !in s.txs
    && (a.BeginCheckout? ==> ValidCart(a.p.cart) && UnusedOrderId(s, a.p.orderId))
    && (a.BeginConfirm? ==> ValidConfirm(a.c.orderId, a.c.hash))
  }

  function Fresh(env: Env, a: Action): Tx
    requires Begins(a)
  {
    match a
    case BeginCheckout(_, p) => Finish(Buying(p, Replaying, map[]))
    case BeginConfirm(_, c) =>
      Finish(Confirming(c, if TrimSpace(env.wallet) == "" then Ended(WalletNotConfigured) else Opening))
    case BeginSweep(_, cutoff) => Finish(Sweeping(cutoff, Selecting))
  }

  ghost predicate BuyEnabled(s: State, a: Action, tx: Tx) {
    tx.job.Buying? &&
    match a
    case LookUp(_, order) => tx.job.buyAt.Replaying? && LockOrder(tx.job.p.cart, order)
    case Lock(t) => tx.job.buyAt.Locking? &&
      (tx.job.buyAt.todo != [] && RowSelected(s.db, tx, tx.job.buyAt.todo[0]) ==> ItemFree(s, t, tx.job.buyAt.todo[0]))
    case Check(_) => tx.job.buyAt.Checking? && tx.job.buyAt.n < |tx.job.p.cart|
    case Insert(t) => tx.job.buyAt.Checking? && tx.job.buyAt.n == |tx.job.p.cart| &&
      (tx.job.buyAt.total < DECIMAL_LIMIT ==> KeyFree(s, t, tx.job.p.user, tx.job.p.key))
    case Read(_) => tx.job.buyAt.Rereading?
    case Write(_) => tx.job.buyAt.Writing? && tx.job.buyAt.n < |tx.job.p.cart|
    case _ => false
  }

  ghost function BuyStep(s: State, a: Action, tx: Tx): Tx
    requires BuyEnabled(s, a, tx)
  {
    match a
    case LookUp(_, order) => LookUpKey(s.db, tx, order)
    case Lock(_) => if tx.job.buyAt.todo == [] then StartChecks(tx) else LockItem(s.db, tx)
    case Check(_) => CheckLine(s.db, tx)
    case Insert(_) => InsertOrder(s.db, tx)
    case Read(_) => Reread(s.db, tx)
    case Write(_) => WriteLine(s.db, tx)
  }

  ghost predicate ConfirmEnabled(s: State, a: Action, tx: Tx) {
    tx.job.Confirming? &&
    match a
    case LockRow(t) => tx.job.confirmAt.Opening? &&
      (tx.job.c.orderId in s.db.orders ==> OrderFree(s, t, tx.job.c.orderId))
    case TestHash(_) => tx.job.confirmAt.Locked?
    case VerifyOnChain(_) => tx.job.confirmAt.HashFree?
    case Update(t) => tx.job.confirmAt.Verified? && HashNotPending(s, t, tx.job.c.hash)
    case _ => false
  }

  ghost function ConfirmStep(env: Env, s: State, a: Action, tx: Tx): Tx
    requires ConfirmEnabled(s, a, tx)
  {
    match a
    case LockRow(_) => LockOrderRow(s.db, tx)
    case TestHash(_) => CheckHash(s.db, tx)
    case VerifyOnChain(_) => Verify(env, tx)
    case Update(_) => UpdateOrder(s.db, tx)
  }

  ghost predicate SweepEnabled(s: State, a: Action, tx: Tx) {
    tx.job.Sweeping? &&
    match a
    case Select(t, o) => tx.job.sweepAt.Selecting? && Stale(s.db, o, tx.job.cutoff) && OrderFree(s, t, o)
    case EndSelect(_) => tx.job.sweepAt.Selecting?
    case Expire(_, o) => tx.job.sweepAt.Restoring? && o in tx.job.sweepAt.left
    case Return(t, i) => tx.job.sweepAt.Returning? && i in tx.job.sweepAt.todo && ItemFree(s, t, i)
    case Next(_) => tx.job.sweepAt.Returning? && tx.job.sweepAt.todo == {}
    case _ => false
  }

  ghost function SweepStep(s: State, a: Action, tx: Tx): Tx
    requires SweepEnabled(s, a, tx)
  {
    match a
    case Select(_, o) => SelectStale(tx, o)
    case EndSelect(_) => StartRestoring(tx)
    case Expire(_, o) => ExpireOrder(s.db, tx, o)
    case Return(_, i) => ReturnItem(s.db, tx, i)
    case Next(_) => NextOrder(tx)
  }

  ghost predicate OrderUnlocked(s: State, o: OrderId) {
    forall u :: u in s.txs ==> o !in s.txs[u].heldOrders
  }

  ghost predicate ItemsUnlocked(s: State, items: set<ItemId>) {
    forall u :: u in s.txs ==> s.txs[u].heldItems !! items
  }

  /** The organizer's changes take the same row locks, so they wait for rows in use. */
  ghost predicate AdminEnabled(s: State, a: Action)
    requires Admin(a)
  {
    match a
    case AdminFulfil(o) => o in s.db.orders && s.db.orders[o].status.Confirmed? && OrderUnlocked(s, o)
    case AdminReverse(o, final) =>
      o in s.db.orders && Holds(s.db.orders[o].status) && !Holds(final) && OrderUnlocked(s, o)
      && ItemsUnlocked(s, ItemsOf(s.db.lines, o))
    case AdminEdit(i, _, _, _, added) =>
      i in s.db.items && i in s.supply && s.db.items[i].stock + added >= 0 && ItemsUnlocked(s, {i})
  }

  ghost function AdminStep(s: State, a: Action): State
    requires Admin(a) && AdminEnabled(s, a)
  {
    match a
    case AdminFulfil(o) => s.(db := Fulfil(s.db, o))
    case AdminReverse(o, final) => s.(db := Release(s.db, {o}, final))
    case AdminEdit(i, price, visible, event, added) =>
      s.(db := EditItem(s.db, i, price, visible, event, added), supply := s.supply[i := s.supply[i] + added])
  }

  ghost predicate Enabled(s: State, a: Action) {
    if Admin(a) then AdminEnabled(s, a)
    else if Begins(a) then Begun(s, a)
    else
      a.t in s.txs &&
      var tx := s.txs[a.t];
      if a.Commit? then Committable(tx)
      else if a.Rollback? then !Over(tx)
      else BuyEnabled(s, a, tx) || ConfirmEnabled(s, a, tx) || SweepEnabled(s, a, tx)
  }

  /** The state after step `a`. Only a commit or the organizer changes the committed tables. */
  ghost function Do(env: Env, s: State, a: Action): State
    requires Enabled(s, a)
  {
    if Admin(a) then AdminStep(s, a)
    else if Begins(a) then s.(txs := s.txs[a.t := Fresh(env, a)])
    else
      var tx := s.txs[a.t];
      if a.Commit? then s.(db := Apply(s.db, tx.writes), txs := s.txs[a.t := Committed(tx)])
      else s.(txs := s.txs[a.t := StepTx(env, s, a)])
  }

  ghost function StepTx(env: Env, s: State, a: Action): Tx
    requires Enabled(s, a) && !Admin(a) && !Begins(a) && !a.Commit?
  {
    var tx := s.txs[a.t];
    if a.Rollback? then RolledBack(tx)
    else if BuyEnabled(s, a, tx) then BuyStep(s, a, tx)
    else if ConfirmEnabled(s, a, tx) then ConfirmStep(env, s, a, tx)
    else SweepStep(s, a, tx)
  }

  // ----- runs -----

  ghost predicate Possible(env: Env, s: State, run: seq<Action>)
    decreases |run|
  {
    run == [] || (Enabled(s, run[0]) && Possible(env, Do(env, s, run[0]), run[1..]))
  }

  ghost function After(env: Env, s: State, run: seq<Action>): State
    requires Possible(env, s, run)
    decreases |run|
  {
    if run == [] then s else After(env, Do(env, s, run[0]), run[1..])
  }

  /** A shop with sound tables and no transaction running yet. */
  ghost predicate Initial(env: Env, s: State) {
    Rounding(env.fl) && Sound(env, s.db, s.supply) && s.txs == map[]
  }
}
