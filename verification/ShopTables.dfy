/**
 * The shop's three tables and what each operation does to them when nothing runs
 * beside it. Amounts are integers of ten-thousandths (see Money).
 */
module ShopTables {
  import opened Text
  import opened Sums
  import opened Money

  type ItemId = string
  type OrderId = string
  type LineKey = (OrderId, ItemId)

  datatype Status = Pending | Confirmed | Fulfilled | Expired | Failed

  /** An order in this status keeps its stock and counts against the buyer's allowance. */
  predicate Holds(s: Status) { !s.Expired? && !s.Failed? }

  datatype Item = Item(price: nat, stock: int, maxPerUser: Option<int>, visible: bool, event: Option<string>)
  datatype Order = Order(user: string, event: Option<string>, status: Status, hash: Option<string>,
                         total: int, key: Option<string>, createdOn: int)
  datatype Line = Line(quantity: int, unitPrice: int)

  /** shop_item, shop_order and shop_order_item, each keyed by its primary key. */
  datatype Db = Db(items: map<ItemId, Item>, orders: map<OrderId, Order>, lines: map<LineKey, Line>)

  // ----- sums over the tables -----

  function Qty(lines: map<LineKey, Line>, o: OrderId, i: ItemId): int {
    if (o, i) in lines then lines[(o, i)].quantity else 0
  }

  ghost function HeldRows(db: Db, i: ItemId): map<OrderId, int> {
    map o | o in db.orders :: if Holds(db.orders[o].status) then Qty(db.lines, o, i) else 0
  }

  /** Units of item `i` taken by orders that still hold their stock. */
  ghost function Held(db: Db, i: ItemId): int { Total(HeldRows(db, i)) }

  predicate CountsFor(o: Order, user: string, event: string) {
    o.user == user && (o.event.None? || o.event == Some(event)) && Holds(o.status)
  }

  ghost function PurchasedRows(db: Db, user: string, event: string, i: ItemId): map<OrderId, int> {
    map o | o in db.orders :: if CountsFor(db.orders[o], user, event) then Qty(db.lines, o, i) else 0
  }

  /** Units of item `i` that `user` has already ordered for `event`. */
  ghost function Purchased(db: Db, user: string, event: string, i: ItemId): int {
    Total(PurchasedRows(db, user, event, i))
  }

  ghost function LineRows(lines: map<LineKey, Line>, o: OrderId): map<LineKey, int> {
    map k | k in lines && k.0 == o :: lines[k].quantity * lines[k].unitPrice
  }

  /** What the lines of order `o` add up to. */
  ghost function LineTotal(lines: map<LineKey, Line>, o: OrderId): int { Total(LineRows(lines, o)) }

  // ----- the invariants of the tables -----

  ghost predicate StockConserved(db: Db, supply: map<ItemId, int>) {
    && supply.Keys == db.items.Keys
    && forall i :: i in db.items ==> db.items[i].stock >= 0 && db.items[i].stock + Held(db, i) == supply[i]
  }

  ghost predicate KeysUnique(db: Db) {
    forall o1, o2 | o1 in db.orders && o2 in db.orders && db.orders[o1].key.Some? ::
      db.orders[o1].key == db.orders[o2].key && db.orders[o1].user == db.orders[o2].user ==> o1 == o2
  }

  ghost predicate HashesUnique(db: Db) {
    forall o1, o2 | o1 in db.orders && o2 in db.orders && db.orders[o1].hash.Some? ::
      db.orders[o1].hash == db.orders[o2].hash ==> o1 == o2
  }

  ghost predicate WithinCap(db: Db, user: string, event: string, i: ItemId)
    requires i in db.items
  {
    var cap := db.items[i].maxPerUser;
    cap.Some? && cap.value > 0 ==> Purchased(db, user, event, i) <= cap.value
  }

  ghost predicate CapsRespected(db: Db) {
    forall user, event, i :: i in db.items ==> WithinCap(db, user, event, i)
  }

  ghost predicate LinesLinked(db: Db) {
    forall k :: k in db.lines ==> k.0 in db.orders && k.1 in db.items && db.lines[k].quantity >= 1
  }

  ghost predicate OrderPaid(env: Env, o: Order) {
    && (o.hash.Some? ==> Pays(env, o.hash.value, o.total))
    && (o.status.Confirmed? || o.status.Fulfilled? ==> o.hash.Some?)
    && (o.status.Pending? ==> o.hash.None?)
    && 0 <= o.total < DECIMAL_LIMIT
  }

  ghost predicate OrdersSound(env: Env, db: Db) {
    forall o :: o in db.orders ==> OrderPaid(env, db.orders[o]) && db.orders[o].total == LineTotal(db.lines, o)
  }

  ghost predicate Sound(env: Env, db: Db, supply: map<ItemId, int>) {
    && StockConserved(db, supply) && KeysUnique(db) && HashesUnique(db)
    && CapsRespected(db) && LinesLinked(db) && OrdersSound(env, db)
  }

  // ----- Checkout -----

  datatype CartLine = CartLine(id: ItemId, quantity: int)
  datatype CheckoutParams = CheckoutParams(orderId: OrderId, user: string, event: string, key: string,
                                           cart: seq<CartLine>, now: int)

  /** What CheckoutRequest.Validate has established about the lines. */
  predicate ValidCart(cart: seq<CartLine>) {
    && 1 <= |cart| <= MAX_LINES
    && (forall n :: 0 <= n < |cart| ==> 1 <= cart[n].quantity <= MAX_QUANTITY)
    && Distinct(cart)
  }

  predicate Distinct(cart: seq<CartLine>) {
    forall m, n :: 0 <= m < n < |cart| ==> cart[m].id != cart[n].id
  }

  datatype CheckoutError =
    | ItemUnavailable(id: ItemId)
    | StockShortfall(id: ItemId, available: int)
    | PerUserLimit(id: ItemId, limit: int, purchased: int)
    | TotalOutOfRange     // the INSERT overflows DECIMAL(10,4)
    | DuplicateOrder      // a unique violation that no stored order explains
  datatype CheckoutOutcome = Placed(orderId: OrderId, total: int) | Rejected(error: CheckoutError)

  predicate Purchasable(item: Item, event: string) {
    item.visible && (item.event.None? || item.event == Some(event))
  }

  /** Why line `want` cannot be bought as the tables stand, if it cannot. */
  ghost function LineFault(db: Db, p: CheckoutParams, want: CartLine): Option<CheckoutError> {
    if want.id !in db.items || !Purchasable(db.items[want.id], p.event) then Some(ItemUnavailable(want.id))
    else
      var item := db.items[want.id];
      var purchased := Purchased(db, p.user, p.event, want.id);
      if item.stock < want.quantity then Some(StockShortfall(want.id, item.stock))
      else if item.maxPerUser.Some? && item.maxPerUser.value > 0 &&
        purchased + want.quantity > item.maxPerUser.value then
        Some(PerUserLimit(want.id, item.maxPerUser.value, purchased))
      else None
  }

  /** The fault reported is the one of the first bad line. */
  ghost function FirstFault(db: Db, p: CheckoutParams, cart: seq<CartLine>): Option<CheckoutError> {
    if cart == [] then None
    else
      var before := FirstFault(db, p, cart[..|cart| - 1]);
      if before.Some? then before else LineFault(db, p, cart[|cart| - 1])
  }

  function QtyIn(cart: seq<CartLine>, i: ItemId): int {
    if cart == [] then 0
    else QtyIn(cart[..|cart| - 1], i) + if cart[|cart| - 1].id == i then cart[|cart| - 1].quantity else 0
  }

  predicate Stocked(items: map<ItemId, Item>, cart: seq<CartLine>) {
    forall n :: 0 <= n < |cart| ==> cart[n].id in items
  }

  function CartTotal(items: map<ItemId, Item>, cart: seq<CartLine>): int
    requires Stocked(items, cart)
  {
    if cart == [] then 0
    else CartTotal(items, cart[..|cart| - 1]) + items[cart[|cart| - 1].id].price * cart[|cart| - 1].quantity
  }

  function CartIds(cart: seq<CartLine>): set<ItemId> {
    if cart == [] then {} else CartIds(cart[..|cart| - 1]) + {cart[|cart| - 1].id}
  }

  /** The shop_item rows a cart rewrites, line by line. */
  function TakenItems(items: map<ItemId, Item>, cart: seq<CartLine>): map<ItemId, Item>
    requires Stocked(items, cart)
  {
    if cart == [] then map[]
    else
      var last := cart[|cart| - 1];
      TakenItems(items, cart[..|cart| - 1])[last.id := items[last.id].(stock := items[last.id].stock - last.quantity)]
  }

  /** The shop_order_item rows a cart inserts, line by line. */
  function NewLines(orderId: OrderId, items: map<ItemId, Item>, cart: seq<CartLine>): map<LineKey, Line>
    requires Stocked(items, cart)
  {
    if cart == [] then map[]
    else
      var last := cart[|cart| - 1];
      NewLines(orderId, items, cart[..|cart| - 1])[(orderId, last.id) := Line(last.quantity, items[last.id].price)]
  }

  function NewOrder(p: CheckoutParams, total: int): Order {
    Order(p.user, Some(p.event), Pending, None, total, if p.key == "" then None else Some(p.key), p.now)
  }

  /** Every line can be bought, the total fits its column, and the ids are unused. */
  ghost predicate Placeable(db: Db, p: CheckoutParams) {
    && ValidCart(p.cart)
    && p.orderId !in db.orders
    && FirstFault(db, p, p.cart).None?
    && (Stocked(db.items, p.cart) ==> CartTotal(db.items, p.cart) < DECIMAL_LIMIT)
    && !KeyTaken(db, p.user, p.key)
  }

  ghost predicate KeyTaken(db: Db, user: string, key: string) {
    key != "" && exists o :: o in db.orders && db.orders[o].user == user && db.orders[o].key == Some(key)
  }

  /** The tables after an order is placed. */
  function PlaceOrder(db: Db, p: CheckoutParams): Db
    requires Stocked(db.items, p.cart)
  {
    Db(db.items + TakenItems(db.items, p.cart),
       db.orders[p.orderId := NewOrder(p, CartTotal(db.items, p.cart))],
       db.lines + NewLines(p.orderId, db.items, p.cart))
  }

  // ----- ConfirmOrder -----

  datatype ConfirmParams = ConfirmParams(orderId: OrderId, user: string, hash: string)
  datatype ConfirmOutcome = Done | WalletNotConfigured | NotFound | NotOwned | NotPending | HashUsed | PaymentRefused

  const MAX_FIELD_LENGTH := 255
  const MAX_HASH_LENGTH := 128

  /** isHashSafe: letters of either case and digits. */
  predicate HashSafe(hash: string) {
    forall i :: 0 <= i < |hash| ==> '0' <= hash[i] <= '9' || 'a' <= hash[i] <= 'z' || 'A' <= hash[i] <= 'Z'
  }

  predicate UsableHash(hash: string) {
    hash != "" && Utf8Length(hash) <= MAX_HASH_LENGTH && HashSafe(hash)
  }

  /** What CheckoutConfirmRequest.Validate has established. */
  predicate ValidConfirm(orderId: OrderId, hash: string) {
    orderId != "" && Utf8Length(orderId) <= MAX_FIELD_LENGTH && UsableHash(hash)
  }

  ghost predicate HashTaken(db: Db, hash: string) {
    exists o :: o in db.orders && db.orders[o].hash == Some(hash)
  }

  ghost predicate Confirmable(env: Env, db: Db, c: ConfirmParams) {
    && c.orderId in db.orders
    && db.orders[c.orderId].user == c.user
    && db.orders[c.orderId].status.Pending?
    && !HashTaken(db, c.hash)
    && Pays(env, c.hash, db.orders[c.orderId].total)
  }

  function ConfirmedOrder(o: Order, hash: string): Order { o.(status := Confirmed, hash := Some(hash)) }

  function Confirm(db: Db, c: ConfirmParams): Db
    requires c.orderId in db.orders
  {
    db.(orders := db.orders[c.orderId := ConfirmedOrder(db.orders[c.orderId], c.hash)])
  }

  // ----- MarkStaleOrders and the organizer's own reversals -----

  ghost function ReturnedRows(lines: map<LineKey, Line>, done: set<OrderId>, i: ItemId): map<OrderId, int> {
    map o | o in done :: Qty(lines, o, i)
  }

  ghost function Returned(lines: map<LineKey, Line>, done: set<OrderId>, i: ItemId): int {
    Total(ReturnedRows(lines, done, i))
  }

  /** The orders in `done` end in `final` and everything they held is back in stock. */
  ghost function Release(db: Db, done: set<OrderId>, final: Status): Db {
    Db(map i | i in db.items :: db.items[i].(stock := db.items[i].stock + Returned(db.lines, done, i)),
       map o | o in db.orders :: if o in done then db.orders[o].(status := final) else db.orders[o],
       db.lines)
  }

  ghost predicate AllPending(db: Db, done: set<OrderId>) {
    forall o :: o in done ==> o in db.orders && db.orders[o].status.Pending?
  }

  ghost predicate AllHolding(db: Db, done: set<OrderId>) {
    forall o :: o in done ==> o in db.orders && Holds(db.orders[o].status)
  }

  function Fulfil(db: Db, o: OrderId): Db
    requires o in db.orders
  {
    db.(orders := db.orders[o := db.orders[o].(status := Fulfilled)])
  }

  /** Price, visibility, event and stock may be edited; the stock edit is `added` new units. */
  function EditItem(db: Db, i: ItemId, price: nat, visible: bool, event: Option<string>, added: int): Db
    requires i in db.items
  {
    db.(items := db.items[i := db.items[i].(price := price, visible := visible, event := event,
                                            stock := db.items[i].stock + added)])
  }
}
