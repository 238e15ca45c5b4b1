/** Sweeps alone can deadlock one another: two of them each hold an item row the other still owes units to. */
module ShopSweeps {
  import opened Money
  import opened ShopTables
  import opened ShopProtocol
  import opened ShopRuns
  import opened ShopTransfers
  import opened ShopWaits

  function Sweeper(cutoff: int, at: SweepAt, writes: Writes, items: set<ItemId>, orders: set<OrderId>): Tx {
    Tx(Sweeping(cutoff, at), writes, items, orders)
  }

  /** The sweep has expired order `o`, has given back the units of the items `back` and owes the rest. */
  function Owing(db: Db, cutoff: int, o: OrderId, back: set<ItemId>, items: map<ItemId, Item>): Tx
    requires o in db.orders
  {
    Sweeper(cutoff, Returning(o, ItemsOf(db.lines, o) - back, {}, {}),
            Writes(items, map[o := db.orders[o].(status := Expired)], map[]), back, {o})
  }

  function Restocked(db: Db, o: OrderId, i: ItemId): Item
    requires i in db.items
  {
    db.items[i].(stock := db.items[i].stock + Qty(db.lines, o, i))
  }

  /** The sweep has given back the units of `i` first. */
  function Holding(db: Db, cutoff: int, o: OrderId, i: ItemId): Tx
    requires o in db.orders && i in db.items
  {
    Owing(db, cutoff, o, {i}, map[i := Restocked(db, o, i)])
  }

  /** Order `o` is stale and holds units of `i`, and nobody holds either row. */
  ghost predicate Sweepable(s: State, t: TxId, cutoff: int, o: OrderId, i: ItemId) {
    && t !in s.txs && Stale(s.db, o, cutoff) && OrderFree(s, t, o)
    && i in ItemsOf(s.db.lines, o) && i in s.db.items && ItemFree(s, t, i)
  }

  lemma SweepBegins(env: Env, s: State, t: TxId, cutoff: int, o: OrderId, i: ItemId)
    requires Sweepable(s, t, cutoff, o, i)
    ensures Moves(env, s, t, BeginSweep(t, cutoff), Sweeper(cutoff, Selecting, NO_WRITES, {}, {}))
  {}

  lemma SweepSelects(env: Env, s: State, t: TxId, cutoff: int, o: OrderId, i: ItemId)
    requires Sweepable(s, t, cutoff, o, i)
    ensures Moves(env, With(s, t, Sweeper(cutoff, Selecting, NO_WRITES, {}, {})), t, Select(t, o),
                  Sweeper(cutoff, Selecting, NO_WRITES, {}, {o}))
  {
    var tx := Sweeper(cutoff, Selecting, NO_WRITES, {}, {});
    var s1 := With(s, t, tx);
    assert OrderFree(s1, t, o) && SweepEnabled(s1, Select(t, o), tx);
    assert {} + {o} == {o};
    assert SelectStale(tx, o) == Sweeper(cutoff, Selecting, NO_WRITES, {}, {o});
  }

  lemma SweepStarts(env: Env, s: State, t: TxId, cutoff: int, o: OrderId)
    ensures Moves(env, With(s, t, Sweeper(cutoff, Selecting, NO_WRITES, {}, {o})), t, EndSelect(t),
                  Sweeper(cutoff, Restoring({o}, {}), NO_WRITES, {}, {o}))
  {
    var tx := Sweeper(cutoff, Selecting, NO_WRITES, {}, {o});
    assert SweepEnabled(With(s, t, tx), EndSelect(t), tx);
  }

  lemma ExpiringIsOwing(db: Db, cutoff: int, o: OrderId)
    requires Stale(db, o, cutoff)
    ensures ExpireOrder(db, Sweeper(cutoff, Restoring({o}, {}), NO_WRITES, {}, {o}), o)
      == Owing(db, cutoff, o, {}, map[])
  {
    assert Apply(db, NO_WRITES).orders == db.orders;
    assert {o} - {o} == {} && ItemsOf(db.lines, o) - {} == ItemsOf(db.lines, o);
  }

  lemma SweepExpires(env: Env, s: State, t: TxId, cutoff: int, o: OrderId)
    requires Stale(s.db, o, cutoff)
    ensures Moves(env, With(s, t, Sweeper(cutoff, Restoring({o}, {}), NO_WRITES, {}, {o})), t, Expire(t, o),
                  Owing(s.db, cutoff, o, {}, map[]))
  {
    ExpiringIsOwing(s.db, cutoff, o);
    var tx := Sweeper(cutoff, Restoring({o}, {}), NO_WRITES, {}, {o});
    assert SweepEnabled(With(s, t, tx), Expire(t, o), tx);
  }

  lemma ReturningIsHolding(db: Db, cutoff: int, o: OrderId, i: ItemId)
    requires o in db.orders && i in db.items
    ensures ReturnItem(db, Owing(db, cutoff, o, {}, map[]), i) == Holding(db, cutoff, o, i)
  {
    assert Apply(db, Owing(db, cutoff, o, {}, map[]).writes).items == db.items;
    assert ItemsOf(db.lines, o) - {} - {i} == ItemsOf(db.lines, o) - {i};
    assert {} + {i} == {i};
  }

  lemma SweepReturns(env: Env, s: State, t: TxId, cutoff: int, o: OrderId, i: ItemId)
    requires Sweepable(s, t, cutoff, o, i)
    ensures Moves(env, With(s, t, Owing(s.db, cutoff, o, {}, map[])), t, Return(t, i), Holding(s.db, cutoff, o, i))
  {
    ReturningIsHolding(s.db, cutoff, o, i);
    var tx := Owing(s.db, cutoff, o, {}, map[]);
    var s1 := With(s, t, tx);
    assert ItemFree(s1, t, i) && SweepEnabled(s1, Return(t, i), tx);
  }

  /** Undisturbed, a sweep of one stale order may give back any of its items first. */
  lemma SweepAlone(env: Env, s: State, t: TxId, cutoff: int, o: OrderId, i: ItemId) returns (run: seq<Action>)
    requires Sweepable(s, t, cutoff, o, i)
    ensures Reaches(env, s, run, With(s, t, Holding(s.db, cutoff, o, i)))
  {
    SweepBegins(env, s, t, cutoff, o, i);
    SweepSelects(env, s, t, cutoff, o, i);
    SweepStarts(env, s, t, cutoff, o);
    SweepExpires(env, s, t, cutoff, o);
    SweepReturns(env, s, t, cutoff, o, i);
    var selecting := Sweeper(cutoff, Selecting, NO_WRITES, {}, {});
    var selected := Sweeper(cutoff, Selecting, NO_WRITES, {}, {o});
    var restoring := Sweeper(cutoff, Restoring({o}, {}), NO_WRITES, {}, {o});
    var owing := Owing(s.db, cutoff, o, {}, map[]);
    run := Follow(env, s, [], s, t, BeginSweep(t, cutoff), selecting);
    run := FollowOn(env, s, run, s, t, selecting, Select(t, o), selected);
    run := FollowOn(env, s, run, s, t, selected, EndSelect(t), restoring);
    run := FollowOn(env, s, run, s, t, restoring, Expire(t, o), owing);
    run := FollowOn(env, s, run, s, t, owing, Return(t, i), Holding(s.db, cutoff, o, i));
  }

  lemma {:induction false} Join(env: Env, s: State, first: seq<Action>, rest: seq<Action>)
    requires Possible(env, s, first) && Possible(env, After(env, s, first), rest)
    ensures Possible(env, s, first + rest) && After(env, s, first + rest) == After(env, After(env, s, first), rest)
    decreases |first|
  {
    if first == [] {
      assert first + rest == rest;
    } else {
      assert (first + rest)[1..] == first[1..] + rest;
      Join(env, Do(env, s, first[0]), first[1..], rest);
    }
  }

  // ----- a sweep traps a sweep -----

  /** Sweep `t` holds `high` and still owes units of `low`. */
  ghost predicate Owes(s: State, t: TxId, low: ItemId, high: ItemId) {
    && t in s.txs && s.txs[t].job.Sweeping? && s.txs[t].job.sweepAt.Returning?
    && high in s.txs[t].heldItems && low in s.txs[t].job.sweepAt.todo
  }

  /** A sweep that holds one item and owes another, hidden or not, can be caught by a sweep of an order of both. */
  lemma SweepCanTrapSweep(env: Env, s: State, t: TxId, low: ItemId, high: ItemId, u: TxId, cutoff: int, o: OrderId)
    returns (run: seq<Action>)
    requires Owes(s, t, low, high) && low != high
    requires Sweepable(s, u, cutoff, o, low) && high in ItemsOf(s.db.lines, o)
    ensures Possible(env, s, run)
    ensures Circle(After(env, s, run), [u, t, u], [ForItem(high), ForItem(low)])
  {
    run := SweepAlone(env, s, u, cutoff, o, low);
    var e := After(env, s, run);
    assert Waits(e, u, t, ForItem(high)) && Waits(e, t, u, ForItem(low));
  }

  /** Two stale orders that share two items, none of these rows held, can be swept so that the sweeps deadlock. */
  lemma TwoSweepsCanDeadlock(env: Env, s: State, cutoff: int, t: TxId, o: OrderId, high: ItemId,
                             u: TxId, p: OrderId, low: ItemId)
    returns (run: seq<Action>)
    requires t != u && o != p && low != high
    requires Sweepable(s, t, cutoff, o, high) && low in ItemsOf(s.db.lines, o)
    requires Sweepable(s, u, cutoff, p, low) && high in ItemsOf(s.db.lines, p)
    ensures Possible(env, s, run)
    ensures Circle(After(env, s, run), [u, t, u], [ForItem(high), ForItem(low)])
  {
    var first := SweepAlone(env, s, t, cutoff, o, high);
    var s1 := After(env, s, first);
    var rest := SweepCanTrapSweep(env, s1, t, low, high, u, cutoff, p);
    Join(env, s, first, rest);
    run := first + rest;
  }
}
