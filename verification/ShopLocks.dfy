/** Concurrent checkouts cannot deadlock one another. */
module ShopLocks {
  import opened Text
  import opened Money
  import opened ShopTables
  import opened ShopProtocol
  import opened ShopTxInvariant
  import opened ShopRuns

  ghost predicate WantsItem(s: State, t: TxId) {
    t in s.txs && s.txs[t].job.Buying? && s.txs[t].job.buyAt.Locking?
    && s.txs[t].job.buyAt.todo != [] && RowSelected(s.db, s.txs[t], s.txs[t].job.buyAt.todo[0])
  }

  ghost function Wanted(s: State, t: TxId): ItemId
    requires WantsItem(s, t)
  {
    s.txs[t].job.buyAt.todo[0]
  }

  ghost predicate WantsKey(s: State, t: TxId) {
    t in s.txs && s.txs[t].job.Buying? && s.txs[t].job.buyAt.Checking?
    && s.txs[t].job.buyAt.n == |s.txs[t].job.p.cart| && s.txs[t].job.buyAt.total < DECIMAL_LIMIT
  }

  /** Checkout `t` is blocked by transaction `u`: on an item row, or on an uncommitted idempotency key. */
  ghost predicate WaitsFor(s: State, t: TxId, u: TxId) {
    u in s.txs && u != t &&
    ((WantsItem(s, t) && Wanted(s, t) in s.txs[u].heldItems)
     || (WantsKey(s, t) && InsertsKey(s.txs[u], s.txs[t].job.p.user, s.txs[t].job.p.key)))
  }

  /** If `t` waits for a checkout that waits itself, both wait for items, in increasing id order. */
  lemma WaitsClimb(env: Env, s: State, t: TxId, u: TxId, v: TxId)
    requires AllOk(env, s.db, s.txs) && WaitsFor(s, t, u) && s.txs[u].job.Buying? && WaitsFor(s, u, v)
    ensures WantsItem(s, t) && (WantsItem(s, u) ==> Less(Wanted(s, t), Wanted(s, u)))
  {
    assert TxOk(env, s.db, s.txs[u]);
  }

  ghost predicate WaitPath(s: State, ts: seq<TxId>) {
    && |ts| >= 2
    && (forall k :: 0 <= k < |ts| ==> ts[k] in s.txs && s.txs[ts[k]].job.Buying?)
    && (forall k :: 0 <= k < |ts| - 1 ==> WaitsFor(s, ts[k], ts[k + 1]))
  }

  lemma PathPrefix(s: State, ts: seq<TxId>)
    requires WaitPath(s, ts) && |ts| > 2
    ensures WaitPath(s, ts[..|ts| - 1])
  {}

  /** Along a path of waiting checkouts the wanted ids only grow. */
  lemma {:induction false} PathClimbs(env: Env, s: State, ts: seq<TxId>, v: TxId)
    requires AllOk(env, s.db, s.txs) && WaitPath(s, ts) && WaitsFor(s, ts[|ts| - 1], v)
    requires WantsItem(s, ts[|ts| - 1])
    ensures WantsItem(s, ts[0]) && Less(Wanted(s, ts[0]), Wanted(s, ts[|ts| - 1]))
  {
    var k := |ts| - 1;
    assert WaitsFor(s, ts[k - 1], ts[k]);
    WaitsClimb(env, s, ts[k - 1], ts[k], v);
    if k > 1 {
      PathPrefix(s, ts);
      PathClimbs(env, s, ts[..k], ts[k]);
      LessTransitive(Wanted(s, ts[0]), Wanted(s, ts[k - 1]), Wanted(s, ts[k]));
    }
  }

  /** In no run do checkouts wait for one another in a circle. */
  lemma NoWaitCycle(env: Env, s: State, run: seq<Action>, ts: seq<TxId>)
    requires Initial(env, s) && Possible(env, s, run) && WaitPath(After(env, s, run), ts)
    ensures ts[0] != ts[|ts| - 1]
  {
    InitialIsInv(env, s);
    RunKeepsInv(env, s, run);
    var e := After(env, s, run);
    assert WaitsFor(e, ts[0], ts[1]);
    if ts[0] == ts[|ts| - 1] {
      WaitsClimb(env, e, ts[0], ts[1], ts[2]);
      PathClimbs(env, e, ts, ts[1]);
      LessIrreflexive(Wanted(e, ts[0]));
    }
  }

  // ----- progress -----

  ghost predicate Blocked(s: State, t: TxId) { exists u :: WaitsFor(s, t, u) }

  /** Any set of ids can be listed in order, so the SELECT has an order to lock in. */
  lemma {:induction false} SortedListing(ids: set<ItemId>) returns (todo: seq<ItemId>)
    ensures StrictlySorted(todo) && forall i :: i in todo <==> i in ids
    decreases |ids|
  {
    if ids == {} {
      todo := [];
    } else {
      var m := Smallest(ids);
      var rest := SortedListing(ids - {m});
      forall n | 0 <= n < |rest| ensures Less(m, rest[n]) { assert rest[n] in rest; }
      todo := [m] + rest;
    }
  }

  lemma {:induction false} Smallest(ids: set<ItemId>) returns (m: ItemId)
    requires ids != {}
    ensures m in ids && forall i :: i in ids && i != m ==> Less(m, i)
    decreases |ids|
  {
    m :| m in ids;
    assert forall i :: i in ids && i != m ==> i in ids - {m};
    if ids - {m} != {} {
      var n := Smallest(ids - {m});
      LessTotal(m, n);
      forall i | i in ids && i != (if Less(m, n) then m else n) ensures Less(if Less(m, n) then m else n, i) {
        if Less(m, n) && i != n { LessTransitive(m, n, i); }
      }
      m := if Less(m, n) then m else n;
    }
  }

  lemma Bounds(env: Env, db: Db, tx: Tx)
    requires tx.job.Buying? && TxOk(env, db, tx)
    ensures tx.job.buyAt.Checking? ==> tx.job.buyAt.n <= |tx.job.p.cart|
    ensures tx.job.buyAt.Writing? ==> tx.job.buyAt.n <= |tx.job.p.cart|
  {}

  lemma NotBlockedOnItem(s: State, t: TxId)
    requires WantsItem(s, t) && !Blocked(s, t)
    ensures ItemFree(s, t, Wanted(s, t))
  {
    forall u | u in s.txs && u != t ensures Wanted(s, t) !in s.txs[u].heldItems { assert !WaitsFor(s, t, u); }
  }

  lemma NotBlockedOnKey(s: State, t: TxId)
    requires WantsKey(s, t) && !Blocked(s, t)
    ensures KeyFree(s, t, s.txs[t].job.p.user, s.txs[t].job.p.key)
  {
    forall u | u in s.txs && u != t ensures !InsertsKey(s.txs[u], s.txs[t].job.p.user, s.txs[t].job.p.key) {
      assert !WaitsFor(s, t, u);
    }
  }

  lemma CanLock(s: State, t: TxId)
    requires t in s.txs && s.txs[t].job.Buying? && s.txs[t].job.buyAt.Locking? && !Blocked(s, t)
    ensures BuyEnabled(s, Lock(t), s.txs[t])
  {
    if WantsItem(s, t) { NotBlockedOnItem(s, t); }
  }

  lemma CanInsert(s: State, t: TxId)
    requires t in s.txs && s.txs[t].job.Buying? && s.txs[t].job.buyAt.Checking? && !Blocked(s, t)
    requires s.txs[t].job.buyAt.n == |s.txs[t].job.p.cart|
    ensures BuyEnabled(s, Insert(t), s.txs[t])
  {
    if WantsKey(s, t) { NotBlockedOnKey(s, t); }
  }

  lemma NextBuyStep(env: Env, s: State, t: TxId) returns (a: Action)
    requires AllOk(env, s.db, s.txs) && t in s.txs && s.txs[t].job.Buying? && !Over(s.txs[t]) && !Blocked(s, t)
    requires !Committable(s.txs[t])
    ensures BuyEnabled(s, a, s.txs[t]) && Local(a) && !a.Rollback? && a.t == t
  {
    var tx := s.txs[t];
    Bounds(env, s.db, tx);
    match tx.job.buyAt
    case Replaying =>
      var todo := SortedListing(CartIds(tx.job.p.cart));
      assert LockOrder(tx.job.p.cart, todo);
      a := LookUp(t, todo);
    case Locking(todo) =>
      a := Lock(t);
      CanLock(s, t);
    case Checking(n, total) =>
      a := if n < |tx.job.p.cart| then Check(t) else Insert(t);
      if n == |tx.job.p.cart| { CanInsert(s, t); }
    case Writing(n, _) => a := Write(t);
    case Rereading => a := Read(t);
  }

  /** A checkout that is neither finished nor blocked can take its next step. */
  lemma UnblockedCanStep(env: Env, s: State, t: TxId) returns (a: Action)
    requires Inv(env, s) && t in s.txs && s.txs[t].job.Buying? && !Over(s.txs[t]) && !Blocked(s, t)
    ensures Enabled(s, a) && !Admin(a) && !Begins(a) && !a.Rollback? && a.t == t
  {
    if Committable(s.txs[t]) {
      a := Commit(t);
    } else {
      a := NextBuyStep(env, s, t);
    }
  }

  lemma NotBelow(a: ItemId, b: ItemId)
    ensures Less(a, b) ==> !Less(b, a)
    ensures !Less(a, a)
  {
    LessIrreflexive(a);
    if Less(a, b) { LessAsymmetric(a, b); }
  }

  lemma NotBelowAny(a: ItemId, b: ItemId, c: ItemId)
    requires !Less(b, c)
    ensures !Less(a, b) ==> !Less(a, c)
  {
    LessTotal(a, b);
    if Less(b, a) && Less(a, c) { LessTransitive(b, a, c); }
  }

  lemma {:induction false} GreatestWanted(s: State, ts: set<TxId>) returns (t: TxId)
    requires ts != {} && forall u :: u in ts ==> WantsItem(s, u)
    ensures t in ts && forall u :: u in ts ==> !Less(Wanted(s, t), Wanted(s, u))
    decreases |ts|
  {
    var first :| first in ts;
    t := first;
    LessIrreflexive(Wanted(s, t));
    if ts - {first} != {} {
      var r := GreatestWanted(s, ts - {first});
      if Less(Wanted(s, first), Wanted(s, r)) { t := r; }
      forall u | u in ts ensures !Less(Wanted(s, t), Wanted(s, u)) {
        if u == first {
          NotBelow(Wanted(s, first), Wanted(s, r));
        } else {
          assert u in ts - {first};
          NotBelowAny(Wanted(s, first), Wanted(s, r), Wanted(s, u));
        }
      }
    } else {
      assert ts == {first};
    }
  }

  lemma BlockerIsActive(env: Env, s: State, t: TxId, u: TxId)
    requires Inv(env, s) && WaitsFor(s, t, u)
    ensures !Over(s.txs[u])
  {
    assert TxOk(env, s.db, s.txs[u]);
  }

  /** A transaction with an order row written waits for nobody. */
  lemma KeyHolderIsUnblocked(s: State, t: TxId, u: TxId)
    requires WaitsFor(s, t, u) && !WantsItem(s, t)
    ensures s.txs[u].job.Buying? && !Over(s.txs[u]) && !Blocked(s, u)
  {}

  /** While only checkouts are under way, some unfinished one can always take its next step. */
  lemma SomeCheckoutCanStep(env: Env, s: State, t: TxId) returns (a: Action)
    requires Inv(env, s) && t in s.txs && !Over(s.txs[t])
    requires forall u :: u in s.txs && !Over(s.txs[u]) ==> s.txs[u].job.Buying?
    ensures Enabled(s, a) && !Admin(a) && !Begins(a) && !a.Rollback?
  {
    var r := t;
    if Blocked(s, t) && WantsItem(s, t) {
      var waiting := set u | u in s.txs && !Over(s.txs[u]) && WantsItem(s, u);
      assert t in waiting;
      r := GreatestWanted(s, waiting);
      if u :| WaitsFor(s, r, u) {
        BlockerIsActive(env, s, r, u);
        if v :| WaitsFor(s, u, v) {
          WaitsClimb(env, s, r, u, v);   // `r` wants the greatest item, so `u` waits for a key
          KeyHolderIsUnblocked(s, u, v);
          r := v;
        } else {
          r := u;
        }
      }
    } else if u :| WaitsFor(s, t, u) {
      KeyHolderIsUnblocked(s, t, u);
      r := u;
    }
    a := UnblockedCanStep(env, s, r);
  }
}
