/**
 * Folding the rows of a LEFT JOIN back into parents with nested children, as OrderHistory
 * does for orders and their lines and GetEventAgendas for days and their sessions.
 */
module Regroup {
  import opened Text
  import opened Sums
  import opened Money
  import opened ShopTables

  /** One joined row; a parent without children has a single row without a child. */
  datatype Row<P, C> = Row(id: string, parent: P, child: Option<C>)
  datatype Group<P, C> = Group(id: string, parent: P, children: seq<C>)

  /** Parent ids in the order they first appear. */
  function FirstSeen<P, C>(rows: seq<Row<P, C>>): seq<string> {
    if rows == [] then []
    else
      var before, id := FirstSeen(rows[..|rows| - 1]), rows[|rows| - 1].id;
      if id in before then before else before + [id]
  }

  /** The children of parent `id`, in row order. */
  function ChildrenOf<P, C>(rows: seq<Row<P, C>>, id: string): seq<C> {
    if rows == [] then []
    else
      var before, last := ChildrenOf(rows[..|rows| - 1], id), rows[|rows| - 1];
      if last.id == id && last.child.Some? then before + [last.child.value] else before
  }

  /** The parent columns of the first row of `id`. */
  function ParentOf<P, C>(rows: seq<Row<P, C>>, id: string): P
    requires id in FirstSeen(rows)
  {
    if id in FirstSeen(rows[..|rows| - 1]) then ParentOf(rows[..|rows| - 1], id) else rows[|rows| - 1].parent
  }

  function GroupOf<P, C>(rows: seq<Row<P, C>>, id: string): Group<P, C>
    requires id in FirstSeen(rows)
  {
    Group(id, ParentOf(rows, id), ChildrenOf(rows, id))
  }

  function Regrouped<P, C>(rows: seq<Row<P, C>>): seq<Group<P, C>> {
    var ids := FirstSeen(rows);
    seq(|ids|, k requires 0 <= k < |ids| => GroupOf(rows, ids[k]))
  }

  /** The fold itself: a map from id to the group being built, and the ids in order of arrival. */
  method GroupRows<P, C>(rows: seq<Row<P, C>>) returns (result: seq<Group<P, C>>)
    ensures result == Regrouped(rows)
  {
    var order: seq<string> := [];
    var byId: map<string, Group<P, C>> := map[];
    for n := 0 to |rows|
      invariant order == FirstSeen(rows[..n])
      invariant forall id :: id in byId <==> id in order
      invariant forall id :: id in order ==> byId[id] == GroupOf(rows[..n], id)
    {
      assert rows[..n + 1][..n] == rows[..n];
      var row := rows[n];
      if row.id !in byId {
        NoChildrenBefore(rows[..n], row.id);
        byId := byId[row.id := Group(row.id, row.parent, [])];
        order := order + [row.id];
      }
      if row.child.Some? {
        var g := byId[row.id];
        byId := byId[row.id := g.(children := g.children + [row.child.value])];
      }
    }
    assert rows[..|rows|] == rows;
    result := [];
    for k := 0 to |order|
      invariant |result| == k && forall j :: 0 <= j < k ==> result[j] == GroupOf(rows, order[j])
    {
      result := result + [byId[order[k]]];
    }
  }

  lemma {:induction false} NoChildrenBefore<P, C>(rows: seq<Row<P, C>>, id: string)
    requires id !in FirstSeen(rows)
    ensures ChildrenOf(rows, id) == []
  {
    if rows == [] {
    } else {
      NoChildrenBefore(rows[..|rows| - 1], id);
    }
  }

  lemma {:induction false} SeenOnce<P, C>(rows: seq<Row<P, C>>)
    ensures forall j, k :: 0 <= j < k < |FirstSeen(rows)| ==> FirstSeen(rows)[j] != FirstSeen(rows)[k]
    ensures forall id :: id in FirstSeen(rows) <==> exists n :: 0 <= n < |rows| && rows[n].id == id
  {
    if rows == [] {
    } else {
      var init := rows[..|rows| - 1];
      SeenOnce(init);
      forall id ensures id in FirstSeen(rows) <==> exists n :: 0 <= n < |rows| && rows[n].id == id {
        if id in FirstSeen(init) {
          var n :| 0 <= n < |init| && init[n].id == id;
          assert rows[n].id == id;
        }
        if n :| 0 <= n < |rows| && rows[n].id == id {
          if n < |init| { assert init[n].id == id; }
        }
      }
    }
  }

  /** Each parent that has a row appears once, and nothing else appears. */
  lemma EachParentOnce<P, C>(rows: seq<Row<P, C>>)
    ensures forall j, k :: 0 <= j < k < |Regrouped(rows)| ==> Regrouped(rows)[j].id != Regrouped(rows)[k].id
    ensures forall n :: 0 <= n < |rows| ==>
      exists k :: 0 <= k < |Regrouped(rows)| && Regrouped(rows)[k].id == rows[n].id
    ensures forall k :: 0 <= k < |Regrouped(rows)| ==>
      exists n :: 0 <= n < |rows| && rows[n].id == Regrouped(rows)[k].id
  {
    SeenOnce(rows);
    forall n | 0 <= n < |rows| ensures exists k :: 0 <= k < |Regrouped(rows)| && Regrouped(rows)[k].id == rows[n].id {
      assert rows[n].id in FirstSeen(rows);
      var k :| 0 <= k < |FirstSeen(rows)| && FirstSeen(rows)[k] == rows[n].id;
      assert Regrouped(rows)[k].id == rows[n].id;
    }
    forall k | 0 <= k < |Regrouped(rows)| ensures exists n :: 0 <= n < |rows| && rows[n].id == Regrouped(rows)[k].id {
      assert FirstSeen(rows)[k] in FirstSeen(rows) && Regrouped(rows)[k].id == FirstSeen(rows)[k];
    }
  }

  // ----- the join that the fold undoes -----

  function RowsOf<P, C>(g: Group<P, C>): seq<Row<P, C>> {
    if g.children == [] then [Row(g.id, g.parent, None)]
    else seq(|g.children|, k requires 0 <= k < |g.children| => Row(g.id, g.parent, Some(g.children[k])))
  }

  function LeftJoin<P, C>(groups: seq<Group<P, C>>): seq<Row<P, C>> {
    if groups == [] then [] else LeftJoin(groups[..|groups| - 1]) + RowsOf(groups[|groups| - 1])
  }

  lemma {:induction false} ChildrenOfJoined<P, C>(a: seq<Row<P, C>>, b: seq<Row<P, C>>, id: string)
    ensures ChildrenOf(a + b, id) == ChildrenOf(a, id) + ChildrenOf(b, id)
  {
    if b == [] {
      assert a + b == a;
    } else {
      assert (a + b)[..|a + b| - 1] == a + b[..|b| - 1];
      ChildrenOfJoined(a, b[..|b| - 1], id);
    }
  }

  lemma {:induction false} ChildrenOfRun<P, C>(rows: seq<Row<P, C>>, g: Group<P, C>, id: string)
    requires |rows| <= |g.children|
    requires forall k :: 0 <= k < |rows| ==> rows[k] == Row(g.id, g.parent, Some(g.children[k]))
    ensures ChildrenOf(rows, id) == if id == g.id then g.children[..|rows|] else []
  {
    if rows == [] {
    } else {
      ChildrenOfRun(rows[..|rows| - 1], g, id);
      assert g.children[..|rows|] == g.children[..|rows| - 1] + [g.children[|rows| - 1]];
    }
  }

  lemma ChildrenOfRows<P, C>(g: Group<P, C>, id: string)
    ensures ChildrenOf(RowsOf(g), id) == if id == g.id then g.children else []
  {
    if g.children != [] {
      ChildrenOfRun(RowsOf(g), g, id);
      assert g.children[..|g.children|] == g.children;
    }
  }

  /** Appending rows of one new parent adds that parent last and keeps the others. */
  lemma {:induction false} SeenAppend<P, C>(a: seq<Row<P, C>>, b: seq<Row<P, C>>, g: Group<P, C>)
    requires g.id !in FirstSeen(a) && b != []
    requires forall k :: 0 <= k < |b| ==> b[k].id == g.id && b[k].parent == g.parent
    ensures FirstSeen(a + b) == FirstSeen(a) + [g.id]
    ensures ParentOf(a + b, g.id) == g.parent
    ensures forall id :: id in FirstSeen(a) ==> ParentOf(a + b, id) == ParentOf(a, id)
  {
    assert (a + b)[..|a + b| - 1] == a + b[..|b| - 1];
    if |b| == 1 {
      assert a + b[..0] == a;
    } else {
      SeenAppend(a, b[..|b| - 1], g);
    }
  }

  predicate DistinctIds<P, C>(groups: seq<Group<P, C>>) {
    forall j, k :: 0 <= j < k < |groups| ==> groups[j].id != groups[k].id
  }

  lemma DistinctInit<P, C>(groups: seq<Group<P, C>>)
    requires DistinctIds(groups) && groups != []
    ensures DistinctIds(groups[..|groups| - 1])
  {}

  lemma {:induction false} JoinedIds<P, C>(groups: seq<Group<P, C>>)
    requires DistinctIds(groups)
    ensures |FirstSeen(LeftJoin(groups))| == |groups|
    ensures forall k :: 0 <= k < |groups| ==> FirstSeen(LeftJoin(groups))[k] == groups[k].id
  {
    if groups == [] {
    } else {
      var init, g := groups[..|groups| - 1], groups[|groups| - 1];
      DistinctInit(groups);
      JoinedIds(init);
      forall k | 0 <= k < |init| ensures FirstSeen(LeftJoin(init))[k] != g.id { assert init[k] == groups[k]; }
      SeenAppend(LeftJoin(init), RowsOf(g), g);
      assert LeftJoin(groups) == LeftJoin(init) + RowsOf(g);
    }
  }

  /** The rows of a new parent fold into that parent ... */
  lemma NewGroup<P, C>(a: seq<Row<P, C>>, g: Group<P, C>)
    requires g.id !in FirstSeen(a)
    ensures g.id in FirstSeen(a + RowsOf(g)) && GroupOf(a + RowsOf(g), g.id) == g
  {
    SeenAppend(a, RowsOf(g), g);
    NoChildrenBefore(a, g.id);
    ChildrenOfJoined(a, RowsOf(g), g.id);
    ChildrenOfRows(g, g.id);
  }

  /** ... and leave the others as they were. */
  lemma OldGroup<P, C>(a: seq<Row<P, C>>, g: Group<P, C>, id: string)
    requires g.id !in FirstSeen(a) && id in FirstSeen(a)
    ensures id in FirstSeen(a + RowsOf(g)) && GroupOf(a + RowsOf(g), id) == GroupOf(a, id)
  {
    SeenAppend(a, RowsOf(g), g);
    ChildrenOfJoined(a, RowsOf(g), id);
    ChildrenOfRows(g, id);
  }

  lemma LastIdIsNew<P, C>(groups: seq<Group<P, C>>)
    requires DistinctIds(groups) && groups != []
    ensures groups[|groups| - 1].id !in FirstSeen(LeftJoin(groups[..|groups| - 1]))
  {
    DistinctInit(groups);
    JoinedIds(groups[..|groups| - 1]);
  }

  lemma {:induction false} JoinedGroup<P, C>(groups: seq<Group<P, C>>, k: nat)
    requires DistinctIds(groups) && k < |groups|
    ensures groups[k].id in FirstSeen(LeftJoin(groups)) && GroupOf(LeftJoin(groups), groups[k].id) == groups[k]
  {
    var init, g := groups[..|groups| - 1], groups[|groups| - 1];
    LastIdIsNew(groups);
    if k == |init| {
      NewGroup(LeftJoin(init), g);
    } else {
      DistinctInit(groups);
      JoinedGroup(init, k);
      OldGroup(LeftJoin(init), g, init[k].id);
    }
  }

  /** Joining parents with their children and folding the rows back returns the same parents. */
  lemma RegroupInvertsJoin<P, C>(groups: seq<Group<P, C>>)
    requires DistinctIds(groups)
    ensures Regrouped(LeftJoin(groups)) == groups
  {
    JoinedIds(groups);
    forall k | 0 <= k < |groups| ensures Regrouped(LeftJoin(groups))[k] == groups[k] {
      JoinedGroup(groups, k);
    }
  }

  // ----- receipts add up -----

  ghost function ReceiptTotal(children: seq<(ItemId, Line)>): int {
    if children == [] then 0
    else
      var last := children[|children| - 1].1;
      ReceiptTotal(children[..|children| - 1]) + last.quantity * last.unitPrice
  }

  /** `children` lists the stored lines of order `o`, each once. */
  ghost predicate ListsLines(lines: map<LineKey, Line>, o: OrderId, children: seq<(ItemId, Line)>) {
    && (forall j, k :: 0 <= j < k < |children| ==> children[j].0 != children[k].0)
    && (forall k :: 0 <= k < |children| ==> (o, children[k].0) in lines && lines[(o, children[k].0)] == children[k].1)
    && (forall key :: key in lines && key.0 == o ==> exists k :: 0 <= k < |children| && children[k].0 == key.1)
  }

  lemma ListsFewer(lines: map<LineKey, Line>, o: OrderId, children: seq<(ItemId, Line)>)
    requires ListsLines(lines, o, children) && children != []
    ensures ListsLines(lines - {(o, children[|children| - 1].0)}, o, children[..|children| - 1])
  {
    var init, key := children[..|children| - 1], (o, children[|children| - 1].0);
    forall k | k in lines - {key} && k.0 == o ensures exists n :: 0 <= n < |init| && init[n].0 == k.1 {
      var n :| 0 <= n < |children| && children[n].0 == k.1;
      assert init[n].0 == k.1;
    }
  }

  lemma {:induction false} ReceiptIsLineTotal(lines: map<LineKey, Line>, o: OrderId, children: seq<(ItemId, Line)>)
    requires ListsLines(lines, o, children)
    ensures ReceiptTotal(children) == LineTotal(lines, o)
  {
    var rows := LineRows(lines, o);
    if children == [] {
      assert rows == map[];
    } else {
      var key := (o, children[|children| - 1].0);
      ListsFewer(lines, o, children);
      ReceiptIsLineTotal(lines - {key}, o, children[..|children| - 1]);
      RowsWithout(lines, o, key);
      TotalPick(rows, key);
    }
  }

  lemma RowsWithout(lines: map<LineKey, Line>, o: OrderId, key: LineKey)
    ensures LineRows(lines - {key}, o) == LineRows(lines, o) - {key}
  {}

  /** On sound tables the lines OrderHistory nests under an order add up to its stored total. */
  lemma ReceiptsAddUp(env: Env, db: Db, supply: map<ItemId, int>, groups: seq<Group<Order, (ItemId, Line)>>, k: nat)
    requires Sound(env, db, supply) && DistinctIds(groups) && k < |groups|
    requires groups[k].id in db.orders && groups[k].parent == db.orders[groups[k].id]
    requires ListsLines(db.lines, groups[k].id, groups[k].children)
    ensures |Regrouped(LeftJoin(groups))| == |groups|
    ensures Regrouped(LeftJoin(groups))[k].parent.total == ReceiptTotal(Regrouped(LeftJoin(groups))[k].children)
  {
    RegroupInvertsJoin(groups);
    ReceiptIsLineTotal(db.lines, groups[k].id, groups[k].children);
  }
}
