/** Connections between attendees: one row per unordered pair, and who may move it where. */
module Connections {
  import opened Text

  // ----- identities -----

  datatype CallerIdentity = CallerIdentity(canonical: string, aliases: seq<string>) {
    /** Whether a stored party id names this caller, under any form. */
    predicate Matches(party: string) { party in aliases }
  }

  function Distinct(ids: seq<string>): seq<string> {
    if ids == [] then []
    else
      var before, last := Distinct(ids[..|ids| - 1]), ids[|ids| - 1];
      if last == "" || last in before then before else before + [last]
  }

  /** The non-blank forms, each once, in order of first appearance. */
  lemma {:induction false} DistinctIs(ids: seq<string>)
    ensures forall id :: id in Distinct(ids) <==> id in ids && id != ""
    ensures forall j, k :: 0 <= j < k < |Distinct(ids)| ==> Distinct(ids)[j] != Distinct(ids)[k]
    ensures ids != [] && ids[0] != "" ==> Distinct(ids) != [] && Distinct(ids)[0] == ids[0]
  {
    if ids == [] {
    } else {
      DistinctIs(ids[..|ids| - 1]);
      assert ids == ids[..|ids| - 1] + [ids[|ids| - 1]];
    }
  }

  /**
   * NewCallerIdentity. The set is never empty only because some form is never blank: it is
   * empty exactly when every form is.
   */
  method NewCallerIdentity(canonical: string, others: seq<string>) returns (caller: CallerIdentity)
    ensures caller == CallerIdentity(canonical, Distinct([canonical] + others))
    ensures forall id :: caller.Matches(id) <==> id != "" && (id == canonical || id in others)
    ensures canonical != "" ==> caller.aliases != [] && caller.aliases[0] == canonical
    ensures caller.aliases == [] <==> canonical == "" && forall id :: id in others ==> id == ""
  {
    var forms := [canonical] + others;
    var aliases: seq<string> := [];
    var seen: set<string> := {};
    for n := 0 to |forms|
      invariant aliases == Distinct(forms[..n])
      invariant seen == set id | id in aliases
    {
      assert forms[..n + 1][..n] == forms[..n];
      var id := forms[n];
      if id != "" && id !in seen {
        seen := seen + {id};
        aliases := aliases + [id];
      }
    }
    assert forms[..|forms|] == forms;
    DistinctIs(forms);
    caller := CallerIdentity(canonical, aliases);
    assert aliases != [] ==> aliases[0] in aliases;
  }

  // ----- rows -----

  type ConnId = string

  datatype ConnState = Pending | Accepted
  datatype Connection = Connection(requester: string, addressee: string, state: ConnState)

  /** pair_low and pair_high, the generated columns of the unique constraint. */
  function PairLow(c: Connection): string { if Less(c.requester, c.addressee) then c.requester else c.addressee }
  function PairHigh(c: Connection): string { if Less(c.requester, c.addressee) then c.addressee else c.requester }

  predicate SamePair(a: Connection, b: Connection) { PairLow(a) == PairLow(b) && PairHigh(a) == PairHigh(b) }

  /** The two columns identify a pair whatever its direction. */
  lemma PairIsUnordered(a: Connection, b: Connection)
    ensures SamePair(a, b) <==>
      (a.requester == b.requester && a.addressee == b.addressee) ||
        (a.requester == b.addressee && a.addressee == b.requester)
  {
    LessTotal(a.requester, a.addressee);
    LessTotal(b.requester, b.addressee);
    LessIrreflexive(a.requester);
    LessIrreflexive(b.requester);
    if Less(a.requester, a.addressee) { LessAsymmetric(a.requester, a.addressee); }
    if Less(a.addressee, a.requester) { LessAsymmetric(a.addressee, a.requester); }
  }

  type Rows = map<ConnId, Connection>

  ghost predicate Good(rows: Rows) {
    && (forall x :: x in rows ==> rows[x].requester != rows[x].addressee)
    && (forall x, y :: x in rows && y in rows && SamePair(rows[x], rows[y]) ==> x == y)
  }

  datatype Answer =
    | Row(id: ConnId, conn: Connection)
    | SelfConnection | NotFound | Forbidden | NotPending | Deleted

  /** What Request does: nothing for an existing pair in either direction, a pending row for a new one. */
  ghost predicate Requests(rows: Rows, requester: string, addressee: string, known: bool, newId: ConnId,
                           rows': Rows, answer: Answer)
  {
    var wanted := Connection(requester, addressee, Pending);
    if requester == addressee then rows' == rows && answer.SelfConnection?
    else if !known then rows' == rows && answer.NotFound?
    else if exists x :: x in rows && SamePair(rows[x], wanted) then
      rows' == rows && answer.Row? && answer.id in rows && SamePair(rows[answer.id], wanted) &&
        answer.conn == rows[answer.id]
    else rows' == rows[newId := wanted] && answer == Row(newId, wanted)
  }

  /** What Accept does: only the addressee moves a pending row, and each refusal says why. */
  ghost predicate Accepts(rows: Rows, id: ConnId, caller: CallerIdentity, rows': Rows, answer: Answer) {
    if id in rows && rows[id].state.Pending? && caller.Matches(rows[id].addressee) then
      rows' == rows[id := rows[id].(state := Accepted)] && answer == Row(id, rows'[id])
    else
      && rows' == rows
      && answer == if id !in rows then NotFound
                   else if caller.Matches(rows[id].requester) then Forbidden
                   else if caller.Matches(rows[id].addressee) then NotPending
                   else NotFound
  }

  /** What Delete does: either party removes the row, anyone else learns nothing. */
  ghost predicate Deletes(rows: Rows, id: ConnId, caller: CallerIdentity, rows': Rows, answer: Answer) {
    if id in rows && (caller.Matches(rows[id].requester) || caller.Matches(rows[id].addressee)) then
      rows' == rows - {id} && answer.Deleted?
    else rows' == rows && answer.NotFound?
  }

  class ConnectionRepo {
    var rows: Rows

    method Request(requester: string, addressee: string, known: bool, newId: ConnId) returns (answer: Answer)
      requires Good(rows) && newId !in rows
      modifies this
      ensures Good(rows) && Requests(old(rows), requester, addressee, known, newId, rows, answer)
    {
      if requester == addressee {
        return SelfConnection;
      }
      if !known {
        return NotFound;
      }
      var wanted := Connection(requester, addressee, Pending);
      if x :| x in rows && SamePair(rows[x], wanted) {
        answer := Row(x, rows[x]);
      } else {
        rows := rows[newId := wanted];
        answer := Row(newId, wanted);
      }
    }

    method Accept(id: ConnId, caller: CallerIdentity) returns (answer: Answer)
      requires Good(rows)
      modifies this
      ensures Good(rows) && Accepts(old(rows), id, caller, rows, answer)
    {
      if id in rows && rows[id].addressee in caller.aliases && rows[id].state.Pending? {
        rows := rows[id := rows[id].(state := Accepted)];
        return Row(id, rows[id]);
      }
      if id !in rows {
        return NotFound;
      }
      var existing := rows[id];
      if caller.Matches(existing.requester) {
        answer := Forbidden;
      } else if caller.Matches(existing.addressee) {
        answer := NotPending;
      } else {
        answer := NotFound;
      }
    }

    method Delete(id: ConnId, caller: CallerIdentity) returns (answer: Answer)
      requires Good(rows)
      modifies this
      ensures Good(rows) && Deletes(old(rows), id, caller, rows, answer)
    {
      if id in rows && (rows[id].requester in caller.aliases || rows[id].addressee in caller.aliases) {
        rows := rows - {id};
        return Deleted;
      }
      answer := NotFound;
    }
  }

  // ----- runs -----

  datatype Op =
    | DoRequest(requester: string, addressee: string, known: bool, newId: ConnId)
    | DoAccept(id: ConnId, caller: CallerIdentity)
    | DoDelete(id: ConnId, caller: CallerIdentity)

  ghost predicate Steps(rows: Rows, op: Op, rows': Rows, answer: Answer) {
    match op
    case DoRequest(r, a, known, newId) => Requests(rows, r, a, known, newId, rows', answer)
    case DoAccept(id, caller) => Accepts(rows, id, caller, rows', answer)
    case DoDelete(id, caller) => Deletes(rows, id, caller, rows', answer)
  }

  /**
   * A run of calls from an empty table: `tables[k]` is the table before call `k`, and the
   * ids the database generates are never repeated.
   */
  ghost predicate Run(ops: seq<Op>, tables: seq<Rows>, answers: seq<Answer>) {
    && |tables| == |ops| + 1 && |answers| == |ops| && tables[0] == map[]
    && (forall k :: 0 <= k < |ops| ==> Steps(tables[k], ops[k], tables[k + 1], answers[k]))
    && (forall j, k :: 0 <= j < k < |ops| && ops[j].DoRequest? && ops[k].DoRequest? ==> ops[j].newId != ops[k].newId)
  }

  /** Call `k` created row `id`. */
  ghost predicate CreatedBy(ops: seq<Op>, k: nat, id: ConnId, c: Connection) {
    k < |ops| && ops[k] == DoRequest(c.requester, c.addressee, true, id)
  }

  /** Call `k` accepted row `id` for someone answering to its addressee. */
  ghost predicate AcceptedBy(ops: seq<Op>, answers: seq<Answer>, k: nat, id: ConnId, c: Connection) {
    && k < |ops| && k < |answers| && ops[k].DoAccept? && ops[k].id == id
    && ops[k].caller.Matches(c.addressee) && answers[k] == Row(id, c)
  }

  /** A row exists only if an earlier request of its requester created it. */
  lemma {:induction false} RowsComeFromRequests(ops: seq<Op>, tables: seq<Rows>, answers: seq<Answer>, n: nat,
                                                id: ConnId)
    requires Run(ops, tables, answers) && n <= |ops| && id in tables[n]
    ensures exists k :: 0 <= k < n && CreatedBy(ops, k, id, tables[n][id])
    decreases n
  {
    assert n > 0;
    assert Steps(tables[n - 1], ops[n - 1], tables[n], answers[n - 1]);
    if id in tables[n - 1] {
      RowsComeFromRequests(ops, tables, answers, n - 1, id);
      var k :| 0 <= k < n - 1 && CreatedBy(ops, k, id, tables[n - 1][id]);
      if ops[n - 1].DoRequest? { assert ops[k].newId != ops[n - 1].newId; }
      assert CreatedBy(ops, k, id, tables[n][id]);
    } else {
      assert CreatedBy(ops, n - 1, id, tables[n][id]);
    }
  }

  lemma NewRowKeepsGood(rows: Rows, id: ConnId, c: Connection)
    requires Good(rows) && c.requester != c.addressee
    requires forall x :: x in rows ==> !SamePair(rows[x], c)
    ensures Good(rows[id := c])
  {
    assert forall x :: x in rows ==> (SamePair(c, rows[x]) <==> SamePair(rows[x], c));
  }

  lemma AcceptKeepsGood(rows: Rows, id: ConnId)
    requires Good(rows) && id in rows
    ensures Good(rows[id := rows[id].(state := Accepted)])
  {
    var accepted := rows[id].(state := Accepted);
    assert forall c :: SamePair(accepted, c) <==> SamePair(rows[id], c);
    assert forall c :: SamePair(c, accepted) <==> SamePair(c, rows[id]);
  }

  lemma StepKeepsGood(rows: Rows, op: Op, rows': Rows, answer: Answer)
    requires Good(rows) && Steps(rows, op, rows', answer)
    ensures Good(rows')
  {
    match op
    case DoRequest(r, a, _, newId) =>
      if rows' != rows { NewRowKeepsGood(rows, newId, Connection(r, a, Pending)); }
    case DoAccept(id, _) =>
      if rows' != rows { AcceptKeepsGood(rows, id); }
    case DoDelete(_, _) =>
  }

  /** One row per unordered pair, and never a row of someone with themselves, at every moment of every run. */
  lemma {:induction false} OneRowPerPair(ops: seq<Op>, tables: seq<Rows>, answers: seq<Answer>, n: nat)
    requires Run(ops, tables, answers) && n <= |ops|
    ensures Good(tables[n])
  {
    if n == 0 {
    } else {
      OneRowPerPair(ops, tables, answers, n - 1);
      StepKeepsGood(tables[n - 1], ops[n - 1], tables[n], answers[n - 1]);
    }
  }

  /** While a row exists its parties stay, and an accepted row never goes back to pending. */
  lemma {:induction false} PartiesStay(ops: seq<Op>, tables: seq<Rows>, answers: seq<Answer>, m: nat, n: nat,
                                       id: ConnId)
    requires Run(ops, tables, answers) && m <= n <= |ops| && id in tables[m] && id in tables[n]
    ensures tables[n][id].requester == tables[m][id].requester && tables[n][id].addressee == tables[m][id].addressee
    ensures tables[m][id].state.Accepted? ==> tables[n][id].state.Accepted?
    decreases n
  {
    if m == n {
    } else {
      assert Steps(tables[n - 1], ops[n - 1], tables[n], answers[n - 1]);
      RowsComeFromRequests(ops, tables, answers, m, id);
      var k :| 0 <= k < m && CreatedBy(ops, k, id, tables[m][id]);
      assert ops[n - 1].DoRequest? ==> ops[k].newId != ops[n - 1].newId;
      PartiesStay(ops, tables, answers, m, n - 1, id);
    }
  }

  /**
   * An accepted connection was requested by its requester and later accepted by a caller
   * answering to its addressee's stored id.
   */
  lemma {:induction false} AcceptedWasAgreed(ops: seq<Op>, tables: seq<Rows>, answers: seq<Answer>, n: nat, id: ConnId)
    requires Run(ops, tables, answers) && n <= |ops| && id in tables[n] && tables[n][id].state.Accepted?
    ensures exists j, k ::
      0 <= j < k < n && CreatedBy(ops, j, id, tables[n][id]) && AcceptedBy(ops, answers, k, id, tables[n][id])
    decreases n
  {
    assert n > 0;
    assert Steps(tables[n - 1], ops[n - 1], tables[n], answers[n - 1]);
    RowsComeFromRequests(ops, tables, answers, n, id);
    var c :| 0 <= c < n && CreatedBy(ops, c, id, tables[n][id]);
    if id in tables[n - 1] && tables[n - 1][id].state.Accepted? {
      if ops[n - 1].DoRequest? && c != n - 1 { assert ops[c].newId != ops[n - 1].newId; }
      AcceptedWasAgreed(ops, tables, answers, n - 1, id);
    } else {
      assert AcceptedBy(ops, answers, n - 1, id, tables[n][id]);
      assert c < n - 1;
    }
  }

  /** Asking back while a request stands returns that request unchanged, so its requester cannot flip. */
  lemma ReverseRequestChangesNothing(rows: Rows, id: ConnId, newId: ConnId, rows': Rows, answer: Answer)
    requires Good(rows) && id in rows
    requires Requests(rows, rows[id].addressee, rows[id].requester, true, newId, rows', answer)
    ensures rows' == rows && answer == Row(id, rows[id])
  {
    var back := Connection(rows[id].addressee, rows[id].requester, Pending);
    PairIsUnordered(rows[id], back);
    assert answer.id in rows && SamePair(rows[answer.id], rows[id]);
  }

  /** A requester is never let to accept their own request. */
  lemma RequesterCannotAccept(rows: Rows, id: ConnId, caller: CallerIdentity, rows': Rows, answer: Answer)
    requires id in rows && caller.Matches(rows[id].requester) && !caller.Matches(rows[id].addressee)
    requires Accepts(rows, id, caller, rows', answer)
    ensures rows' == rows && answer.Forbidden?
  {}

  predicate AcceptedByRequesterOnly(op: Op, id: ConnId, c: Connection) {
    op.DoAccept? && op.id == id && op.caller.Matches(c.requester) && !op.caller.Matches(c.addressee)
  }

  /**
   * In every run a row that stays changes only by becoming accepted, in a call of someone answering to its
   * addressee; an acceptance by its requester alone is forbidden and leaves the whole table as it was.
   */
  lemma OnlyTheAddresseeMoves(ops: seq<Op>, tables: seq<Rows>, answers: seq<Answer>, n: nat, id: ConnId)
    requires Run(ops, tables, answers) && n < |ops| && id in tables[n] && id in tables[n + 1]
    ensures tables[n + 1][id] != tables[n][id] ==>
      ops[n].DoAccept? && ops[n].id == id && ops[n].caller.Matches(tables[n][id].addressee) &&
      tables[n][id].state.Pending? && tables[n + 1][id] == tables[n][id].(state := Accepted)
    ensures AcceptedByRequesterOnly(ops[n], id, tables[n][id]) ==> tables[n + 1] == tables[n] && answers[n].Forbidden?
  {
    assert Steps(tables[n], ops[n], tables[n + 1], answers[n]);
    NewIdsAreFresh(ops, tables, answers, n);
    if AcceptedByRequesterOnly(ops[n], id, tables[n][id]) {
      RequesterCannotAccept(tables[n], id, ops[n].caller, tables[n + 1], answers[n]);
    }
  }

  // ----- what each call of a run comes to -----

  /** The row joins the two ids, whoever asked. */
  predicate JoinsIds(c: Connection, x: string, y: string) {
    (c.requester == x && c.addressee == y) || (c.requester == y && c.addressee == x)
  }

  ghost predicate SomeRowJoins(rows: Rows, x: string, y: string) {
    exists id :: id in rows && JoinsIds(rows[id], x, y)
  }

  /**
   * Two different ids, the asked one known, get a pending row unless a row joins them in either direction, and
   * then that row as it stands; asking oneself or someone unknown changes nothing.
   */
  lemma RequestsInRuns(ops: seq<Op>, tables: seq<Rows>, answers: seq<Answer>, n: nat)
    requires Run(ops, tables, answers) && n < |ops| && ops[n].DoRequest?
    ensures var op := ops[n]; var wanted := Connection(op.requester, op.addressee, Pending);
      if op.requester == op.addressee then tables[n + 1] == tables[n] && answers[n] == SelfConnection
      else if !op.known then tables[n + 1] == tables[n] && answers[n] == NotFound
      else if SomeRowJoins(tables[n], op.requester, op.addressee) then
        && tables[n + 1] == tables[n] && answers[n].Row? && answers[n].id in tables[n]
        && answers[n].conn == tables[n][answers[n].id] && JoinsIds(answers[n].conn, op.requester, op.addressee)
      else tables[n + 1] == tables[n][op.newId := wanted] && answers[n] == Row(op.newId, wanted)
  {
    var op := ops[n];
    assert Steps(tables[n], op, tables[n + 1], answers[n]);
    var wanted := Connection(op.requester, op.addressee, Pending);
    forall id | id in tables[n]
      ensures SamePair(tables[n][id], wanted) <==> JoinsIds(tables[n][id], op.requester, op.addressee)
    {
      PairIsUnordered(tables[n][id], wanted);
    }
  }

  /**
   * A pending row is accepted exactly by someone answering to its addressee; anyone else, and a row that has moved
   * on, is refused for its reason and nothing changes.
   */
  lemma AcceptsInRuns(ops: seq<Op>, tables: seq<Rows>, answers: seq<Answer>, n: nat)
    requires Run(ops, tables, answers) && n < |ops| && ops[n].DoAccept?
    ensures var id, names, rows := ops[n].id, ops[n].caller.aliases, tables[n];
      if id !in rows then tables[n + 1] == rows && answers[n] == NotFound
      else if rows[id].state == Pending && rows[id].addressee in names then
        && tables[n + 1] == rows[id := Connection(rows[id].requester, rows[id].addressee, Accepted)]
        && answers[n] == Row(id, Connection(rows[id].requester, rows[id].addressee, Accepted))
      else
        && tables[n + 1] == rows
        && answers[n] == if rows[id].requester in names then Forbidden
                         else if rows[id].addressee in names then NotPending else NotFound
  {
    assert Steps(tables[n], ops[n], tables[n + 1], answers[n]);
  }

  /** A row leaves the table exactly when a call to delete it comes from someone answering to one of its parties. */
  lemma RowsLeaveByAParty(ops: seq<Op>, tables: seq<Rows>, answers: seq<Answer>, n: nat, id: ConnId)
    requires Run(ops, tables, answers) && n < |ops|
    ensures id in tables[n] ==>
      (id !in tables[n + 1] <==>
        ops[n].DoDelete? && ops[n].id == id &&
        (tables[n][id].requester in ops[n].caller.aliases || tables[n][id].addressee in ops[n].caller.aliases))
    ensures id in tables[n] && id !in tables[n + 1] ==> tables[n + 1] == tables[n] - {id} && answers[n] == Deleted
    ensures ops[n].DoDelete? && ops[n].id == id && (id !in tables[n] || id in tables[n + 1]) ==>
      tables[n + 1] == tables[n] && answers[n] == NotFound
  {
    assert Steps(tables[n], ops[n], tables[n + 1], answers[n]);
  }

  // ----- a request whose insert and fallback read are separate statements -----

  /** The pair has a row, in either direction. */
  ghost predicate HasPair(rows: Rows, requester: string, addressee: string) {
    exists x :: x in rows && SamePair(rows[x], Connection(requester, addressee, Pending))
  }

  /** Call `k` removed a row of this pair. */
  ghost predicate RemovesPair(ops: seq<Op>, tables: seq<Rows>, answers: seq<Answer>, k: nat, requester: string,
                              addressee: string) {
    && k < |ops| && k < |tables| && k < |answers| && ops[k].DoDelete? && answers[k].Deleted? && ops[k].id in tables[k]
    && SamePair(tables[k][ops[k].id], Connection(requester, addressee, Pending))
  }

  lemma PairLeavesByDelete(rows: Rows, op: Op, rows': Rows, answer: Answer, requester: string, addressee: string)
    requires Good(rows) && Steps(rows, op, rows', answer) && (op.DoRequest? ==> op.newId !in rows)
    requires HasPair(rows, requester, addressee) && !HasPair(rows', requester, addressee)
    ensures op.DoDelete? && answer.Deleted? && op.id in rows
    ensures SamePair(rows[op.id], Connection(requester, addressee, Pending))
  {
    var wanted := Connection(requester, addressee, Pending);
    var x :| x in rows && SamePair(rows[x], wanted);
    if x in rows' {
      assert !SamePair(rows'[x], wanted);
      PairIsUnordered(rows[x], wanted);
      PairIsUnordered(rows'[x], wanted);
    }
  }

  lemma NewIdsAreFresh(ops: seq<Op>, tables: seq<Rows>, answers: seq<Answer>, m: nat)
    requires Run(ops, tables, answers) && m < |ops|
    ensures ops[m].DoRequest? ==> ops[m].newId !in tables[m]
  {
    if ops[m].DoRequest? && ops[m].newId in tables[m] {
      RowsComeFromRequests(ops, tables, answers, m, ops[m].newId);
    }
  }

  /**
   * A suppressed insert at one moment and its fallback read at a later one, in any run: the read finds the
   * pair's one row, or some call deleted that pair in between, and then the request fails.
   */
  lemma {:induction false} RacedRequest(ops: seq<Op>, tables: seq<Rows>, answers: seq<Answer>, m: nat, n: nat,
                                        requester: string, addressee: string)
    requires Run(ops, tables, answers) && m <= n <= |ops| && HasPair(tables[m], requester, addressee)
    ensures HasPair(tables[n], requester, addressee) ||
      exists k :: m <= k < n && RemovesPair(ops, tables, answers, k, requester, addressee)
    decreases n - m
  {
    if m == n {
    } else {
      OneRowPerPair(ops, tables, answers, m);
      NewIdsAreFresh(ops, tables, answers, m);
      assert Steps(tables[m], ops[m], tables[m + 1], answers[m]);
      if HasPair(tables[m + 1], requester, addressee) {
        RacedRequest(ops, tables, answers, m + 1, n, requester, addressee);
      } else {
        PairLeavesByDelete(tables[m], ops[m], tables[m + 1], answers[m], requester, addressee);
        assert RemovesPair(ops, tables, answers, m, requester, addressee);
      }
    }
  }
}
