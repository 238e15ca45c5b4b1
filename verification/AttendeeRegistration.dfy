/** Registering attendees: who may claim a row, and what stays true of claimed rows. */
module AttendeeRegistration {
  import opened Text
  import ConnectionViews

  datatype Details = Details(title: string, company: string, country: string, firstName: string, lastName: string,
                             partner: bool, profileUrl: string)
  datatype Row = Row(email: string, idpUuid: Option<string>, memberId: Option<string>, details: Details,
                     createdBy: Option<string>, updatedBy: Option<string>)

  type RowId = string
  type Table = map<RowId, Row>

  // ----- unique columns -----

  /** NULLs never clash. */
  predicate Clash(a: Option<string>, b: Option<string>) { a.Some? && a == b }

  predicate Apart(a: Row, b: Row) {
    a.email != b.email && !Clash(a.idpUuid, b.idpUuid) && !Clash(a.memberId, b.memberId)
  }

  predicate UniqueKeys(t: Table) {
    forall x, y :: x in t && y in t && x != y ==> Apart(t[x], t[y])
  }

  /** Writing `row` at `x` violates no unique column. */
  predicate Fits(t: Table, x: RowId, row: Row) {
    forall y :: y in t && y != x ==> Apart(row, t[y])
  }

  // ----- one registration -----

  datatype Registration = Registration(memberId: string, details: Details)

  /** An omitted member id means "unchanged". */
  function MemberAfter(given: string, before: Option<string>): Option<string> {
    if given == "" then before else Some(given)
  }

  function NewRow(email: string, uuid: string, reg: Registration): Row {
    Row(email, Some(uuid), MemberAfter(reg.memberId, None), reg.details, Some(uuid), Some(uuid))
  }

  function ClaimedRow(before: Row, uuid: string, reg: Registration): Row {
    before.(idpUuid := Some(uuid), memberId := MemberAfter(reg.memberId, before.memberId), details := reg.details,
            updatedBy := Some(uuid))
  }

  /** The caller's own row, or one never bound to an identity. */
  predicate Claimable(row: Row, uuid: string) { row.idpUuid.None? || row.idpUuid == Some(uuid) }

  predicate Registered(t: Table, email: string) { exists x :: x in t && t[x].email == email }

  /** What Insert does: a new row, the claim of a claimable one, or nothing. */
  ghost predicate Registers(t: Table, email: string, uuid: string, reg: Registration, newId: RowId, t': Table,
                            ok: bool) {
    if Registered(t, email) then
      forall x :: x in t && t[x].email == email ==>
        var after := ClaimedRow(t[x], uuid, reg);
        (ok <==> Claimable(t[x], uuid) && Fits(t, x, after)) && t' == if ok then t[x := after] else t
    else
      var row := NewRow(email, uuid, reg);
      (ok <==> Fits(t, newId, row)) && t' == if ok then t[newId := row] else t
  }

  datatype Patch = Patch(title: Option<string>, company: Option<string>, country: Option<string>,
                         firstName: Option<string>, lastName: Option<string>, profileUrl: Option<string>)

  function Or(given: Option<string>, before: string): string { if given.Some? then given.value else before }

  function Patched(row: Row, p: Patch, editor: string): Row {
    var d := row.details;
    row.(details := Details(Or(p.title, d.title), Or(p.company, d.company), Or(p.country, d.country),
                            Or(p.firstName, d.firstName), Or(p.lastName, d.lastName), d.partner,
                            Or(p.profileUrl, d.profileUrl)),
         updatedBy := Some(editor))
  }

  /** What PatchByEmail does: only profile columns of the one row with this address. */
  ghost predicate Patches(t: Table, email: string, p: Patch, editor: string, t': Table, found: bool) {
    (found <==> Registered(t, email)) && t'.Keys == t.Keys &&
    forall x :: x in t ==> t'[x] == if t[x].email == email then Patched(t[x], p, editor) else t[x]
  }

  /** The profile a request carries is read back field by field from the caller's row. */
  ghost predicate ShowsProfile(row: Row, email: string, uuid: string, reg: Registration) {
    && row.email == email && row.idpUuid == Some(uuid) && row.updatedBy == Some(uuid)
    && row.details.title == reg.details.title && row.details.company == reg.details.company
    && row.details.country == reg.details.country && row.details.partner == reg.details.partner
    && row.details.firstName == reg.details.firstName && row.details.lastName == reg.details.lastName
    && row.details.profileUrl == reg.details.profileUrl
    && (reg.memberId != "" ==> row.memberId == Some(reg.memberId))
  }

  /**
   * After a registration that succeeds some row under the address shows the profile, and it was new or could be
   * claimed; a row that was there keeps its creator, and its member id when none is given.
   */
  lemma RegistrationIsReadBack(t: Table, email: string, uuid: string, reg: Registration, newId: RowId, t': Table)
    requires UniqueKeys(t) && newId !in t && Registers(t, email, uuid, reg, newId, t', true)
    ensures exists x :: x in t' && ShowsProfile(t'[x], email, uuid, reg)
    ensures forall x :: x in t && t[x].email != email ==> x in t' && t'[x] == t[x]
    ensures forall x :: x in t && t[x].email == email ==>
      && x in t' && ShowsProfile(t'[x], email, uuid, reg) && t[x].idpUuid in {None, Some(uuid)}
      && t'[x].createdBy == t[x].createdBy && (reg.memberId == "" ==> t'[x].memberId == t[x].memberId)
    ensures !Registered(t, email) ==>
      && newId in t' && ShowsProfile(t'[newId], email, uuid, reg)
      && t'[newId].createdBy == Some(uuid) && (reg.memberId == "" ==> t'[newId].memberId == None)
  {
    if x :| x in t && t[x].email == email {
      assert forall y :: y in t && t[y].email == email ==> y == x;
      assert t' == t[x := ClaimedRow(t[x], uuid, reg)];
      assert ShowsProfile(t'[x], email, uuid, reg);
    } else {
      assert ShowsProfile(t'[newId], email, uuid, reg);
    }
  }

  /**
   * A registration succeeds exactly when the address is free, unclaimed or the caller's, and neither the caller nor
   * the member id given belongs to a row under another address.
   */
  lemma RefusedExactlyWhen(t: Table, email: string, uuid: string, reg: Registration, newId: RowId, t': Table, ok: bool)
    requires UniqueKeys(t) && newId !in t && Registers(t, email, uuid, reg, newId, t', ok)
    ensures ok <==>
      && (forall x :: x in t && t[x].email == email ==> t[x].idpUuid in {None, Some(uuid)})
      && (forall x :: x in t && t[x].email != email ==>
            t[x].idpUuid != Some(uuid) && (reg.memberId != "" ==> t[x].memberId != Some(reg.memberId)))
    ensures !ok ==> t' == t
  {
    if x :| x in t && t[x].email == email {
      assert forall y :: y in t && t[y].email == email ==> y == x;
      var after := ClaimedRow(t[x], uuid, reg);
      forall y | y in t && y != x
        ensures Apart(after, t[y]) <==>
          t[y].idpUuid != Some(uuid) && (reg.memberId != "" ==> t[y].memberId != Some(reg.memberId))
      {
        assert Apart(t[x], t[y]);
      }
    } else {
      var row := NewRow(email, uuid, reg);
      assert forall y :: y in t ==> (Apart(row, t[y]) <==>
        t[y].idpUuid != Some(uuid) && (reg.memberId != "" ==> t[y].memberId != Some(reg.memberId)));
    }
  }

  /** `after` is the given value, or stays when none is given. */
  predicate Takes(given: Option<string>, before: string, after: string) {
    (given.Some? ==> after == given.value) && (given.None? ==> after == before)
  }

  /** An edit writes each given field in its own column and leaves the others, identity and membership among them. */
  lemma PatchIsReadBack(t: Table, email: string, p: Patch, editor: string, t': Table, found: bool, x: RowId)
    requires Patches(t, email, p, editor, t', found) && x in t
    ensures found <==> exists y :: y in t && t[y].email == email
    ensures t'.Keys == t.Keys
    ensures x in t' && t'[x].email == t[x].email && t'[x].idpUuid == t[x].idpUuid && t'[x].memberId == t[x].memberId
    ensures t'[x].createdBy == t[x].createdBy && t'[x].details.partner == t[x].details.partner
    ensures t[x].email != email ==> t'[x] == t[x]
    ensures t[x].email == email ==> t'[x].updatedBy == Some(editor)
    ensures t[x].email == email ==>
      var before, after := t[x].details, t'[x].details;
      && Takes(p.title, before.title, after.title) && Takes(p.company, before.company, after.company)
      && Takes(p.country, before.country, after.country) && Takes(p.firstName, before.firstName, after.firstName)
      && Takes(p.lastName, before.lastName, after.lastName)
      && Takes(p.profileUrl, before.profileUrl, after.profileUrl)
  {}

  class AttendeeProfileRepo {
    var rows: Table

    /** Upsert on the address; a unique violation or an update that matches no row is refused. */
    method Insert(email: string, uuid: string, reg: Registration, newId: RowId) returns (ok: bool)
      requires UniqueKeys(rows) && newId !in rows
      modifies this
      ensures UniqueKeys(rows) && Registers(old(rows), email, uuid, reg, newId, rows, ok)
    {
      if x :| x in rows && rows[x].email == email {
        assert forall y :: y in rows && rows[y].email == email ==> y == x;
        var after := ClaimedRow(rows[x], uuid, reg);
        ok := Claimable(rows[x], uuid) && Fits(rows, x, after);
        if ok { rows := rows[x := after]; }
      } else {
        var row := NewRow(email, uuid, reg);
        ok := Fits(rows, newId, row);
        if ok { rows := rows[newId := row]; }
      }
    }

    method PatchByEmail(email: string, p: Patch, editor: string) returns (found: bool)
      requires UniqueKeys(rows)
      modifies this
      ensures UniqueKeys(rows) && Patches(old(rows), email, p, editor, rows, found)
    {
      if x :| x in rows && rows[x].email == email {
        rows := rows[x := Patched(rows[x], p, editor)];
        return true;
      }
      found := false;
    }
  }

  // ----- runs -----

  /** Roster imports come from outside this service and add unclaimed rows that fit. */
  datatype Op =
    | Register(email: string, uuid: string, reg: Registration, newId: RowId)
    | Edit(email: string, patch: Patch, editor: string)
    | Import(id: RowId, email: string, memberId: Option<string>, details: Details)

  ghost predicate Steps(t: Table, op: Op, t': Table) {
    match op
    case Register(email, uuid, reg, newId) => newId !in t && exists ok :: Registers(t, email, uuid, reg, newId, t', ok)
    case Edit(email, patch, editor) => exists found :: Patches(t, email, patch, editor, t', found)
    case Import(id, email, memberId, details) =>
      var row := Row(email, None, memberId, details, None, None);
      id !in t && Fits(t, id, row) && t' == t[id := row]
  }

  ghost predicate Run(ops: seq<Op>, tables: seq<Table>) {
    && |tables| == |ops| + 1 && tables[0] == map[]
    && forall k :: 0 <= k < |ops| ==> Steps(tables[k], ops[k], tables[k + 1])
  }

  lemma FittingKeepsUnique(t: Table, x: RowId, row: Row)
    requires UniqueKeys(t) && Fits(t, x, row)
    ensures UniqueKeys(t[x := row])
  {}

  lemma StepKeepsUnique(t: Table, op: Op, t': Table)
    requires UniqueKeys(t) && Steps(t, op, t')
    ensures UniqueKeys(t')
  {
    match op
    case Register(email, uuid, reg, newId) =>
      if x :| x in t && t[x].email == email {
        if t' != t { FittingKeepsUnique(t, x, ClaimedRow(t[x], uuid, reg)); }
      } else if t' != t {
        FittingKeepsUnique(t, newId, NewRow(email, uuid, reg));
      }
    case Edit(_, _, _) => assert forall x :: x in t ==> t'[x].email == t[x].email;
    case Import(id, email, memberId, details) =>
      FittingKeepsUnique(t, id, Row(email, None, memberId, details, None, None));
  }

  /** Addresses, identities and member ids are unique at every moment of every run. */
  lemma {:induction false} KeysStayUnique(ops: seq<Op>, tables: seq<Table>, n: nat)
    requires Run(ops, tables) && n <= |ops|
    ensures UniqueKeys(tables[n])
    ensures forall x, y :: x in tables[n] && y in tables[n] && x != y ==>
      && tables[n][x].email != tables[n][y].email
      && (tables[n][x].idpUuid.Some? ==> tables[n][x].idpUuid != tables[n][y].idpUuid)
      && (tables[n][x].memberId.Some? ==> tables[n][x].memberId != tables[n][y].memberId)
  {
    if n == 0 {
    } else {
      KeysStayUnique(ops, tables, n - 1);
      StepKeepsUnique(tables[n - 1], ops[n - 1], tables[n]);
    }
  }

  ghost predicate SameOwner(a: Row, b: Row) {
    a.email == b.email && (a.idpUuid.Some? ==> b.idpUuid == a.idpUuid) && (a.memberId.Some? ==> b.memberId.Some?)
  }

  lemma StepKeepsOwner(t: Table, op: Op, t': Table, x: RowId)
    requires UniqueKeys(t) && Steps(t, op, t') && x in t
    ensures x in t' && SameOwner(t[x], t'[x])
    ensures t'[x] != t[x] ==> (op.Register? || op.Edit?) && op.email == t[x].email
    ensures t'[x] != t[x] && op.Register? ==> Claimable(t[x], op.uuid) && t'[x].idpUuid == Some(op.uuid)
  {
    if op.Register? && Registered(t, op.email) {
      var y :| y in t && t[y].email == op.email;
      assert y != x ==> Apart(t[x], t[y]);
    }
  }

  /** A claimed row keeps its owner and address for good and never loses its member id. */
  lemma {:induction false} OwnersStay(ops: seq<Op>, tables: seq<Table>, m: nat, n: nat, x: RowId)
    requires Run(ops, tables) && m <= n <= |ops| && x in tables[m]
    ensures x in tables[n] && SameOwner(tables[m][x], tables[n][x])
    decreases n
  {
    if m == n {
    } else {
      OwnersStay(ops, tables, m, n - 1, x);
      KeysStayUnique(ops, tables, n - 1);
      StepKeepsOwner(tables[n - 1], ops[n - 1], tables[n], x);
    }
  }

  ghost predicate ClaimedBy(ops: seq<Op>, k: nat, email: string, uuid: string) {
    k < |ops| && ops[k].Register? && ops[k].email == email && ops[k].uuid == uuid
  }

  /** Whoever owns a row once registered under that row's address. */
  lemma {:induction false} OwnersRegistered(ops: seq<Op>, tables: seq<Table>, n: nat, x: RowId)
    requires Run(ops, tables) && n <= |ops| && x in tables[n] && tables[n][x].idpUuid.Some?
    ensures exists k :: 0 <= k < n && ClaimedBy(ops, k, tables[n][x].email, tables[n][x].idpUuid.value)
    decreases n
  {
    assert n > 0;
    var t, op, row := tables[n - 1], ops[n - 1], tables[n][x];
    assert Steps(t, op, tables[n]);
    KeysStayUnique(ops, tables, n - 1);
    if x in t { StepKeepsOwner(t, op, tables[n], x); }
    if x in t && t[x].idpUuid.Some? {
      OwnersRegistered(ops, tables, n - 1, x);
    } else {
      assert ClaimedBy(ops, n - 1, row.email, row.idpUuid.value);
    }
  }

  /** A claimed row changes only for its owner's registration or an edit under its own address. */
  lemma OnlyTheOwnerWrites(ops: seq<Op>, tables: seq<Table>, n: nat, x: RowId)
    requires Run(ops, tables) && n < |ops| && x in tables[n] && tables[n][x].idpUuid.Some?
    requires tables[n + 1][x] != tables[n][x]
    ensures ops[n].Edit? || (ops[n].Register? && tables[n][x].idpUuid == Some(ops[n].uuid))
    ensures !ops[n].Import? && ops[n].email == tables[n][x].email
  {
    KeysStayUnique(ops, tables, n);
    StepKeepsOwner(tables[n], ops[n], tables[n + 1], x);
  }

  // ----- what the identity lookups need -----

  function Listed(t: Table, order: seq<RowId>): seq<ConnectionViews.Attendee>
    requires forall x :: x in order ==> x in t
  {
    seq(|order|, k requires 0 <= k < |order| =>
      ConnectionViews.Attendee(t[order[k]].idpUuid, t[order[k]].email, t[order[k]].details.firstName))
  }

  /** No two claimed rows share an address, or an address and an identity, once letter case is ignored. */
  ghost predicate CaseApart(t: Table) {
    forall x, y :: x in t && y in t && x != y && t[x].idpUuid.Some? && t[y].idpUuid.Some? ==>
      ToLower(t[x].email) != ToLower(t[y].email) && ToLower(t[x].email) != ToLower(t[y].idpUuid.value)
  }

  /** Registration alone makes identities unambiguous exactly when claimed rows differ by more than letter case. */
  lemma UnambiguousExactlyWhen(t: Table, order: seq<RowId>)
    requires UniqueKeys(t) && (forall x :: x in order <==> x in t)
    requires forall j, k :: 0 <= j < k < |order| ==> order[j] != order[k]
    ensures ConnectionViews.Unambiguous(Listed(t, order)) <==> CaseApart(t)
  {
    var all := Listed(t, order);
    if CaseApart(t) {
      forall j, k, id | 0 <= j < k < |all|
        ensures !(ConnectionViews.Answers(all[j], id) && ConnectionViews.Answers(all[k], id))
      {
        assert order[j] != order[k] && Apart(t[order[j]], t[order[k]]);
      }
    }
    if ConnectionViews.Unambiguous(all) {
      forall x, y | x in t && y in t && x != y && t[x].idpUuid.Some? && t[y].idpUuid.Some?
        ensures ToLower(t[x].email) != ToLower(t[y].email) && ToLower(t[x].email) != ToLower(t[y].idpUuid.value)
      {
        var j :| 0 <= j < |order| && order[j] == x;
        var k :| 0 <= k < |order| && order[k] == y;
        NotBoth(all, j, k, t[x].email);
        NotBoth(all, j, k, t[y].idpUuid.value);
      }
    }
  }

  lemma NotBoth(all: seq<ConnectionViews.Attendee>, j: nat, k: nat, id: string)
    requires ConnectionViews.Unambiguous(all) && j < |all| && k < |all| && j != k
    ensures !(ConnectionViews.Answers(all[j], id) && ConnectionViews.Answers(all[k], id))
  {
    if j < k {
      assert !(ConnectionViews.Answers(all[j], id) && ConnectionViews.Answers(all[k], id));
    } else {
      assert !(ConnectionViews.Answers(all[k], id) && ConnectionViews.Answers(all[j], id));
    }
  }

  /** Two spellings of one address can both be claimed, so the condition is not met by every run. */
  lemma SpellingsCanCollide(details: Details) returns (ops: seq<Op>, tables: seq<Table>)
    ensures Run(ops, tables) && !CaseApart(tables[|ops|])
  {
    var reg := Registration("", details);
    var first, second := NewRow("Ann", "u1", reg), NewRow("ann", "u2", reg);
    ops := [Register("Ann", "u1", reg, "r1"), Register("ann", "u2", reg, "r2")];
    tables := [map[], map["r1" := first], map["r1" := first, "r2" := second]];
    assert Registers(tables[0], "Ann", "u1", reg, "r1", tables[1], true);
    assert "Ann"[0] != "ann"[0] && "u1"[1] != "u2"[1];
    assert Apart(second, first);
    assert Registers(tables[1], "ann", "u2", reg, "r2", tables[2], true);
    assert ToLower("Ann") == ToLower("ann");
    var t := tables[2];
    assert "r1"[1] != "r2"[1];
    assert "r1" in t && "r2" in t && ToLower(t["r1"].email) == ToLower(t["r2"].email);
  }
}
