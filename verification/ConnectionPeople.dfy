/** Pairs of attendees behind the stored pairs of ids: one attendee may be stored under several ids. */
module ConnectionPeople {
  import opened Text
  import opened Connections
  import opened ConnectionViews

  /** Row `c` joins attendees `a` and `b`, in either direction. */
  predicate Joins(directory: seq<Attendee>, c: Connection, a: nat, b: nat) {
    a < |directory| && b < |directory| && a != b &&
    ((IsIdOf(c.requester, directory[a]) && IsIdOf(c.addressee, directory[b]))
     || (IsIdOf(c.addressee, directory[a]) && IsIdOf(c.requester, directory[b])))
  }

  /** The id under which row `c` stores attendee `a`. */
  function StoredAs(directory: seq<Attendee>, c: Connection, a: nat): string
    requires a < |directory|
  {
    if IsIdOf(c.requester, directory[a]) then c.requester else c.addressee
  }

  lemma NotBoth(directory: seq<Attendee>, a: nat, b: nat, id: string)
    requires Unambiguous(directory) && a < |directory| && b < |directory| && a != b
    ensures !(IsIdOf(id, directory[a]) && IsIdOf(id, directory[b]))
  {
    AnswersIs(directory[a], id);
    AnswersIs(directory[b], id);
    if a < b {
      assert !(Answers(directory[a], id) && Answers(directory[b], id));
    } else {
      assert !(Answers(directory[b], id) && Answers(directory[a], id));
    }
  }

  lemma OneIdEach(directory: seq<Attendee>, c: Connection, a: nat, b: nat)
    requires Unambiguous(directory) && Joins(directory, c, a, b)
    ensures (c.requester == StoredAs(directory, c, a) && c.addressee == StoredAs(directory, c, b))
      || (c.requester == StoredAs(directory, c, b) && c.addressee == StoredAs(directory, c, a))
  {
    NotBoth(directory, a, b, c.requester);
    NotBoth(directory, a, b, c.addressee);
  }

  /** Of two rows that join the same two attendees, one stores one of them under another id than the other does. */
  lemma TwoRowsExactlyForTwoIds(ops: seq<Op>, tables: seq<Rows>, answers: seq<Answer>, n: nat,
                                directory: seq<Attendee>, a: nat, b: nat, x: ConnId, y: ConnId)
    requires Run(ops, tables, answers) && n <= |ops| && x in tables[n] && y in tables[n] && Unambiguous(directory)
    requires Joins(directory, tables[n][x], a, b) && Joins(directory, tables[n][y], a, b)
    ensures x != y <==>
      StoredAs(directory, tables[n][x], a) != StoredAs(directory, tables[n][y], a)
      || StoredAs(directory, tables[n][x], b) != StoredAs(directory, tables[n][y], b)
  {
    OneRowPerPair(ops, tables, answers, n);
    OneIdEach(directory, tables[n][x], a, b);
    OneIdEach(directory, tables[n][y], a, b);
    PairIsUnordered(tables[n][x], tables[n][y]);
  }

  // ----- when requesters are resolved -----

  /** `id` is some attendee's idp_uuid, which once set never changes. */
  ghost predicate Canonical(directory: seq<Attendee>, id: string) {
    exists k :: 0 <= k < |directory| && directory[k].idpUuid == Some(id)
  }

  /** The directory at each request, and at last: ids once set stay, as claimed attendee rows keep their owner. */
  ghost predicate History(directories: seq<seq<Attendee>>, ops: seq<Op>) {
    && |directories| == |ops| + 1
    && forall j, k, id :: 0 <= j <= k <= |ops| && Canonical(directories[j], id) ==> Canonical(directories[k], id)
  }

  /** What the existence query of Request has established of each addressee. */
  ghost predicate AddresseesKnown(directories: seq<seq<Attendee>>, ops: seq<Op>)
    requires History(directories, ops)
  {
    forall k :: 0 <= k < |ops| && ops[k].DoRequest? && ops[k].known ==> Canonical(directories[k], ops[k].addressee)
  }

  ghost predicate Resolved(directory: seq<Attendee>, uuid: string) {
    exists sub, email :: Resolves(directory, sub, email, uuid)
  }

  /** Every requester was resolved when asking. */
  ghost predicate RequestersResolved(directories: seq<seq<Attendee>>, ops: seq<Op>)
    requires History(directories, ops)
  {
    forall k :: 0 <= k < |ops| && ops[k].DoRequest? && ops[k].known ==> Resolved(directories[k], ops[k].requester)
  }

  lemma ResolvedIsCanonical(directory: seq<Attendee>, uuid: string)
    requires Resolved(directory, uuid)
    ensures Canonical(directory, uuid)
  {
    var sub, email :| Resolves(directory, sub, email, uuid);
    var k := ResolvedAttendee(directory, sub, email, uuid);
  }

  lemma CanonicalNamesItsOwner(directory: seq<Attendee>, a: nat, id: string)
    requires Unambiguous(directory) && Canonical(directory, id) && a < |directory| && IsIdOf(id, directory[a])
    ensures directory[a].idpUuid == Some(id)
  {
    var k :| 0 <= k < |directory| && directory[k].idpUuid == Some(id);
    if k != a { NotBoth(directory, a, k, id); }
  }

  lemma PartiesAreCanonical(ops: seq<Op>, tables: seq<Rows>, answers: seq<Answer>, n: nat,
                            directories: seq<seq<Attendee>>, x: ConnId)
    requires Run(ops, tables, answers) && n <= |ops| && x in tables[n] && History(directories, ops)
    requires AddresseesKnown(directories, ops) && RequestersResolved(directories, ops)
    ensures Canonical(directories[n], tables[n][x].requester) && Canonical(directories[n], tables[n][x].addressee)
  {
    RowsComeFromRequests(ops, tables, answers, n, x);
    var k :| 0 <= k < n && CreatedBy(ops, k, x, tables[n][x]);
    ResolvedIsCanonical(directories[k], ops[k].requester);
  }

  /** While every requester is resolved when asking, no two rows of any run join the same two attendees. */
  lemma OneRowPerTwoAttendees(ops: seq<Op>, tables: seq<Rows>, answers: seq<Answer>, n: nat,
                              directories: seq<seq<Attendee>>, a: nat, b: nat, x: ConnId, y: ConnId)
    requires Run(ops, tables, answers) && n <= |ops| && x in tables[n] && y in tables[n]
    requires History(directories, ops) && Unambiguous(directories[n])
    requires AddresseesKnown(directories, ops) && RequestersResolved(directories, ops)
    requires Joins(directories[n], tables[n][x], a, b) && Joins(directories[n], tables[n][y], a, b)
    ensures x == y
  {
    var directory := directories[n];
    TwoRowsExactlyForTwoIds(ops, tables, answers, n, directory, a, b, x, y);
    forall z, k | z in {x, y} && k in {a, b}
      ensures directory[k].idpUuid == Some(StoredAs(directory, tables[n][z], k))
    {
      PartiesAreCanonical(ops, tables, answers, n, directories, z);
      CanonicalNamesItsOwner(directory, k, StoredAs(directory, tables[n][z], k));
    }
  }

  // ----- when one is not -----

  const ANN := "ann@x"
  const BOB := Attendee(Some("u2"), "bob@x", "Bob")
  const UNCLAIMED := [Attendee(None, ANN, "Ann"), BOB]
  const CLAIMED := [Attendee(Some("u1"), ANN, "Ann"), BOB]
  const MEANWHILE := [UNCLAIMED, CLAIMED, CLAIMED]

  lemma IdsStay(j: nat, k: nat, id: string)
    requires j <= k <= 2 && Canonical(MEANWHILE[j], id)
    ensures Canonical(MEANWHILE[k], id)
  {
    var m :| 0 <= m < |MEANWHILE[j]| && MEANWHILE[j][m].idpUuid == Some(id);
    assert MEANWHILE[k][m].idpUuid == Some(id);
  }

  lemma ClaimedIsUnambiguous()
    ensures Unambiguous(CLAIMED)
  {
    assert "u1"[1] != "u2"[1];
    assert ToLower(ANN)[0] == 'a' && ToLower("bob@x")[0] == 'b';
    assert |ToLower(ANN)| == 5 && |ToLower("bob@x")| == 5 && |ToLower("u1")| == 2 && |ToLower("u2")| == 2;
  }

  lemma AnnIsUnresolved(uuid: string)
    ensures !Resolves(UNCLAIMED, ANN, ANN, uuid)
  {
    assert "u2"[0] != ANN[0] && ToLower("bob@x")[0] == 'b' && ToLower(ANN)[0] == 'a';
  }

  lemma AnnIsResolved()
    ensures Resolves(CLAIMED, ANN, ANN, "u1")
  {
    var ann := CLAIMED[0];
    assert "u1"[0] != ANN[0] && "u2"[0] != ANN[0] && ToLower("bob@x")[0] == 'b' && ToLower(ANN)[0] == 'a';
    assert ann in CLAIMED && Candidate(ann, ANN, ANN) && Rank(ann, ANN, ANN) == 2;
    assert forall b :: b in CLAIMED && Candidate(b, ANN, ANN) ==> b == ann;
  }

  /**
   * Ann asks Bob before her row is claimed and is stored under her sub; once it is claimed she asks again and
   * is stored under her uuid: two rows join the same two people.
   */
  lemma UnresolvedRequesterCanDouble() returns (ops: seq<Op>, tables: seq<Rows>, answers: seq<Answer>)
    ensures Run(ops, tables, answers) && |ops| == 2 && Unambiguous(CLAIMED)
    ensures History(MEANWHILE, ops) && AddresseesKnown(MEANWHILE, ops)
    ensures ops[0].DoRequest? && ops[0].requester == ANN && forall uuid :: !Resolves(MEANWHILE[0], ANN, ANN, uuid)
    ensures ops[1].DoRequest? && Resolves(MEANWHILE[1], ANN, ANN, ops[1].requester)
    ensures |tables| == 3 && "r1" in tables[2] && "r2" in tables[2]
    ensures Joins(CLAIMED, tables[2]["r1"], 0, 1) && Joins(CLAIMED, tables[2]["r2"], 0, 1)
  {
    var first, second := Connection(ANN, "u2", Pending), Connection("u1", "u2", Pending);
    ops := [DoRequest(ANN, "u2", true, "r1"), DoRequest("u1", "u2", true, "r2")];
    tables := [map[], map["r1" := first], map["r1" := first, "r2" := second]];
    answers := [Row("r1", first), Row("r2", second)];
    assert "r1"[1] != "r2"[1] && "u1"[1] != "u2"[1] && ANN[0] != "u1"[0] && ANN[0] != "u2"[0];
    PairIsUnordered(first, second);
    assert Steps(tables[0], ops[0], tables[1], answers[0]);
    assert Steps(tables[1], ops[1], tables[2], answers[1]);
    assert UNCLAIMED[1].idpUuid == Some("u2") && CLAIMED[1].idpUuid == Some("u2");
    forall j, k, id | 0 <= j <= k <= 2 && Canonical(MEANWHILE[j], id) ensures Canonical(MEANWHILE[k], id) {
      IdsStay(j, k, id);
    }
    ClaimedIsUnambiguous();
    AnnIsResolved();
    forall uuid ensures !Resolves(UNCLAIMED, ANN, ANN, uuid) { AnnIsUnresolved(uuid); }
    assert "r1" in tables[2] && "r2" in tables[2];
    assert Joins(CLAIMED, tables[2]["r1"], 0, 1) && Joins(CLAIMED, tables[2]["r2"], 0, 1);
  }
}
