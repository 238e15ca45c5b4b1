/** GET /users/me/connections: who sees a stored row, where, and with what. */
module ConnectionViews {
  import opened Text
  import opened Connections

  datatype Attendee = Attendee(idpUuid: Option<string>, email: string, name: string)

  // ----- resolving identities -----

  /** The join condition: a claimed attendee whose uuid is `id`, or whose email is in any letter case. */
  predicate Answers(a: Attendee, id: string) {
    a.idpUuid.Some? && (a.idpUuid.value == id || ToLower(a.email) == ToLower(id))
  }

  function Answering(attendees: seq<Attendee>, id: string): seq<Attendee> {
    if attendees == [] then []
    else
      var before, last := Answering(attendees[..|attendees| - 1], id), attendees[|attendees| - 1];
      if Answers(last, id) then before + [last] else before
  }

  /** ORDER BY (idp_uuid = sub) DESC, (LOWER(email) = LOWER(sub)) DESC LIMIT 1. */
  function Rank(a: Attendee, sub: string, email: string): nat
    requires a.idpUuid.Some?
  {
    if a.idpUuid.value == sub then 3
    else if ToLower(a.email) == ToLower(sub) then 2
    else if email != "" && ToLower(a.email) == ToLower(email) then 1
    else 0
  }

  predicate Candidate(a: Attendee, sub: string, email: string) { a.idpUuid.Some? && Rank(a, sub, email) > 0 }

  /** ResolveUUID may answer with any best-ranked candidate. */
  ghost predicate Resolves(attendees: seq<Attendee>, sub: string, email: string, uuid: string) {
    exists a :: a in attendees && Candidate(a, sub, email) && a.idpUuid.value == uuid
      && forall b :: b in attendees && Candidate(b, sub, email) ==> Rank(b, sub, email) <= Rank(a, sub, email)
  }

  /** The identity the handler builds: the resolved uuid with the token's sub and email beside it. */
  ghost predicate IdentityOf(attendees: seq<Attendee>, sub: string, email: string, caller: CallerIdentity) {
    && Resolves(attendees, sub, email, caller.canonical)
    && caller.aliases == Distinct([caller.canonical, sub, email])
  }

  /** No string names two attendees: uuids and emails are told apart whatever their letter case. */
  ghost predicate Unambiguous(attendees: seq<Attendee>) {
    forall j, k, id :: 0 <= j < k < |attendees| ==> !(Answers(attendees[j], id) && Answers(attendees[k], id))
  }

  /** The id is the attendee's uuid, or the attendee's address in some letter case, and the attendee is claimed. */
  predicate IsIdOf(id: string, a: Attendee) { a.idpUuid.Some? && (a.idpUuid == Some(id) || SameLetters(a.email, id)) }

  lemma AnswersIs(a: Attendee, id: string)
    ensures Answers(a, id) <==> IsIdOf(id, a)
  {
    CaseFolds(a.email, id);
  }

  /**
   * A caller resolves to the attendee with the sub for a uuid; if there is none, to one with the sub for an address;
   * and if there is none of these either, to one with the address the token claims.
   */
  lemma ResolvesInTurn(attendees: seq<Attendee>, sub: string, email: string, uuid: string)
    ensures Resolves(attendees, sub, email, uuid) <==>
      if exists a :: a in attendees && a.idpUuid == Some(sub) then uuid == sub
      else if exists a :: a in attendees && a.idpUuid.Some? && SameLetters(a.email, sub) then
        exists a :: a in attendees && a.idpUuid == Some(uuid) && SameLetters(a.email, sub)
      else email != "" && exists a :: a in attendees && a.idpUuid == Some(uuid) && SameLetters(a.email, email)
  {
    forall a: Attendee
      ensures ToLower(a.email) == ToLower(sub) <==> SameLetters(a.email, sub)
      ensures ToLower(a.email) == ToLower(email) <==> SameLetters(a.email, email)
    {
      CaseFolds(a.email, sub);
      CaseFolds(a.email, email);
    }
    if a :| a in attendees && a.idpUuid == Some(sub) {
      assert Candidate(a, sub, email) && Rank(a, sub, email) == 3;
    }
    if a :| a in attendees && a.idpUuid.Some? && SameLetters(a.email, sub) {
      assert Candidate(a, sub, email) && Rank(a, sub, email) >= 2;
    }
  }

  lemma {:induction false} AnsweringMembers(attendees: seq<Attendee>, id: string, a: Attendee)
    ensures a in Answering(attendees, id) <==> a in attendees && Answers(a, id)
  {
    if attendees == [] {
    } else {
      AnsweringMembers(attendees[..|attendees| - 1], id, a);
      assert attendees == attendees[..|attendees| - 1] + [attendees[|attendees| - 1]];
    }
  }

  lemma NobodyElse(attendees: seq<Attendee>, id: string)
    requires forall k :: 0 <= k < |attendees| ==> !Answers(attendees[k], id)
    ensures Answering(attendees, id) == []
  {
    if Answering(attendees, id) != [] { AnsweringMembers(attendees, id, Answering(attendees, id)[0]); }
  }

  /** The id is that of one attendee and of no other. */
  ghost predicate LeadsToOne(attendees: seq<Attendee>, id: string) {
    exists k :: LeadsTo(attendees, id, k)
  }

  ghost predicate LeadsTo(attendees: seq<Attendee>, id: string, k: int) {
    0 <= k < |attendees| && forall j :: 0 <= j < |attendees| ==> (IsIdOf(id, attendees[j]) <==> j == k)
  }

  lemma {:induction false} NoneAnswers(attendees: seq<Attendee>, id: string)
    ensures Answering(attendees, id) == [] <==> forall k :: 0 <= k < |attendees| ==> !IsIdOf(id, attendees[k])
  {
    if attendees == [] {
    } else {
      NoneAnswers(attendees[..|attendees| - 1], id);
      AnswersIs(attendees[|attendees| - 1], id);
      assert forall k :: 0 <= k < |attendees| - 1 ==> attendees[..|attendees| - 1][k] == attendees[k];
    }
  }

  lemma LeadsToLast(init: seq<Attendee>, last: Attendee, id: string)
    ensures IsIdOf(id, last) ==>
      (LeadsToOne(init + [last], id) <==> forall k :: 0 <= k < |init| ==> !IsIdOf(id, init[k]))
    ensures !IsIdOf(id, last) ==> (LeadsToOne(init + [last], id) <==> LeadsToOne(init, id))
  {
    var all := init + [last];
    assert all[|init|] == last && forall k :: 0 <= k < |init| ==> all[k] == init[k];
    if IsIdOf(id, last) {
      if k :| LeadsTo(all, id, k) { assert k == |init|; }
      if forall k :: 0 <= k < |init| ==> !IsIdOf(id, init[k]) { assert LeadsTo(all, id, |init|); }
    } else {
      if k :| LeadsTo(init, id, k) { assert LeadsTo(all, id, k); }
      if k :| LeadsTo(all, id, k) { assert LeadsTo(init, id, k); }
    }
  }

  lemma {:induction false} OneLeads(attendees: seq<Attendee>, id: string)
    ensures |Answering(attendees, id)| == 1 <==> LeadsToOne(attendees, id)
  {
    if attendees == [] {
    } else {
      var init, last := attendees[..|attendees| - 1], attendees[|attendees| - 1];
      assert attendees == init + [last];
      OneLeads(init, id);
      NoneAnswers(init, id);
      AnswersIs(last, id);
      LeadsToLast(init, last, id);
    }
  }

  /** In an unambiguous directory each id an attendee answers to leads to that attendee alone. */
  lemma {:induction false} OneAnswers(attendees: seq<Attendee>, id: string, k: nat)
    requires Unambiguous(attendees) && k < |attendees| && Answers(attendees[k], id)
    ensures Answering(attendees, id) == [attendees[k]]
  {
    var init := attendees[..|attendees| - 1];
    if k < |init| {
      assert init[k] == attendees[k];
      OneAnswers(init, id, k);
    } else {
      NobodyElse(init, id);
    }
  }

  /** A caller whose sub is their uuid or email resolves to themselves, whatever the email claim says. */
  lemma SubResolvesToOwner(attendees: seq<Attendee>, k: nat, sub: string, email: string, uuid: string)
    requires Unambiguous(attendees) && k < |attendees| && IsIdOf(sub, attendees[k])
    requires Resolves(attendees, sub, email, uuid)
    ensures attendees[k].idpUuid == Some(uuid)
  {
    AnswersIs(attendees[k], sub);
    var a :| a in attendees && Candidate(a, sub, email) && a.idpUuid.value == uuid
      && forall b :: b in attendees && Candidate(b, sub, email) ==> Rank(b, sub, email) <= Rank(a, sub, email);
    assert attendees[k] in attendees && Rank(attendees[k], sub, email) >= 2;
    var j :| 0 <= j < |attendees| && attendees[j] == a;
    assert Answers(attendees[j], sub);
  }

  // ----- the listing -----

  datatype Listed = Listed(connectionId: ConnId, userId: string, email: string, status: ConnState)
  datatype Info = Info(sent: seq<Listed>, received: seq<Listed>, connections: seq<Listed>)
  datatype Joined = Joined(id: ConnId, conn: Connection, other: Option<Attendee>)

  predicate Party(c: Connection, caller: CallerIdentity) { caller.Matches(c.requester) || caller.Matches(c.addressee) }

  function OtherId(c: Connection, caller: CallerIdentity): string {
    if caller.Matches(c.requester) then c.addressee else c.requester
  }

  /** Connection.OtherFor: no other side for someone who is no party. */
  function OtherFor(c: Connection, caller: CallerIdentity): Option<string> {
    if caller.Matches(c.requester) then Some(c.addressee)
    else if caller.Matches(c.addressee) then Some(c.requester)
    else None
  }

  /** It agrees with the CASE of the query exactly where the caller is a party. */
  lemma OtherForAgrees(c: Connection, caller: CallerIdentity)
    ensures OtherFor(c, caller) == if Party(c, caller) then Some(OtherId(c, caller)) else None
  {}

  function JoinedRow(id: ConnId, c: Connection, others: seq<Attendee>): seq<Joined> {
    if others == [] then [Joined(id, c, None)]
    else seq(|others|, k requires 0 <= k < |others| => Joined(id, c, Some(others[k])))
  }

  /** The rows of the LEFT JOIN, the connections being visited in `order`. */
  function Join(rows: Rows, attendees: seq<Attendee>, caller: CallerIdentity, order: seq<ConnId>): seq<Joined>
    requires forall id :: id in order ==> id in rows
  {
    if order == [] then []
    else
      var id := order[|order| - 1];
      Join(rows, attendees, caller, order[..|order| - 1])
      + if Party(rows[id], caller) then JoinedRow(id, rows[id], Answering(attendees, OtherId(rows[id], caller))) else []
  }

  datatype Bucket = Sent | Received | Connected

  function BucketFor(c: Connection, caller: CallerIdentity): Bucket {
    if c.state.Accepted? then Connected else if caller.Matches(c.requester) then Sent else Received
  }

  function Entry(j: Joined): Listed
    requires j.other.Some? && j.other.value.idpUuid.Some?
  {
    Listed(j.id, j.other.value.idpUuid.value, if j.conn.state.Accepted? then j.other.value.email else "", j.conn.state)
  }

  function InBucket(joined: seq<Joined>, caller: CallerIdentity, b: Bucket): seq<Listed> {
    if joined == [] then []
    else
      var before, j := InBucket(joined[..|joined| - 1], caller, b), joined[|joined| - 1];
      if j.other.Some? && j.other.value.idpUuid.Some? &&
        BucketFor(j.conn, caller) == b then before + [Entry(j)] else before
  }

  /** The loop of Get over the joined rows. */
  method Get(joined: seq<Joined>, caller: CallerIdentity) returns (info: Info)
    ensures info.sent == InBucket(joined, caller, Sent) && info.received == InBucket(joined, caller, Received)
    ensures info.connections == InBucket(joined, caller, Connected)
  {
    var sent, received, connections: seq<Listed> := [], [], [];
    for n := 0 to |joined|
      invariant sent == InBucket(joined[..n], caller, Sent)
      invariant received == InBucket(joined[..n], caller, Received)
      invariant connections == InBucket(joined[..n], caller, Connected)
    {
      assert joined[..n + 1][..n] == joined[..n];
      var j := joined[n];
      if j.other.None? || j.other.value.idpUuid.None? {
        continue;
      }
      var a := j.other.value;
      var email := if j.conn.state.Accepted? then a.email else "";
      var user := Listed(j.id, a.idpUuid.value, email, j.conn.state);
      if j.conn.state.Accepted? {
        connections := connections + [user];
      } else if caller.Matches(j.conn.requester) {
        sent := sent + [user];
      } else {
        received := received + [user];
      }
    }
    assert joined[..|joined|] == joined;
    info := Info(sent, received, connections);
  }

  // ----- what a caller sees of one row -----

  /** The entries of connection `id` among `listed`. */
  function EntriesOf(listed: seq<Listed>, id: ConnId): seq<Listed> {
    if listed == [] then []
    else
      var before, last := EntriesOf(listed[..|listed| - 1], id), listed[|listed| - 1];
      if last.connectionId == id then before + [last] else before
  }

  function ListedAs(id: ConnId, c: Connection, others: seq<Attendee>): seq<Listed>
    requires forall k :: 0 <= k < |others| ==> others[k].idpUuid.Some?
  {
    seq(|others|, k requires 0 <= k < |others| => Entry(Joined(id, c, Some(others[k]))))
  }

  lemma {:induction false} AnsweringClaimed(attendees: seq<Attendee>, id: string)
    ensures forall k :: 0 <= k < |Answering(attendees, id)| ==> Answering(attendees, id)[k].idpUuid.Some?
  {
    if attendees == [] {
    } else {
      AnsweringClaimed(attendees[..|attendees| - 1], id);
    }
  }

  lemma {:induction false} InBucketConcat(a: seq<Joined>, b: seq<Joined>, caller: CallerIdentity, bucket: Bucket)
    ensures InBucket(a + b, caller, bucket) == InBucket(a, caller, bucket) + InBucket(b, caller, bucket)
  {
    if b == [] {
      assert a + b == a;
    } else {
      assert (a + b)[..|a + b| - 1] == a + b[..|b| - 1];
      InBucketConcat(a, b[..|b| - 1], caller, bucket);
    }
  }

  lemma {:induction false} EntriesConcat(a: seq<Listed>, b: seq<Listed>, id: ConnId)
    ensures EntriesOf(a + b, id) == EntriesOf(a, id) + EntriesOf(b, id)
  {
    if b == [] {
      assert a + b == a;
    } else {
      assert (a + b)[..|a + b| - 1] == a + b[..|b| - 1];
      EntriesConcat(a, b[..|b| - 1], id);
    }
  }

  lemma {:induction false} BucketOfRun(js: seq<Joined>, id: ConnId, c: Connection, others: seq<Attendee>,
                                       caller: CallerIdentity, bucket: Bucket)
    requires |js| == |others| && forall k :: 0 <= k < |others| ==> others[k].idpUuid.Some?
    requires forall k :: 0 <= k < |js| ==> js[k] == Joined(id, c, Some(others[k]))
    ensures InBucket(js, caller, bucket) == if BucketFor(c, caller) == bucket then ListedAs(id, c, others) else []
  {
    if js == [] {
    } else {
      BucketOfRun(js[..|js| - 1], id, c, others[..|others| - 1], caller, bucket);
    }
  }

  lemma {:induction false} EntriesOfRun(id: ConnId, c: Connection, others: seq<Attendee>, wanted: ConnId)
    requires forall k :: 0 <= k < |others| ==> others[k].idpUuid.Some?
    ensures EntriesOf(ListedAs(id, c, others), wanted) == if id == wanted then ListedAs(id, c, others) else []
  {
    var all := ListedAs(id, c, others);
    if others == [] {
    } else {
      assert all[..|all| - 1] == ListedAs(id, c, others[..|others| - 1]);
      EntriesOfRun(id, c, others[..|others| - 1], wanted);
    }
  }

  /** One stored row adds its entries to one bucket and to no other. */
  lemma RowEntries(id: ConnId, c: Connection, attendees: seq<Attendee>, caller: CallerIdentity, bucket: Bucket,
                   wanted: ConnId)
    ensures var others := Answering(attendees, OtherId(c, caller));
      (forall k :: 0 <= k < |others| ==> others[k].idpUuid.Some?)
      && EntriesOf(InBucket(JoinedRow(id, c, others), caller, bucket), wanted)
         == if id == wanted && BucketFor(c, caller) == bucket then ListedAs(id, c, others) else []
  {
    var others := Answering(attendees, OtherId(c, caller));
    AnsweringClaimed(attendees, OtherId(c, caller));
    EntriesOfRun(id, c, others, wanted);
    if others != [] { BucketOfRun(JoinedRow(id, c, others), id, c, others, caller, bucket); }
  }

  ghost predicate Enumerates(order: seq<ConnId>, rows: Rows) {
    && (forall id :: id in order <==> id in rows)
    && (forall j, k :: 0 <= j < k < |order| ==> order[j] != order[k])
  }

  lemma {:induction false} EntriesInBucket(rows: Rows, attendees: seq<Attendee>, caller: CallerIdentity,
                                           order: seq<ConnId>, bucket: Bucket, id: ConnId)
    requires forall x :: x in order ==> x in rows
    requires forall j, k :: 0 <= j < k < |order| ==> order[j] != order[k]
    ensures EntriesOf(InBucket(Join(rows, attendees, caller, order), caller, bucket), id)
      == if id in order && Party(rows[id], caller) && BucketFor(rows[id], caller) == bucket
         then Shown(id, rows[id], attendees, caller) else []
  {
    if order == [] {
    } else {
      var init, last := order[..|order| - 1], order[|order| - 1];
      var before := Join(rows, attendees, caller, init);
      EntriesInBucket(rows, attendees, caller, init, bucket, id);
      assert order == init + [last] && last !in init;
      if Party(rows[last], caller) {
        var added := JoinedRow(last, rows[last], Answering(attendees, OtherId(rows[last], caller)));
        InBucketConcat(before, added, caller, bucket);
        EntriesConcat(InBucket(before, caller, bucket), InBucket(added, caller, bucket), id);
        RowEntries(last, rows[last], attendees, caller, bucket, id);
      } else {
        assert Join(rows, attendees, caller, order) == before;
      }
    }
  }

  /** What a party sees of a row: one entry for each attendee the other side's stored id leads to. */
  function Shown(id: ConnId, c: Connection, attendees: seq<Attendee>, caller: CallerIdentity): seq<Listed> {
    AnsweringClaimed(attendees, OtherId(c, caller));
    ListedAs(id, c, Answering(attendees, OtherId(c, caller)))
  }

  /** The whole answer of the route for one caller. */
  function View(rows: Rows, attendees: seq<Attendee>, caller: CallerIdentity, order: seq<ConnId>): Info
    requires forall x :: x in order ==> x in rows
  {
    var joined := Join(rows, attendees, caller, order);
    Info(InBucket(joined, caller, Sent), InBucket(joined, caller, Received), InBucket(joined, caller, Connected))
  }

  function EntriesIn(info: Info, b: Bucket, id: ConnId): seq<Listed> {
    EntriesOf(match b case Sent => info.sent case Received => info.received case Connected => info.connections, id)
  }

  /**
   * A stored row is listed once for a caller exactly when they are a party to it and the
   * other side's stored id leads to exactly one attendee; it is then in the right bucket only.
   */
  lemma ListedOnceIff(rows: Rows, attendees: seq<Attendee>, caller: CallerIdentity, order: seq<ConnId>, id: ConnId)
    requires Enumerates(order, rows) && id in rows
    ensures var view := View(rows, attendees, caller, order);
      && (|EntriesIn(view, BucketFor(rows[id], caller), id)| == 1 <==>
          Party(rows[id], caller) && LeadsToOne(attendees, OtherId(rows[id], caller)))
      && (forall b :: b != BucketFor(rows[id], caller) ==> EntriesIn(view, b, id) == [])
  {
    OneLeads(attendees, OtherId(rows[id], caller));
    forall b ensures EntriesIn(View(rows, attendees, caller, order), b, id)
      == if Party(rows[id], caller) && BucketFor(rows[id], caller) == b
         then Shown(id, rows[id], attendees, caller) else []
    {
      EntriesInBucket(rows, attendees, caller, order, b, id);
    }
  }

  /** `caller` sees row `id` exactly once, in `bucket`, as a row with `other`. */
  ghost predicate SeesOnce(view: Info, bucket: Bucket, id: ConnId, entry: Listed) {
    EntriesIn(view, bucket, id) == [entry] && forall b :: b != bucket ==> EntriesIn(view, b, id) == []
  }

  /**
   * Both sides see a stored pair, each exactly once: in opposite request lists while it is
   * pending, in both connection lists once accepted, with the address shown only then. The
   * row may be stored under any alias that leads to the party.
   */
  lemma BothSidesSeeIt(rows: Rows, attendees: seq<Attendee>, a: nat, b: nat, callerA: CallerIdentity,
                       callerB: CallerIdentity,
                       orderA: seq<ConnId>, orderB: seq<ConnId>, id: ConnId)
    requires Enumerates(orderA, rows) && Enumerates(orderB, rows) && id in rows
    requires Unambiguous(attendees) && a < |attendees| && b < |attendees|
    requires forall x :: !(callerA.Matches(x) && callerB.Matches(x))
    requires callerA.Matches(rows[id].requester) && IsIdOf(rows[id].requester, attendees[a])
    requires callerB.Matches(rows[id].addressee) && IsIdOf(rows[id].addressee, attendees[b])
    ensures var shared := rows[id].state.Accepted?;
      && SeesOnce(View(rows, attendees, callerA, orderA), if shared then Connected else Sent, id,
           Listed(id, attendees[b].idpUuid.value, if shared then attendees[b].email else "", rows[id].state))
      && SeesOnce(View(rows, attendees, callerB, orderB), if shared then Connected else Received, id,
           Listed(id, attendees[a].idpUuid.value, if shared then attendees[a].email else "", rows[id].state))
  {
    AnswersIs(attendees[a], rows[id].requester);
    AnswersIs(attendees[b], rows[id].addressee);
    OneAnswers(attendees, rows[id].addressee, b);
    OneAnswers(attendees, rows[id].requester, a);
    SeenAs(rows, attendees, callerA, orderA, id, b);
    SeenAs(rows, attendees, callerB, orderB, id, a);
  }

  lemma SeenAs(rows: Rows, attendees: seq<Attendee>, caller: CallerIdentity, order: seq<ConnId>, id: ConnId, k: nat)
    requires Enumerates(order, rows) && id in rows && Party(rows[id], caller)
    requires k < |attendees| && attendees[k].idpUuid.Some?
    requires Answering(attendees, OtherId(rows[id], caller)) == [attendees[k]]
    ensures SeesOnce(View(rows, attendees, caller, order), BucketFor(rows[id], caller), id,
      Entry(Joined(id, rows[id], Some(attendees[k]))))
  {
    forall b ensures EntriesIn(View(rows, attendees, caller, order), b, id)
      == if BucketFor(rows[id], caller) == b then Shown(id, rows[id], attendees, caller) else []
    {
      EntriesInBucket(rows, attendees, caller, order, b, id);
    }
  }

  /** The attendee an identity was resolved to. */
  lemma ResolvedAttendee(attendees: seq<Attendee>, sub: string, email: string, uuid: string) returns (k: nat)
    requires Resolves(attendees, sub, email, uuid)
    ensures k < |attendees| && attendees[k].idpUuid == Some(uuid)
  {
    var a :| a in attendees && Candidate(a, sub, email) && a.idpUuid.value == uuid;
    k :| 0 <= k < |attendees| && attendees[k] == a;
  }

  /** A new request, written between two resolved identities, is seen by both, however each was resolved. */
  lemma NewRequestsAreVisible(rows: Rows, attendees: seq<Attendee>,
                              subA: string, emailA: string, subB: string, emailB: string,
                              callerA: CallerIdentity, callerB: CallerIdentity,
                              orderA: seq<ConnId>, orderB: seq<ConnId>, id: ConnId)
    requires Enumerates(orderA, rows) && Enumerates(orderB, rows) && id in rows && Unambiguous(attendees)
    requires IdentityOf(attendees, subA, emailA, callerA) && IdentityOf(attendees, subB, emailB, callerB)
    requires forall x :: !(callerA.Matches(x) && callerB.Matches(x))
    requires callerA.canonical != "" && callerB.canonical != ""
    requires rows[id] == Connection(callerA.canonical, callerB.canonical, Pending)
    ensures SeesOnce(View(rows, attendees, callerA, orderA), Sent, id, Listed(id, callerB.canonical, "", Pending))
    ensures SeesOnce(View(rows, attendees, callerB, orderB), Received, id, Listed(id, callerA.canonical, "", Pending))
  {
    var a := ResolvedAttendee(attendees, subA, emailA, callerA.canonical);
    var b := ResolvedAttendee(attendees, subB, emailB, callerB.canonical);
    DistinctIs([callerA.canonical, subA, emailA]);
    DistinctIs([callerB.canonical, subB, emailB]);
    BothSidesSeeIt(rows, attendees, a, b, callerA, callerB, orderA, orderB, id);
  }
}
