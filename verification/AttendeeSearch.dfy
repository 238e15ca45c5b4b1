/** The attendee directory: filtered keyset pages, their cursors, and crawling them all. */
module AttendeeSearch {
  import opened Text

  datatype Attendee = Attendee(id: string, createdAt: int, idpUuid: Option<string>,
                               firstName: string, lastName: string, company: string, title: string)

  // ----- positions in the (created_at, id) index -----

  datatype Position = Position(createdAt: int, id: string)

  function PositionOf(a: Attendee): Position { Position(a.createdAt, a.id) }

  predicate Before(p: Position, q: Position) {
    p.createdAt < q.createdAt || (p.createdAt == q.createdAt && Less(p.id, q.id))
  }

  lemma BeforeTransitive(p: Position, q: Position, r: Position)
    requires Before(p, q) && Before(q, r)
    ensures Before(p, r)
  {
    if p.createdAt == q.createdAt == r.createdAt { LessTransitive(p.id, q.id, r.id); }
  }

  lemma BeforeIrreflexive(p: Position)
    ensures !Before(p, p)
  {
    LessIrreflexive(p.id);
  }

  /** Rows in the order of the index; no two rows share a position since ids are unique. */
  ghost predicate Ordered(rows: seq<Attendee>) {
    forall j, k :: 0 <= j < k < |rows| ==> Before(PositionOf(rows[j]), PositionOf(rows[k]))
  }

  // ----- cursors -----

  /**
   * The library codecs a cursor passes through: RFC 3339 time stamps with nanoseconds
   * (section 5.6) and base64url without padding (section 5 of RFC 4648).
   */
  datatype Codec = Codec(formatTime: int -> string, parseTime: string -> Option<int>,
                         toBase64: string -> string, fromBase64: string -> Option<string>)

  ghost predicate Lawful(c: Codec) {
    && (forall t :: c.parseTime(c.formatTime(t)) == Some(t) && '|' !in c.formatTime(t))
    && (forall s :: c.fromBase64(c.toBase64(s)) == Some(s))
    && c.toBase64("") == ""
  }

  predicate IsHex(c: char) { '0' <= c <= '9' || 'a' <= c <= 'f' || 'A' <= c <= 'F' }

  /** 8-4-4-4-12 hexadecimal digits. */
  predicate IsUuid(s: string) {
    |s| == 36 && forall i :: 0 <= i < 36 ==> if i in {8, 13, 18, 23} then s[i] == '-' else IsHex(s[i])
  }

  /** Five groups of 8, 4, 4, 4 and 12 hexadecimal digits with hyphens between them, and no other string. */
  lemma UuidShape(s: string)
    ensures IsUuid(s) <==> |s| == 36 && s[8] == s[13] == s[18] == s[23] == '-' && HexBetween(s)
  {
    var digits := "0123456789abcdefABCDEF";
    forall c ensures IsHex(c) <==> c in digits { HexDigits(c); }
  }

  predicate HexBetween(s: string) {
    forall i :: 0 <= i < |s| && i != 8 && i != 13 && i != 18 && i != 23 ==> s[i] in "0123456789abcdefABCDEF"
  }

  lemma HexDigits(c: char)
    ensures IsHex(c) <==> c in "0123456789abcdefABCDEF"
  {
    var digits := "0123456789abcdefABCDEF";
    if '0' <= c <= '9' { assert c == digits[c as int - 48]; }
    if 'a' <= c <= 'f' { assert c == digits[c as int - 87]; }
    if 'A' <= c <= 'F' { assert c == digits[c as int - 49]; }
  }

  function EncodeCursor(c: Codec, p: Position): string {
    c.toBase64(c.formatTime(p.createdAt) + ['|'] + p.id)
  }

  function DecodeCursor(c: Codec, cursor: string): Option<Position> {
    match c.fromBase64(cursor)
    case None => None
    case Some(raw) =>
      match Cut(raw, '|')
      case None => None
      case Some((time, id)) =>
        if !IsUuid(id) then None
        else match c.parseTime(time) case Some(t) => Some(Position(t, id)) case None => None
  }

  /** A cursor handed out decodes to the position it was made from, and is never the empty string. */
  lemma CursorRoundTrip(c: Codec, p: Position)
    requires Lawful(c) && IsUuid(p.id)
    ensures DecodeCursor(c, EncodeCursor(c, p)) == Some(p) && EncodeCursor(c, p) != ""
  {
    CutAtFirst(c.formatTime(p.createdAt), '|', p.id);
    assert c.fromBase64(c.toBase64("")) == Some("");
  }

  // ----- one page -----

  datatype Filter = Filter(limit: int, uuid: string, query: string, excluded: string)
  datatype Page = Page(items: seq<Attendee>, nextCursor: string)
  datatype SearchResult = Found(page: Page) | InvalidCursor

  const DEFAULT_LIMIT := 20
  const MAX_LIMIT := 100

  function PageSize(limit: int): (n: nat)
    ensures 1 <= n <= MAX_LIMIT
  {
    if limit <= 0 then DEFAULT_LIMIT else if limit > MAX_LIMIT then MAX_LIMIT else limit
  }

  function NormalQuery(f: Filter): string { ToLower(TrimSpace(f.query)) }

  predicate MatchesQuery(a: Attendee, q: string) {
    q == ""
    || Contains(ToLower(TrimSpace(a.firstName + " " + a.lastName)), q)
    || Contains(ToLower(a.company), q)
    || Contains(ToLower(a.title), q)
  }

  /** The WHERE clause: a known identity, not the caller's, the one asked for if any, past the cursor. */
  predicate Selected(f: Filter, after: Option<Position>, a: Attendee) {
    && a.idpUuid.Some? && a.idpUuid.value != f.excluded
    && (f.uuid == "" || a.idpUuid.value == f.uuid)
    && (after.Some? ==> Before(after.value, PositionOf(a)))
  }

  predicate Wanted(f: Filter, after: Option<Position>, a: Attendee) {
    Selected(f, after, a) && MatchesQuery(a, NormalQuery(f))
  }

  function Keep(rows: seq<Attendee>, p: Attendee -> bool): seq<Attendee> {
    if rows == [] then []
    else Keep(rows[..|rows| - 1], p) + if p(rows[|rows| - 1]) then [rows[|rows| - 1]] else []
  }

  lemma {:induction false} KeepMembers(rows: seq<Attendee>, p: Attendee -> bool, a: Attendee)
    ensures a in Keep(rows, p) <==> a in rows && p(a)
  {
    if rows == [] {
    } else {
      KeepMembers(rows[..|rows| - 1], p, a);
      assert rows == rows[..|rows| - 1] + [rows[|rows| - 1]];
    }
  }

  lemma {:induction false} KeepOrdered(rows: seq<Attendee>, p: Attendee -> bool)
    requires Ordered(rows)
    ensures Ordered(Keep(rows, p))
  {
    if rows == [] {
    } else {
      var init, last := rows[..|rows| - 1], rows[|rows| - 1];
      KeepOrdered(init, p);
      forall j | 0 <= j < |Keep(init, p)| ensures Before(PositionOf(Keep(init, p)[j]), PositionOf(last)) {
        KeepMembers(init, p, Keep(init, p)[j]);
      }
    }
  }

  lemma {:induction false} KeepTwice(rows: seq<Attendee>, p: Attendee -> bool, q: Attendee -> bool, r: Attendee -> bool)
    requires forall a :: r(a) <==> p(a) && q(a)
    ensures Keep(Keep(rows, p), q) == Keep(rows, r)
  {
    if rows == [] {
    } else {
      var init, last := rows[..|rows| - 1], rows[|rows| - 1];
      KeepTwice(init, p, q, r);
      assert r(last) <==> p(last) && q(last);
      if p(last) {
        var kept := Keep(init, p) + [last];
        assert kept[..|kept| - 1] == Keep(init, p) && kept[|kept| - 1] == last;
        assert Keep(kept, q) == Keep(rows, r);
      } else {
        assert Keep(rows, p) == Keep(init, p) && Keep(rows, r) == Keep(init, r);
      }
    }
  }

  lemma {:induction false} KeepAll(rows: seq<Attendee>, p: Attendee -> bool)
    requires forall a :: a in rows ==> p(a)
    ensures Keep(rows, p) == rows
  {
    if rows == [] {
    } else {
      KeepAll(rows[..|rows| - 1], p);
    }
  }

  lemma {:induction false} KeepGrows(rows: seq<Attendee>, n: nat, p: Attendee -> bool)
    requires n <= |rows|
    ensures Keep(rows[..n], p) <= Keep(rows, p)
    decreases |rows|
  {
    if n < |rows| {
      KeepGrows(rows[..|rows| - 1], n, p);
      assert rows[..|rows| - 1][..n] == rows[..n];
    } else {
      assert rows[..n] == rows;
    }
  }

  /** Every wanted row of the table past the cursor, in index order. */
  function Remaining(table: seq<Attendee>, f: Filter, after: Option<Position>): seq<Attendee> {
    Keep(table, a => Wanted(f, after, a))
  }

  /** A page is the first rows that are left, with a cursor exactly when more are left after them. */
  function PageOf(c: Codec, table: seq<Attendee>, f: Filter, after: Option<Position>): Page {
    FirstOf(c, Remaining(table, f, after), PageSize(f.limit))
  }

  function FirstOf(c: Codec, left: seq<Attendee>, n: nat): Page
    requires n >= 1
  {
    if |left| <= n then Page(left, "") else Page(left[..n], EncodeCursor(c, PositionOf(left[n - 1])))
  }

  class AttendeeProfileRepo {
    /** The attendees in the order of attendees_created_at_id_idx. */
    var attendees: seq<Attendee>

    /** SELECT ... WHERE ... ORDER BY created_at, id, with a LIMIT only when there is no text query. */
    function Query(f: Filter, after: Option<Position>, limit: Option<nat>): seq<Attendee>
      reads this
    {
      var rows := Keep(attendees, a => Selected(f, after, a));
      if limit.Some? && limit.value < |rows| then rows[..limit.value] else rows
    }

    /**
     * Search. Whether SQL bounds the rows or the scan stops early once the page is full,
     * the answer is the page of wanted rows; only an undecodable cursor is refused.
     */
    method Search(c: Codec, f: Filter, cursor: string) returns (r: SearchResult)
      ensures r.InvalidCursor? <==> cursor != "" && DecodeCursor(c, cursor).None?
      ensures r.Found? ==>
        r.page == PageOf(c, attendees, f, if cursor == "" then None else DecodeCursor(c, cursor))
    {
      var limit := PageSize(f.limit);
      var after: Option<Position> := None;
      if cursor != "" {
        after := DecodeCursor(c, cursor);
        if after.None? {
          return InvalidCursor;
        }
      }
      var q := NormalQuery(f);
      var rows := Query(f, after, if q == "" then Some(limit + 1) else None);
      var items, hasMore := FillPage(rows, q, limit);
      ScanIsPage(c, this, f, after);
      var nextCursor := "";
      if hasMore {
        nextCursor := EncodeCursor(c, PositionOf(items[|items| - 1]));
      }
      r := Found(Page(items, nextCursor));
    }

    /** The scan: keeps matching rows and stops at the first one beyond the page. */
    method FillPage(rows: seq<Attendee>, q: string, limit: nat) returns (items: seq<Attendee>, hasMore: bool)
      ensures var matching := Matching(rows, q);
        && (hasMore <==> |matching| > limit)
        && items == if |matching| > limit then matching[..limit] else matching
    {
      ghost var matches := (a: Attendee) => MatchesQuery(a, q);
      items, hasMore := [], false;
      for n := 0 to |rows|
        invariant items == Keep(rows[..n], matches) && |items| <= limit && !hasMore
      {
        assert rows[..n + 1][..n] == rows[..n];
        if MatchesQuery(rows[n], q) {
          if |items| == limit {
            hasMore := true;
            KeepGrows(rows, n + 1, matches);
            break;
          }
          items := items + [rows[n]];
        }
      }
      if !hasMore { assert rows[..|rows|] == rows; }
    }
  }

  function Matching(rows: seq<Attendee>, q: string): seq<Attendee> { Keep(rows, a => MatchesQuery(a, q)) }

  /** Whichever way the rows are read, filling a page from them gives the page of the whole table. */
  lemma ScanIsPage(c: Codec, repo: AttendeeProfileRepo, f: Filter, after: Option<Position>)
    ensures var q, n := NormalQuery(f), PageSize(f.limit);
      var found := Matching(repo.Query(f, after, if q == "" then Some(n + 1) else None), q);
      PageOf(c, repo.attendees, f, after)
      == if |found| > n then Page(found[..n], EncodeCursor(c, PositionOf(found[n - 1]))) else Page(found, "")
  {
    ScanFinds(repo, f, after, PageSize(f.limit));
    var left, n := Remaining(repo.attendees, f, after), PageSize(f.limit);
    if n + 1 < |left| { assert left[..n + 1][..n] == left[..n]; }
  }

  lemma FilterAfterSelect(rows: seq<Attendee>, f: Filter, after: Option<Position>)
    ensures Matching(Keep(rows, a => Selected(f, after, a)), NormalQuery(f)) == Remaining(rows, f, after)
  {
    var q := NormalQuery(f);
    KeepTwice(rows, a => Selected(f, after, a), a => MatchesQuery(a, q), a => Wanted(f, after, a));
  }

  lemma AllMatch(rows: seq<Attendee>)
    ensures Matching(rows, "") == rows
  {
    KeepAll(rows, a => MatchesQuery(a, ""));
  }

  /** Both ways of reading rows show the matching rows up to one past the page. */
  lemma ScanFinds(repo: AttendeeProfileRepo, f: Filter, after: Option<Position>, limit: nat)
    ensures var q := NormalQuery(f);
      var left := Remaining(repo.attendees, f, after);
      Matching(repo.Query(f, after, if q == "" then Some(limit + 1) else None), q)
      == if q == "" && limit + 1 < |left| then left[..limit + 1] else left
  {
    var q := NormalQuery(f);
    var all := Keep(repo.attendees, a => Selected(f, after, a));
    FilterAfterSelect(repo.attendees, f, after);
    if q == "" {
      AllMatch(all);
      if limit + 1 < |all| { AllMatch(all[..limit + 1]); }
    }
  }

  // ----- whom a search finds -----

  /** Some part of the text is the query without surrounding white space, letter case aside. */
  ghost predicate Mentions(text: string, query: string) {
    exists i, j :: 0 <= i <= j <= |text| && SameLetters(text[i..j], TrimSpace(query))
  }

  lemma ContainsIsMentions(text: string, query: string)
    ensures Contains(ToLower(text), ToLower(TrimSpace(query))) <==> Mentions(text, query)
  {
    var low, q := ToLower(text), ToLower(TrimSpace(query));
    ContainsExactly(low, q);
    if i :| OccursAt(low, q, i) {
      var part := text[i..i + |q|];
      assert ToLower(part) == low[i..i + |q|];
      CaseFolds(part, TrimSpace(query));
    }
    if i, j :| 0 <= i <= j <= |text| && SameLetters(text[i..j], TrimSpace(query)) {
      CaseFolds(text[i..j], TrimSpace(query));
      assert ToLower(text[i..j]) == low[i..j];
      assert OccursAt(low, q, i);
    }
  }

  /** A claimed attendee other than the caller, the one asked for if one is, whose name, company or title says so. */
  ghost predicate Findable(f: Filter, a: Attendee) {
    && a.idpUuid.Some? && a.idpUuid != Some(f.excluded) && (f.uuid != "" ==> a.idpUuid == Some(f.uuid))
    && (Blank(f.query) || Mentions(TrimSpace(a.firstName + " " + a.lastName), f.query) ||
        Mentions(a.company, f.query) || Mentions(a.title, f.query))
  }

  /** Later than the position, or as late with an id that comes after. */
  predicate Follows(a: Attendee, after: Option<Position>) {
    after == None || a.createdAt > after.value.createdAt
    || (a.createdAt == after.value.createdAt && Less(after.value.id, a.id))
  }

  lemma WantedIsFindable(f: Filter, after: Option<Position>, a: Attendee)
    ensures Wanted(f, after, a) <==> Findable(f, a) && Follows(a, after)
  {
    BlankIsEmpty(f.query);
    assert |NormalQuery(f)| == |TrimSpace(f.query)|;
    ContainsIsMentions(TrimSpace(a.firstName + " " + a.lastName), f.query);
    ContainsIsMentions(a.company, f.query);
    ContainsIsMentions(a.title, f.query);
  }

  /** The rows a page is cut from are exactly the findable attendees past the cursor, in the table's order. */
  lemma RemainingIsFindable(table: seq<Attendee>, f: Filter, after: Option<Position>)
    requires Ordered(table)
    ensures Ordered(Remaining(table, f, after))
    ensures forall a :: a in Remaining(table, f, after) <==> a in table && Findable(f, a) && Follows(a, after)
  {
    RemainingFacts(table, f, after);
    forall a ensures Wanted(f, after, a) <==> Findable(f, a) && Follows(a, after) { WantedIsFindable(f, after, a); }
  }

  /** A page holds 20 rows unless another number from 1 to 100 is asked for, fewer only when no more are left. */
  lemma PageIsFull(c: Codec, table: seq<Attendee>, f: Filter, after: Option<Position>)
    ensures var left, items := Remaining(table, f, after), PageOf(c, table, f, after).items;
      var most := if f.limit < 1 then 20 else if f.limit > 100 then 100 else f.limit;
      items == left[..if |left| < most then |left| else most]
  {}

  // ----- crawling -----

  ghost predicate GoodTable(table: seq<Attendee>) {
    Ordered(table) && forall k :: 0 <= k < |table| ==> IsUuid(table[k].id)
  }

  /** The position a page leaves the crawl at. */
  function LastOf(page: Page): Position
    requires page.items != []
  {
    PositionOf(page.items[|page.items| - 1])
  }

  /**
   * `pages` are what a client gets that asks for the page after `cursor` and follows
   * nextCursor until it is empty, the table being `tables[k]` when page `k` is read.
   */
  ghost predicate Crawl(c: Codec, tables: seq<seq<Attendee>>, f: Filter, cursor: string, pages: seq<Page>)
    decreases |pages|
  {
    && |tables| == |pages| >= 1
    && (cursor == "" || DecodeCursor(c, cursor).Some?)
    && pages[0] == PageOf(c, tables[0], f, if cursor == "" then None else DecodeCursor(c, cursor))
    && if |pages| == 1 then pages[0].nextCursor == ""
       else pages[0].nextCursor != "" && Crawl(c, tables[1..], f, pages[0].nextCursor, pages[1..])
  }

  function Collected(pages: seq<Page>): seq<Attendee> {
    if pages == [] then [] else pages[0].items + Collected(pages[1..])
  }

  predicate Past(cursor: Option<Position>, a: Attendee) {
    cursor.Some? ==> Before(cursor.value, PositionOf(a))
  }

  function Start(c: Codec, cursor: string): Option<Position> {
    if cursor == "" then None else DecodeCursor(c, cursor)
  }

  lemma RemainingFacts(table: seq<Attendee>, f: Filter, after: Option<Position>)
    requires Ordered(table)
    ensures Ordered(Remaining(table, f, after))
    ensures forall a :: a in Remaining(table, f, after) <==> a in table && Wanted(f, after, a)
  {
    KeepOrdered(table, a => Wanted(f, after, a));
    forall a ensures a in Remaining(table, f, after) <==> a in table && Wanted(f, after, a) {
      KeepMembers(table, b => Wanted(f, after, b), a);
    }
  }

  lemma PageFacts(c: Codec, table: seq<Attendee>, f: Filter, after: Option<Position>)
    requires Lawful(c) && GoodTable(table)
    ensures var page := PageOf(c, table, f, after);
      && Ordered(page.items)
      && (forall k :: 0 <= k < |page.items| ==> page.items[k] in table && Wanted(f, after, page.items[k]))
      && (page.nextCursor != "" ==> page.items != [] && DecodeCursor(c, page.nextCursor) == Some(LastOf(page)))
      && (page.nextCursor == "" ==> page.items == Remaining(table, f, after))
  {
    var left, page := Remaining(table, f, after), PageOf(c, table, f, after);
    RemainingFacts(table, f, after);
    forall k | 0 <= k < |left| ensures left[k] in table && Wanted(f, after, left[k]) && IsUuid(left[k].id) {
      assert left[k] in left;
      var j :| 0 <= j < |table| && table[j] == left[k];
    }
    FirstOfFacts(c, left, PageSize(f.limit));
    assert forall k :: 0 <= k < |page.items| ==> page.items[k] == left[k];
  }

  lemma FirstOfFacts(c: Codec, left: seq<Attendee>, n: nat)
    requires Lawful(c) && n >= 1 && Ordered(left) && forall k :: 0 <= k < |left| ==> IsUuid(left[k].id)
    ensures var page := FirstOf(c, left, n);
      && page.items <= left && Ordered(page.items)
      && (page.nextCursor != "" ==> page.items != [] && DecodeCursor(c, page.nextCursor) == Some(LastOf(page)))
      && (page.nextCursor == "" ==> page.items == left)
  {
    if |left| > n { CursorRoundTrip(c, PositionOf(left[n - 1])); }
  }

  /** A crawl returns rows in strictly increasing (created_at, id) order, hence none twice. */
  lemma {:induction false} CrawlIncreases(c: Codec, tables: seq<seq<Attendee>>, f: Filter, cursor: string,
                                          pages: seq<Page>)
    requires Lawful(c) && Crawl(c, tables, f, cursor, pages)
    requires forall k :: 0 <= k < |tables| ==> GoodTable(tables[k])
    ensures Ordered(Collected(pages))
    ensures forall k :: 0 <= k < |Collected(pages)| ==> Past(Start(c, cursor), Collected(pages)[k])
    decreases |pages|
  {
    PageFacts(c, tables[0], f, Start(c, cursor));
    var head := pages[0].items;
    if |pages| == 1 {
      assert Collected(pages) == head;
    } else {
      var rest := Collected(pages[1..]);
      CrawlIncreases(c, tables[1..], f, pages[0].nextCursor, pages[1..]);
      forall k | 0 <= k < |rest| ensures Past(Start(c, cursor), rest[k])
        && forall j :: 0 <= j < |head| ==> Before(PositionOf(head[j]), PositionOf(rest[k]))
      {
        AfterPage(f, Start(c, cursor), head, rest[k]);
      }
    }
  }

  lemma AfterPage(f: Filter, after: Option<Position>, head: seq<Attendee>, a: Attendee)
    requires head != [] && Ordered(head) && Past(after, head[|head| - 1])
    requires Before(PositionOf(head[|head| - 1]), PositionOf(a))
    ensures Past(after, a) && forall j :: 0 <= j < |head| ==> Before(PositionOf(head[j]), PositionOf(a))
  {
    var last := PositionOf(head[|head| - 1]);
    if after.Some? { BeforeTransitive(after.value, last, PositionOf(a)); }
    forall j | 0 <= j < |head| ensures Before(PositionOf(head[j]), PositionOf(a)) {
      if j < |head| - 1 { BeforeTransitive(PositionOf(head[j]), last, PositionOf(a)); }
    }
  }

  /** At position `p` the table holds someone the search is for. */
  ghost predicate PresentAt(table: seq<Attendee>, f: Filter, p: Position) {
    exists a :: a in table && PositionOf(a) == p && Findable(f, a)
  }

  lemma WhoIsPresent(table: seq<Attendee>, f: Filter, p: Position) returns (a: Attendee)
    requires PresentAt(table, f, p)
    ensures a in table && PositionOf(a) == p && Wanted(f, None, a)
  {
    a :| a in table && PositionOf(a) == p && Findable(f, a);
    WantedIsFindable(f, None, a);
  }

  /**
   * Whatever is inserted, deleted or edited between the pages, an attendee present and
   * matching at every page is returned.
   */
  lemma {:induction false} CrawlMissesNobody(c: Codec, tables: seq<seq<Attendee>>, f: Filter, cursor: string,
                                             pages: seq<Page>, p: Position)
    requires Lawful(c) && Crawl(c, tables, f, cursor, pages)
    requires forall k :: 0 <= k < |tables| ==> GoodTable(tables[k]) && PresentAt(tables[k], f, p)
    requires Start(c, cursor).Some? ==> Before(Start(c, cursor).value, p)
    ensures exists j :: 0 <= j < |Collected(pages)| && PositionOf(Collected(pages)[j]) == p
    decreases |pages|
  {
    var after, head := Start(c, cursor), pages[0].items;
    var a := WhoIsPresent(tables[0], f, p);
    if a in head {
      var j :| 0 <= j < |head| && head[j] == a;
      assert Collected(pages)[j] == a;
    } else {
      NotOnPage(c, tables[0], f, after, a);
      CrawlMissesNobody(c, tables[1..], f, pages[0].nextCursor, pages[1..], p);
      var j :| 0 <= j < |Collected(pages[1..])| && PositionOf(Collected(pages[1..])[j]) == p;
      assert Collected(pages)[|head| + j] == Collected(pages[1..])[j];
    }
  }

  ghost predicate Read(tables: seq<seq<Attendee>>, f: Filter, a: Attendee) {
    Findable(f, a) && exists k :: 0 <= k < |tables| && a in tables[k]
  }

  /** A crawl returns nobody else: each row was in the table of its page and is someone the search is for. */
  lemma {:induction false} CrawlReturnsNobodyElse(c: Codec, tables: seq<seq<Attendee>>, f: Filter, cursor: string,
                                                  pages: seq<Page>)
    requires Lawful(c) && Crawl(c, tables, f, cursor, pages)
    requires forall k :: 0 <= k < |tables| ==> GoodTable(tables[k])
    ensures forall k :: 0 <= k < |Collected(pages)| ==> Read(tables, f, Collected(pages)[k])
    decreases |pages|
  {
    var head := pages[0].items;
    PageFacts(c, tables[0], f, Start(c, cursor));
    forall k | 0 <= k < |head| ensures Read(tables, f, head[k]) {
      WantedIsFindable(f, Start(c, cursor), head[k]);
    }
    if |pages| == 1 {
      assert Collected(pages) == head;
    } else {
      var rest := Collected(pages[1..]);
      CrawlReturnsNobodyElse(c, tables[1..], f, pages[0].nextCursor, pages[1..]);
      forall k | 0 <= k < |rest| ensures Read(tables, f, rest[k]) {
        var j :| 0 <= j < |tables[1..]| && rest[k] in tables[1..][j];
        assert rest[k] in tables[j + 1];
      }
    }
  }

  /** In one crawl, an attendee present and matching throughout appears exactly once. */
  lemma EveryoneExactlyOnce(c: Codec, tables: seq<seq<Attendee>>, f: Filter, pages: seq<Page>, p: Position)
    requires Lawful(c) && Crawl(c, tables, f, "", pages)
    requires forall k :: 0 <= k < |tables| ==> GoodTable(tables[k]) && PresentAt(tables[k], f, p)
    ensures OccursOnce(Collected(pages), p)
  {
    CrawlMissesNobody(c, tables, f, "", pages, p);
    CrawlIncreases(c, tables, f, "", pages);
    OrderedIsDistinct(Collected(pages));
    var j :| 0 <= j < |Collected(pages)| && PositionOf(Collected(pages)[j]) == p;
  }

  ghost predicate OccursOnce(rows: seq<Attendee>, p: Position) {
    && (exists j :: 0 <= j < |rows| && PositionOf(rows[j]) == p)
    && (forall i, j :: 0 <= i < j < |rows| ==> PositionOf(rows[i]) != PositionOf(rows[j]))
  }

  lemma OrderedIsDistinct(rows: seq<Attendee>)
    requires Ordered(rows)
    ensures forall i, j :: 0 <= i < j < |rows| ==> PositionOf(rows[i]) != PositionOf(rows[j])
  {
    forall i, j | 0 <= i < j < |rows| ensures PositionOf(rows[i]) != PositionOf(rows[j]) {
      BeforeIrreflexive(PositionOf(rows[j]));
    }
  }

  /** A wanted row past the cursor that a page does not show lies beyond the page's last row. */
  lemma NotOnPage(c: Codec, table: seq<Attendee>, f: Filter, after: Option<Position>, a: Attendee)
    requires Lawful(c) && GoodTable(table)
    requires a in table && Wanted(f, None, a) && Past(after, a) && a !in PageOf(c, table, f, after).items
    ensures var page := PageOf(c, table, f, after);
      page.nextCursor != "" && DecodeCursor(c, page.nextCursor).Some?
      && Before(DecodeCursor(c, page.nextCursor).value, PositionOf(a))
  {
    var left, n, page := Remaining(table, f, after), PageSize(f.limit), PageOf(c, table, f, after);
    RemainingFacts(table, f, after);
    PageFacts(c, table, f, after);
    var k :| 0 <= k < |left| && left[k] == a;
    assert forall j :: 0 <= j < |page.items| ==> page.items[j] == left[j] && page.items[j] in page.items;
  }

  /** On a table that does not change, the pages put together are the filtered table. */
  lemma {:induction false} CrawlOfFixedTable(c: Codec, table: seq<Attendee>, tables: seq<seq<Attendee>>, f: Filter,
                                             cursor: string, pages: seq<Page>)
    requires Lawful(c) && GoodTable(table) && Crawl(c, tables, f, cursor, pages)
    requires forall k :: 0 <= k < |tables| ==> tables[k] == table
    ensures Collected(pages) == Remaining(table, f, Start(c, cursor))
    decreases |pages|
  {
    var after := Start(c, cursor);
    PageFacts(c, table, f, after);
    if |pages| == 1 {
      assert Collected(pages) == pages[0].items;
    } else {
      CrawlOfFixedTable(c, table, tables[1..], f, pages[0].nextCursor, pages[1..]);
      var left, n := Remaining(table, f, after), PageSize(f.limit);
      RestOfTable(table, f, after, n);
      assert left == left[..n] + left[n..];
    }
  }

  /** What is left past the page is what is left past its last row. */
  lemma RestOfTable(table: seq<Attendee>, f: Filter, after: Option<Position>, n: nat)
    requires Ordered(table) && 1 <= n < |Remaining(table, f, after)|
    ensures Remaining(table, f, Some(PositionOf(Remaining(table, f, after)[n - 1]))) == Remaining(table, f, after)[n..]
  {
    var left := Remaining(table, f, after);
    var p := PositionOf(left[n - 1]);
    KeepOrdered(table, a => Wanted(f, after, a));
    forall a | Before(p, PositionOf(a)) ensures Past(after, a) {
      KeepMembers(table, b => Wanted(f, after, b), left[n - 1]);
      assert left[n - 1] in left;
      if after.Some? { BeforeTransitive(after.value, p, PositionOf(a)); }
    }
    KeepTwice(table, a => Wanted(f, after, a), a => Before(p, PositionOf(a)), a => Wanted(f, Some(p), a));
    KeepSuffix(left, n, p);
  }

  lemma {:induction false} KeepSuffix(rows: seq<Attendee>, n: nat, p: Position)
    requires Ordered(rows) && 1 <= n <= |rows| && p == PositionOf(rows[n - 1])
    ensures Keep(rows, a => Before(p, PositionOf(a))) == rows[n..]
    decreases |rows|
  {
    if n == |rows| {
      KeepNone(rows, p);
    } else {
      var init := rows[..|rows| - 1];
      KeepSuffix(init, n, p);
      assert rows[n..] == init[n..] + [rows[|rows| - 1]];
    }
  }

  lemma {:induction false} KeepNone(rows: seq<Attendee>, p: Position)
    requires forall k :: 0 <= k < |rows| ==> PositionOf(rows[k]) == p || Before(PositionOf(rows[k]), p)
    ensures Keep(rows, a => Before(p, PositionOf(a))) == []
  {
    if rows == [] {
    } else {
      KeepNone(rows[..|rows| - 1], p);
      var last := PositionOf(rows[|rows| - 1]);
      BeforeIrreflexive(p);
      if last != p && Before(p, last) { BeforeTransitive(p, last, p); }
    }
  }

  /** Pages of a crawl that is not over yet: each one hands out a cursor and is asked for with the one before. */
  ghost predicate Crawling(c: Codec, tables: seq<seq<Attendee>>, f: Filter, cursor: string, pages: seq<Page>)
    decreases |pages|
  {
    |tables| == |pages| &&
    (pages != [] ==>
      && (cursor == "" || DecodeCursor(c, cursor).Some?)
      && pages[0] == PageOf(c, tables[0], f, Start(c, cursor))
      && pages[0].nextCursor != ""
      && Crawling(c, tables[1..], f, pages[0].nextCursor, pages[1..]))
  }

  /** Each page of a crawl that goes on brings at least one row, past everything before it. */
  lemma {:induction false} CrawlingProgresses(c: Codec, tables: seq<seq<Attendee>>, f: Filter, cursor: string,
                                              pages: seq<Page>, universe: set<Position>)
    requires Lawful(c) && Crawling(c, tables, f, cursor, pages)
    requires forall k :: 0 <= k < |tables| ==> GoodTable(tables[k])
    requires forall k, a :: 0 <= k < |tables| && a in tables[k] ==> PositionOf(a) in universe
    requires cursor == "" || DecodeCursor(c, cursor).Some?
    ensures |pages| <= |PositionsPast(universe, Start(c, cursor))|
    decreases |pages|
  {
    if pages == [] {
    } else {
      var after, page := Start(c, cursor), pages[0];
      PageFacts(c, tables[0], f, after);
      CrawlingProgresses(c, tables[1..], f, page.nextCursor, pages[1..], universe);
      FewerPast(universe, after, LastOf(page));
    }
  }

  ghost function PositionsPast(universe: set<Position>, after: Option<Position>): set<Position> {
    set p | p in universe && (after.Some? ==> Before(after.value, p))
  }

  lemma FewerPast(universe: set<Position>, after: Option<Position>, last: Position)
    requires last in universe && (after.Some? ==> Before(after.value, last))
    ensures |PositionsPast(universe, Some(last))| < |PositionsPast(universe, after)|
  {
    var more, fewer := PositionsPast(universe, after), PositionsPast(universe, Some(last));
    forall p | p in fewer ensures p in more {
      if after.Some? { BeforeTransitive(after.value, last, p); }
    }
    BeforeIrreflexive(last);
    assert fewer <= more - {last};
    SubsetSize(fewer, more - {last});
  }

  lemma {:induction false} SubsetSize(a: set<Position>, b: set<Position>)
    requires a <= b
    ensures |a| <= |b|
    decreases |a|
  {
    if a == {} {
    } else {
      var p :| p in a;
      SubsetSize(a - {p}, b - {p});
    }
  }

  /**
   * A crawl must end: over tables that only ever hold finitely many positions, no crawl gets more
   * pages with a next cursor than there are positions, however the tables change in between.
   */
  lemma CrawlEnds(c: Codec, tables: seq<seq<Attendee>>, f: Filter, pages: seq<Page>, universe: set<Position>)
    requires Lawful(c) && Crawling(c, tables, f, "", pages)
    requires forall k :: 0 <= k < |tables| ==> GoodTable(tables[k])
    requires forall k, a :: 0 <= k < |tables| && a in tables[k] ==> PositionOf(a) in universe
    ensures |pages| <= |universe|
  {
    CrawlingProgresses(c, tables, f, "", pages, universe);
    assert PositionsPast(universe, None) == universe;
  }

  /** So the page after as many pages as there are positions is the last one. */
  lemma NextPageIsLast(c: Codec, tables: seq<seq<Attendee>>, f: Filter, pages: seq<Page>, universe: set<Position>,
                       table: seq<Attendee>)
    requires Lawful(c) && Crawling(c, tables, f, "", pages) && pages != [] && |pages| == |universe|
    requires forall k :: 0 <= k < |tables| ==> GoodTable(tables[k])
    requires forall k, a :: 0 <= k < |tables| && a in tables[k] ==> PositionOf(a) in universe
    requires GoodTable(table) && forall a :: a in table ==> PositionOf(a) in universe
    ensures var cursor := pages[|pages| - 1].nextCursor;
      DecodeCursor(c, cursor).Some? && PageOf(c, table, f, DecodeCursor(c, cursor)).nextCursor == ""
  {
    var cursor := pages[|pages| - 1].nextCursor;
    CrawlingOn(c, tables, f, "", pages, table);
    var page := PageOf(c, table, f, Start(c, cursor));
    if page.nextCursor != "" { CrawlEnds(c, tables + [table], f, pages + [page], universe); }
  }

  lemma {:induction false} CrawlingOn(c: Codec, tables: seq<seq<Attendee>>, f: Filter, cursor: string, pages: seq<Page>,
                                      table: seq<Attendee>)
    requires Lawful(c) && Crawling(c, tables, f, cursor, pages) && pages != []
    requires forall k :: 0 <= k < |tables| ==> GoodTable(tables[k])
    ensures var last := pages[|pages| - 1].nextCursor;
      last != "" && DecodeCursor(c, last).Some? &&
      var page := PageOf(c, table, f, Start(c, last));
      page.nextCursor != "" ==> Crawling(c, tables + [table], f, cursor, pages + [page])
    decreases |pages|
  {
    var last := pages[|pages| - 1].nextCursor;
    var page := PageOf(c, table, f, Start(c, last));
    if |pages| == 1 {
      PageFacts(c, tables[0], f, Start(c, cursor));
      CrawlingOne(c, table, f, last);
      CrawlingFrom(c, tables, f, cursor, pages, [table], [page]);
      assert tables == [tables[0]] && pages == [pages[0]];
    } else {
      var later, rest := tables[1..], pages[1..];
      assert rest[|rest| - 1] == pages[|pages| - 1];
      CrawlingOn(c, later, f, pages[0].nextCursor, rest, table);
      CrawlingFrom(c, tables, f, cursor, pages, later + [table], rest + [page]);
      assert tables + [table] == [tables[0]] + (later + [table]);
      assert pages + [page] == [pages[0]] + (rest + [page]);
    }
  }

  lemma CrawlingOne(c: Codec, table: seq<Attendee>, f: Filter, cursor: string)
    requires cursor == "" || DecodeCursor(c, cursor).Some?
    ensures var page := PageOf(c, table, f, Start(c, cursor));
      page.nextCursor != "" ==> Crawling(c, [table], f, cursor, [page])
  {
    var page := PageOf(c, table, f, Start(c, cursor));
    assert [page][1..] == [] && [table][1..] == [];
  }

  /** A first page and a crawl from its cursor are a crawl. */
  lemma CrawlingFrom(c: Codec, tables: seq<seq<Attendee>>, f: Filter, cursor: string, pages: seq<Page>,
                     later: seq<seq<Attendee>>, rest: seq<Page>)
    requires Crawling(c, tables, f, cursor, pages) && pages != []
    ensures Crawling(c, later, f, pages[0].nextCursor, rest) ==>
      Crawling(c, [tables[0]] + later, f, cursor, [pages[0]] + rest)
  {
    assert ([tables[0]] + later)[1..] == later && ([pages[0]] + rest)[1..] == rest;
  }
}
