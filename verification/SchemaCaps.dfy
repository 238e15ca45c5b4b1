/** The probe cache for optional columns and tables of a schema that others migrate. */
module SchemaCaps {
  import opened Numbers
  import opened Text

  datatype Object =
    | TopicId | TopicsTable
    | RoomColor | TrackColor
    | VenueName | VenueAddress
    | ActivitiesTable | ActivityHoursTable

  datatype Kind = Topic | Color | Venue | Activity

  /** The two booleans a capability reports; a single-fact capability leaves the second false. */
  datatype Answer = Answer(first: bool, second: bool)

  const DEGRADED := Answer(false, false)

  function First(kind: Kind): Object {
    match kind
    case Topic => TopicId
    case Color => RoomColor
    case Venue => VenueName
    case Activity => ActivitiesTable
  }

  function Second(kind: Kind): Object
    requires !kind.Topic?
  {
    match kind
    case Color => TrackColor
    case Venue => VenueAddress
    case Activity => ActivityHoursTable
  }

  /** What the schema really offers. */
  function Truth(kind: Kind, schema: set<Object>): Answer {
    match kind
    case Topic => Answer(TopicId in schema, false)
    case Activity => var both := ActivitiesTable in schema && ActivityHoursTable in schema; Answer(both, both)
    case _ => Answer(First(kind) in schema, Second(kind) in schema)
  }

  predicate Below(a: Answer, b: Answer) {
    (a.first ==> b.first) && (a.second ==> b.second)
  }

  // ----- the SQL built from an answer -----

  datatype Sql = Column(column: Object) | NullText | Literal(text: string) | Coalesce(terms: seq<Sql>)

  const COLOR_TOKEN_DEFAULT := "main"

  function ColorTokenExpr(room: bool, track: bool): Sql {
    if room && track then Coalesce([Column(RoomColor), Column(TrackColor), Literal(COLOR_TOKEN_DEFAULT)])
    else if room then Coalesce([Column(RoomColor), Literal(COLOR_TOKEN_DEFAULT)])
    else if track then Coalesce([Column(TrackColor), Literal(COLOR_TOKEN_DEFAULT)])
    else Literal(COLOR_TOKEN_DEFAULT)
  }

  function VenueExprs(name: bool, address: bool): (Sql, Sql) {
    (if name then Column(VenueName) else NullText, if address then Column(VenueAddress) else NullText)
  }

  /** The optional columns an expression names. */
  function Columns(e: Sql): set<Object> {
    match e
    case Column(c) => {c}
    case NullText => {}
    case Literal(_) => {}
    case Coalesce(terms) => ColumnsOfAll(terms)
  }

  function ColumnsOfAll(terms: seq<Sql>): set<Object> {
    if terms == [] then {} else Columns(terms[0]) + ColumnsOfAll(terms[1..])
  }

  /**
   * Everything optional that the SQL built from an answer names. A topic's name is joined from track_topics on
   * sessions.topic_id, and the activities are read from their two tables.
   */
  function Names(kind: Kind, a: Answer): set<Object> {
    match kind
    case Topic => if a.first then {TopicId, TopicsTable} else {}
    case Color => Columns(ColorTokenExpr(a.first, a.second))
    case Venue => var (name, address) := VenueExprs(a.first, a.second); Columns(name) + Columns(address)
    case Activity => if a.first then {ActivitiesTable, ActivityHoursTable} else {}
  }

  lemma ColorNames(room: bool, track: bool)
    ensures Columns(ColorTokenExpr(room, track)) ==
      (if room then {RoomColor} else {}) + (if track then {TrackColor} else {})
  {
    var fallback := Literal(COLOR_TOKEN_DEFAULT);
    ColumnsStep(fallback, []);
    ColumnsStep(Column(RoomColor), [fallback]);
    ColumnsStep(Column(TrackColor), [fallback]);
    ColumnsStep(Column(RoomColor), [Column(TrackColor), fallback]);
    assert [fallback] == [fallback] + [];
    assert [Column(RoomColor), fallback] == [Column(RoomColor)] + [fallback];
    assert [Column(TrackColor), fallback] == [Column(TrackColor)] + [fallback];
    assert [Column(RoomColor), Column(TrackColor), fallback] == [Column(RoomColor)] + [Column(TrackColor), fallback];
  }

  lemma ColumnsStep(term: Sql, rest: seq<Sql>)
    ensures ColumnsOfAll([term] + rest) == Columns(term) + ColumnsOfAll(rest)
  {
    assert ([term] + rest)[1..] == rest;
  }

  // ----- the protocol -----

  datatype Phase = Asked | Probing | ProbingSecond(first: bool) | Storing(found: Answer) | Answered(answer: Answer)

  datatype Call = Call(kind: Kind, failed: bool, phase: Phase)

  /** A kind is in the cache once resolved. */
  datatype State = State(schema: set<Object>, cache: map<Kind, Answer>, calls: map<nat, Call>)

  datatype Action =
    | Grow(added: set<Object>)
    | Ask(c: nat, kind: Kind)
    | Look(c: nat)
    | Probe(c: nat)
    | ProbeFails(c: nat)
    | Store(c: nat)

  predicate Probes(p: Phase) { p.Probing? || p.ProbingSecond? }

  predicate Enabled(s: State, a: Action) {
    match a
    case Grow(_) => true
    case Ask(c, _) => c !in s.calls
    case Look(c) => c in s.calls && s.calls[c].phase.Asked?
    case Probe(c) => c in s.calls && Probes(s.calls[c].phase) && (s.calls[c].kind.Topic? ==> s.calls[c].phase.Probing?)
    case ProbeFails(c) => c in s.calls && Probes(s.calls[c].phase)
    case Store(c) => c in s.calls && s.calls[c].phase.Storing?
  }

  function AfterFirst(kind: Kind, present: bool): Phase {
    if kind.Topic? then Storing(Answer(present, false))
    else if kind.Activity? && !present then Storing(DEGRADED)
    else ProbingSecond(present)
  }

  function AfterSecond(kind: Kind, first: bool, present: bool): Phase {
    if kind.Activity? then Storing(Answer(present, present)) else Storing(Answer(first, present))
  }

  function Do(s: State, a: Action): State
    requires Enabled(s, a)
  {
    match a
    case Grow(added) => s.(schema := s.schema + added)
    case Ask(c, kind) => s.(calls := s.calls[c := Call(kind, false, Asked)])
    case Look(c) =>
      var call := s.calls[c];
      s.(calls := s.calls[c := call.(phase := if call.kind in s.cache then Answered(s.cache[call.kind]) else Probing)])
    case Probe(c) =>
      var call := s.calls[c];
      var next := if call.phase.Probing? then AfterFirst(call.kind, First(call.kind) in s.schema)
                  else AfterSecond(call.kind, call.phase.first, Second(call.kind) in s.schema);
      s.(calls := s.calls[c := call.(phase := next)])
    case ProbeFails(c) => s.(calls := s.calls[c := s.calls[c].(failed := true, phase := Answered(DEGRADED))])
    case Store(c) =>
      var call := s.calls[c];
      s.(cache := s.cache[call.kind := call.phase.found],
         calls := s.calls[c := call.(phase := Answered(call.phase.found))])
  }

  // ----- the order of a request's steps -----

  /** Where a request may be after `p`, as hasTopicID and its siblings go. */
  predicate Continues(kind: Kind, p: Phase, p': Phase) {
    match p
    case Asked => p'.Probing? || p'.Answered?
    case Probing => p'.Storing? || p' == Answered(DEGRADED) || (p'.ProbingSecond? && !kind.Topic?)
    case ProbingSecond(_) => p'.Storing? || p' == Answered(DEGRADED)
    case Storing(found) => p' == Answered(found)
    case Answered(_) => false
  }

  /** Each step begins a request or takes one request on along the code, and is a failure only where a probe was. */
  lemma RequestsFollowTheCode(s: State, a: Action, c: nat)
    requires Inv(s) && Enabled(s, a)
    ensures c in s.calls ==> c in Do(s, a).calls && Do(s, a).calls[c].kind == s.calls[c].kind
    ensures c in s.calls && !a.Grow? && a.c == c ==>
      Continues(s.calls[c].kind, s.calls[c].phase, Do(s, a).calls[c].phase)
    ensures c in s.calls && (a.Grow? || a.c != c) ==> Do(s, a).calls[c] == s.calls[c]
    ensures c !in s.calls && c in Do(s, a).calls ==>
      a.Ask? && a.c == c && Do(s, a).calls[c] == Call(a.kind, false, Asked)
    ensures c in s.calls && Do(s, a).calls[c].failed != s.calls[c].failed ==>
      Probes(s.calls[c].phase) && Do(s, a).calls[c].phase == Answered(DEGRADED) && Do(s, a).cache == s.cache
  {
    if c in s.calls { assert CallSafe(s.calls[c], s.schema); }
  }

  // ----- safety: nothing is believed that is not there -----

  predicate Safe(kind: Kind, a: Answer, schema: set<Object>) {
    Below(a, Truth(kind, schema))
  }

  predicate CallSafe(call: Call, schema: set<Object>) {
    match call.phase
    case Asked => true
    case Probing => true
    case ProbingSecond(first) =>
      !call.kind.Topic? && (first ==> First(call.kind) in schema) && (call.kind.Activity? ==> first)
    case Storing(found) => Safe(call.kind, found, schema)
    case Answered(answer) => Safe(call.kind, answer, schema)
  }

  ghost predicate Inv(s: State) {
    (forall kind :: kind in s.cache ==> Safe(kind, s.cache[kind], s.schema)) &&
    (forall c :: c in s.calls ==> CallSafe(s.calls[c], s.schema))
  }

  ghost predicate Initial(s: State) { s.cache == map[] && s.calls == map[] }

  lemma StepKeepsInv(s: State, a: Action)
    requires Inv(s) && Enabled(s, a)
    ensures Inv(Do(s, a)) && s.schema <= Do(s, a).schema
  {
    var t := Do(s, a);
    forall c | c in t.calls
      ensures CallSafe(t.calls[c], t.schema)
    {
      if c in s.calls { assert CallSafe(s.calls[c], s.schema); }
    }
  }

  ghost predicate Possible(s: State, run: seq<Action>)
    decreases |run|
  {
    run == [] || (Enabled(s, run[0]) && Possible(Do(s, run[0]), run[1..]))
  }

  ghost function After(s: State, run: seq<Action>): State
    requires Possible(s, run)
    decreases |run|
  {
    if run == [] then s else After(Do(s, run[0]), run[1..])
  }

  lemma {:induction false} RunKeepsInv(s: State, run: seq<Action>)
    requires Inv(s) && Possible(s, run)
    ensures Inv(After(s, run))
    decreases |run|
  {
    if run == [] {
    } else {
      StepKeepsInv(s, run[0]);
      RunKeepsInv(Do(s, run[0]), run[1..]);
    }
  }

  /**
   * At any later moment of any run, the SQL built from an answer names only what exists; for topics,
   * which probe the column but also join track_topics, exactly when that table came with the column.
   */
  lemma QueriesNameWhatExists(start: State, run: seq<Action>, c: nat)
    requires Initial(start) && Possible(start, run)
    requires c in After(start, run).calls && After(start, run).calls[c].phase.Answered?
    ensures var t := After(start, run); var call := t.calls[c];
      Names(call.kind, call.phase.answer) <= t.schema <==>
      (call.kind.Topic? && call.phase.answer.first ==> TopicsTable in t.schema)
  {
    RunKeepsInv(start, run);
    var t := After(start, run);
    assert CallSafe(t.calls[c], t.schema);
    ColorNames(t.calls[c].phase.answer.first, t.calls[c].phase.answer.second);
    if t.calls[c].kind.Topic? && t.calls[c].phase.answer.first {
      assert TopicsTable in Names(Topic, t.calls[c].phase.answer);
    }
  }

  lemma FailureIsNotCached(s: State, a: Action, kind: Kind)
    requires Enabled(s, a)
    ensures a.ProbeFails? ==> Do(s, a).cache == s.cache && Do(s, a).calls[a.c].phase == Answered(DEGRADED)
    ensures kind in Do(s, a).cache && (kind in s.cache ==> s.cache[kind] != Do(s, a).cache[kind]) ==>
      a.Store? && s.calls[a.c].kind == kind && s.calls[a.c].phase.found == Do(s, a).cache[kind]
    ensures kind in s.cache ==> kind in Do(s, a).cache
  {}

  /** Some step of the run stores `found` for the kind. */
  ghost predicate StoredIn(s: State, run: seq<Action>, kind: Kind, found: Answer)
    requires Possible(s, run)
    decreases |run|
  {
    run != [] &&
    ((run[0].Store? && s.calls[run[0].c].kind == kind && s.calls[run[0].c].phase.found == found)
     || StoredIn(Do(s, run[0]), run[1..], kind, found))
  }

  lemma {:induction false} CacheChangesByStores(s: State, run: seq<Action>, kind: Kind)
    requires Possible(s, run)
    ensures kind in s.cache ==> kind in After(s, run).cache
    ensures kind in After(s, run).cache ==>
      (kind in s.cache && s.cache[kind] == After(s, run).cache[kind]) ||
        StoredIn(s, run, kind, After(s, run).cache[kind])
    decreases |run|
  {
    if run == [] {
    } else {
      FailureIsNotCached(s, run[0], kind);
      CacheChangesByStores(Do(s, run[0]), run[1..], kind);
    }
  }

  /**
   * In every run what is cached was found by a call whose probes were all answered, and nothing resolved is
   * forgotten; a failed probe leaves no trace but its own degraded answer.
   */
  lemma CacheHoldsOnlyFindings(start: State, run: seq<Action>, more: seq<Action>, kind: Kind)
    requires Initial(start) && Possible(start, run) && Possible(After(start, run), more)
    ensures kind in After(start, run).cache ==>
      StoredIn(start, run, kind, After(start, run).cache[kind]) && kind in After(After(start, run), more).cache
  {
    CacheChangesByStores(start, run, kind);
    CacheChangesByStores(After(start, run), more, kind);
  }

  // ----- under a fixed schema -----

  predicate CallExact(call: Call, schema: set<Object>) {
    match call.phase
    case Asked => true
    case Probing => true
    case ProbingSecond(first) =>
      !call.kind.Topic? && (first <==> First(call.kind) in schema) && (call.kind.Activity? ==> first)
    case Storing(found) => found == Truth(call.kind, schema)
    case Answered(answer) => call.failed || answer == Truth(call.kind, schema)
  }

  /** Nothing cached or in flight is out of date. */
  ghost predicate Settled(s: State) {
    (forall kind :: kind in s.cache ==> s.cache[kind] == Truth(kind, s.schema)) &&
    (forall c :: c in s.calls ==> CallExact(s.calls[c], s.schema))
  }

  ghost predicate NoGrowth(run: seq<Action>) { forall i :: 0 <= i < |run| ==> !run[i].Grow? }

  lemma SettledStep(s: State, a: Action)
    requires Settled(s) && Enabled(s, a) && !a.Grow?
    ensures Settled(Do(s, a)) && Do(s, a).schema == s.schema
  {
    var t := Do(s, a);
    forall c | c in t.calls
      ensures CallExact(t.calls[c], t.schema)
    {
      if c in s.calls { assert CallExact(s.calls[c], s.schema); }
    }
  }

  /** While the schema stands still, every answer but one whose own probe failed is the true one. */
  lemma {:induction false} FixedSchemaTellsTruth(s: State, run: seq<Action>)
    requires Settled(s) && Possible(s, run) && NoGrowth(run)
    ensures Settled(After(s, run)) && After(s, run).schema == s.schema
    decreases |run|
  {
    if run == [] {
    } else {
      SettledStep(s, run[0]);
      FixedSchemaTellsTruth(Do(s, run[0]), run[1..]);
    }
  }

  // ----- a slow probe can undo a resolved answer -----

  /** Two callers on a cold cache: the one that probed before the migration stores last. */
  lemma ResolvedYesCanRegress() returns (start: State, run: seq<Action>)
    ensures Initial(start) && Possible(start, run)
    ensures var t := After(start, run);
      t.schema == {TopicId, TopicsTable} && 1 in t.calls && t.calls[1].phase == Answered(Answer(true, false)) &&
      t.cache == map[Topic := DEGRADED]
  {
    start := State({}, map[], map[]);
    run := Then(start, [], Ask(0, Topic));
    run := Then(start, run, Look(0));
    run := Then(start, run, Probe(0));
    run := Then(start, run, Grow({TopicId, TopicsTable}));
    assert After(start, run).calls[0] == Call(Topic, false, Storing(DEGRADED));
    run := Then(start, run, Ask(1, Topic));
    run := Then(start, run, Look(1));
    run := Then(start, run, Probe(1));
    run := Then(start, run, Store(1));
    assert After(start, run).cache == map[Topic := Answer(true, false)];
    run := Then(start, run, Store(0));
  }

  lemma {:induction false} Then(start: State, run: seq<Action>, a: Action) returns (longer: seq<Action>)
    requires Possible(start, run) && Enabled(After(start, run), a)
    ensures longer == run + [a] && Possible(start, longer) && After(start, longer) == Do(After(start, run), a)
    decreases |run|
  {
    longer := run + [a];
    if run == [] {
    } else {
      var rest := Then(Do(start, run[0]), run[1..], a);
      assert longer[1..] == rest;
    }
  }

  // ----- one request alone -----

  /** What a request finds out from the cache and its probes' answers, None being a failed probe. */
  function Resolve(kind: Kind, cached: Option<Answer>, first: Option<bool>, second: Option<bool>): Option<Answer> {
    if cached.Some? then cached
    else match first
      case None => None
      case Some(f) =>
        match AfterFirst(kind, f)
        case Storing(found) => Some(found)
        case _ => if second.Some? then Some(AfterSecond(kind, f, second.value).found) else None
  }

  ghost predicate Honest(kind: Kind, schema: set<Object>, first: Option<bool>, second: Option<bool>) {
    (first.Some? ==> first.value == (First(kind) in schema)) &&
    (second.Some? && !kind.Topic? ==> second.value == (Second(kind) in schema))
  }

  function CachedAnswer(s: State, kind: Kind): Option<Answer> {
    if kind in s.cache then Some(s.cache[kind]) else None
  }

  /** Nothing but call `c` and the cache has changed. */
  ghost predicate OthersKept(s: State, t: State, c: nat) {
    t.schema == s.schema && forall d :: d in s.calls && d != c ==> d in t.calls && t.calls[d] == s.calls[d]
  }

  /** An undisturbed request is a run of the protocol that caches and answers exactly what it found out. */
  lemma SoloIsARun(s: State, c: nat, kind: Kind, first: Option<bool>, second: Option<bool>) returns (run: seq<Action>)
    requires c !in s.calls && Honest(kind, s.schema, first, second)
    ensures Possible(s, run) && NoGrowth(run) && c in After(s, run).calls && OthersKept(s, After(s, run), c)
    ensures var found := Resolve(kind, CachedAnswer(s, kind), first, second);
      After(s, run).cache == (if found.Some? then s.cache[kind := found.value] else s.cache) &&
      After(s, run).calls[c].phase == Answered(if found.Some? then found.value else DEGRADED)
  {
    run := Then(s, [], Ask(c, kind));
    run := Then(s, run, Look(c));
    if kind !in s.cache { run := SoloProbes(s, run, c, kind, first, second); }
  }

  lemma SoloProbes(s: State, asked: seq<Action>, c: nat, kind: Kind, first: Option<bool>, second: Option<bool>)
    returns (run: seq<Action>)
    requires Possible(s, asked) && c in After(s, asked).calls && After(s, asked).calls[c] == Call(kind, false, Probing)
    requires After(s, asked).cache == s.cache && After(s, asked).schema == s.schema
    requires kind !in s.cache && Honest(kind, s.schema, first, second)
    requires NoGrowth(asked) && OthersKept(s, After(s, asked), c)
    ensures Possible(s, run) && NoGrowth(run) && c in After(s, run).calls && OthersKept(s, After(s, run), c)
    ensures var found := Resolve(kind, None, first, second);
      After(s, run).cache == (if found.Some? then s.cache[kind := found.value] else s.cache) &&
      After(s, run).calls[c].phase == Answered(if found.Some? then found.value else DEGRADED)
  {
    if first.None? {
      run := Then(s, asked, ProbeFails(c));
    } else {
      run := Then(s, asked, Probe(c));
      if AfterFirst(kind, first.value).Storing? {
        run := Then(s, run, Store(c));
      } else {
        run := SoloSecond(s, run, c, kind, first.value, second);
      }
    }
  }

  lemma SoloSecond(s: State, asked: seq<Action>, c: nat, kind: Kind, first: bool, second: Option<bool>)
    returns (run: seq<Action>)
    requires Possible(s, asked) && c in After(s, asked).calls && !kind.Topic?
    requires After(s, asked).calls[c] == Call(kind, false, ProbingSecond(first))
    requires After(s, asked).cache == s.cache && (second.Some? ==> second.value == (Second(kind) in s.schema))
    requires NoGrowth(asked) && OthersKept(s, After(s, asked), c)
    ensures Possible(s, run) && NoGrowth(run) && c in After(s, run).calls && OthersKept(s, After(s, run), c)
    ensures After(s, run).cache ==
      if second.Some? then s.cache[kind := AfterSecond(kind, first, second.value).found] else s.cache
    ensures After(s, run).calls[c].phase ==
      Answered(if second.Some? then AfterSecond(kind, first, second.value).found else DEGRADED)
  {
    if second.None? {
      run := Then(s, asked, ProbeFails(c));
    } else {
      run := Then(s, asked, Probe(c));
      run := Then(s, run, Store(c));
    }
  }

  // ----- exactly when a resolved answer is lost -----

  predicate InFlightExact(call: Call, schema: set<Object>) {
    match call.phase
    case ProbingSecond(first) => first == (First(call.kind) in schema)
    case Storing(found) => found == Truth(call.kind, schema)
    case _ => true
  }

  ghost predicate InFlight(call: Call) { call.phase.ProbingSecond? || call.phase.Storing? }

  /** The schema grows only while no call is between its probe and its store. */
  ghost predicate QuietGrowth(s: State, run: seq<Action>)
    requires Possible(s, run)
    decreases |run|
  {
    run != [] ==>
      (run[0].Grow? ==> forall c :: c in s.calls ==> !InFlight(s.calls[c])) && QuietGrowth(Do(s, run[0]), run[1..])
  }

  ghost predicate AllExact(s: State) { forall c :: c in s.calls ==> InFlightExact(s.calls[c], s.schema) }

  ghost predicate KeepsAnswers(s: State, t: State) {
    forall kind :: kind in s.cache ==> kind in t.cache && Below(s.cache[kind], t.cache[kind])
  }

  lemma QuietStep(s: State, a: Action)
    requires Inv(s) && AllExact(s) && Enabled(s, a)
    requires a.Grow? ==> forall c :: c in s.calls ==> !InFlight(s.calls[c])
    ensures AllExact(Do(s, a)) && KeepsAnswers(s, Do(s, a))
  {
    var t := Do(s, a);
    forall c | c in t.calls ensures InFlightExact(t.calls[c], t.schema) {
      if c in s.calls { assert InFlightExact(s.calls[c], s.schema) && CallSafe(s.calls[c], s.schema); }
    }
  }

  lemma {:induction false} QuietRun(s: State, run: seq<Action>)
    requires Inv(s) && AllExact(s) && Possible(s, run) && QuietGrowth(s, run)
    ensures Inv(After(s, run)) && AllExact(After(s, run)) && KeepsAnswers(s, After(s, run))
    decreases |run|
  {
    if run == [] {
    } else {
      QuietStep(s, run[0]);
      StepKeepsInv(s, run[0]);
      QuietRun(Do(s, run[0]), run[1..]);
    }
  }

  /** In runs where no growth falls between a call's probe and its store, answers never go down. */
  lemma QuietGrowthKeepsAnswers(start: State, before: seq<Action>, run: seq<Action>)
    requires Initial(start) && Possible(start, before) && QuietGrowth(start, before)
    requires Possible(After(start, before), run) && QuietGrowth(After(start, before), run)
    ensures KeepsAnswers(After(start, before), After(After(start, before), run))
  {
    QuietRun(start, before);
    QuietRun(After(start, before), run);
  }

  /** Step `a` takes back a cached yes. */
  ghost predicate LosesYes(s: State, a: Action, kind: Kind) {
    Enabled(s, a) && kind in s.cache && !Below(s.cache[kind], Do(s, a).cache[kind])
  }

  /** In any run a cached yes is lost only to a store by a caller that probed before the schema grew. */
  lemma OnlyStaleStoresRegress(start: State, run: seq<Action>, a: Action, kind: Kind)
    requires Initial(start) && Possible(start, run) && LosesYes(After(start, run), a, kind)
    ensures var s := After(start, run);
      a.Store? && s.calls[a.c].kind == kind && s.calls[a.c].phase.found != Truth(kind, s.schema)
  {
    RunKeepsInv(start, run);
  }

  /** While the whole truth is cached, a store loses some of it if and only if its probe is out of date. */
  lemma StaleStoreLoses(start: State, run: seq<Action>, c: nat)
    requires Initial(start) && Possible(start, run) && Enabled(After(start, run), Store(c))
    requires var s := After(start, run); var kind := s.calls[c].kind;
      kind in s.cache && s.cache[kind] == Truth(kind, s.schema)
    ensures var s := After(start, run); var call := s.calls[c];
      LosesYes(s, Store(c), call.kind) <==> call.phase.found != Truth(call.kind, s.schema)
  {
    RunKeepsInv(start, run);
    var s := After(start, run);
    assert CallSafe(s.calls[c], s.schema);
  }

  /** From `s`, with the schema standing still, some continuation takes back a cached yes. */
  ghost predicate CanLose(s: State, kind: Kind) {
    exists rest: seq<Action>, a: Action :: NoGrowth(rest) && !a.Grow? && Possible(s, rest) &&
      LosesYes(After(s, rest), a, kind)
  }

  ghost predicate StaleCall(s: State, kind: Kind, c: nat) {
    c in s.calls && s.calls[c].kind == kind && !InFlightExact(s.calls[c], s.schema)
  }

  ghost predicate KindCurrent(s: State, kind: Kind) {
    && (kind in s.cache ==> s.cache[kind] == Truth(kind, s.schema))
    && forall c :: !StaleCall(s, kind, c)
  }

  lemma CurrentStep(s: State, a: Action, kind: Kind)
    requires Inv(s) && KindCurrent(s, kind) && Enabled(s, a) && !a.Grow?
    ensures KindCurrent(Do(s, a), kind) && !LosesYes(s, a, kind)
  {
    var t := Do(s, a);
    if a.Store? { assert !StaleCall(s, kind, a.c); }
    forall c ensures !StaleCall(t, kind, c) {
      assert !StaleCall(s, kind, c);
      if c in s.calls { assert CallSafe(s.calls[c], s.schema); }
    }
  }

  lemma {:induction false} CurrentRun(s: State, run: seq<Action>, kind: Kind)
    requires Inv(s) && KindCurrent(s, kind) && Possible(s, run) && NoGrowth(run)
    ensures Inv(After(s, run)) && KindCurrent(After(s, run), kind)
    decreases |run|
  {
    if run == [] {
    } else {
      StepKeepsInv(s, run[0]);
      CurrentStep(s, run[0], kind);
      CurrentRun(Do(s, run[0]), run[1..], kind);
    }
  }

  /** Any unresolved kind can be resolved to the truth without touching the calls under way. */
  lemma ResolveTruth(s: State, kind: Kind, c: nat) returns (run: seq<Action>)
    requires c in s.calls && (kind in s.cache ==> s.cache[kind] == Truth(kind, s.schema))
    ensures Possible(s, run) && NoGrowth(run) && After(s, run).schema == s.schema
    ensures kind in After(s, run).cache && After(s, run).cache[kind] == Truth(kind, s.schema)
    ensures c in After(s, run).calls && After(s, run).calls[c] == s.calls[c]
  {
    run := [];
    if kind !in s.cache {
      var d := Unused(s.calls.Keys);
      var second := if kind.Topic? then None else Some(Second(kind) in s.schema);
      run := SoloIsARun(s, d, kind, Some(First(kind) in s.schema), second);
    }
  }

  lemma StaleCallLoses(s: State, kind: Kind, c: nat)
    requires Inv(s) && StaleCall(s, kind, c) && (kind in s.cache ==> s.cache[kind] == Truth(kind, s.schema))
    ensures CanLose(s, kind)
  {
    var run := ResolveTruth(s, kind, c);
    assert CallSafe(s.calls[c], s.schema);
    if s.calls[c].phase.ProbingSecond? { run := Then(s, run, Probe(c)); }
    assert LosesYes(After(s, run), Store(c), kind);
  }

  /**
   * From any reachable state in which the kind is unresolved or resolved to the truth, a resolved yes can
   * still be lost if and only if some call of that kind has already probed and is out of date.
   */
  lemma LosesExactlyWhenStale(start: State, run: seq<Action>, kind: Kind)
    requires Initial(start) && Possible(start, run)
    requires var s := After(start, run); kind in s.cache ==> s.cache[kind] == Truth(kind, s.schema)
    ensures CanLose(After(start, run), kind) <==> exists c :: StaleCall(After(start, run), kind, c)
  {
    RunKeepsInv(start, run);
    var s := After(start, run);
    if c :| StaleCall(s, kind, c) {
      StaleCallLoses(s, kind, c);
    } else {
      forall rest: seq<Action>, a: Action | NoGrowth(rest) && !a.Grow? && Possible(s, rest)
        ensures !LosesYes(After(s, rest), a, kind)
      {
        CurrentRun(s, rest, kind);
        if Enabled(After(s, rest), a) { CurrentStep(After(s, rest), a, kind); }
      }
    }
  }

  // ----- the same from every reachable state -----

  predicate Pending(call: Call) { call.phase.Probing? || call.phase.ProbingSecond? || call.phase.Storing? }

  /** What a call past the cache will store if its remaining probes are answered and the schema stands still. */
  function WillStore(call: Call, schema: set<Object>): Answer
    requires Pending(call) && CallSafe(call, schema)
  {
    match call.phase
    case Probing => Truth(call.kind, schema)
    case ProbingSecond(first) => AfterSecond(call.kind, first, Second(call.kind) in schema).found
    case Storing(found) => found
  }

  /** Call `c` is on its way to store `a` for the kind. */
  ghost predicate Bound(s: State, kind: Kind, c: nat, a: Answer) {
    c in s.calls && s.calls[c].kind == kind && Pending(s.calls[c]) && CallSafe(s.calls[c], s.schema) &&
    WillStore(s.calls[c], s.schema) == a
  }

  /**
   * Some call on its way will store an answer not above the cached one, not above what another call on its
   * way will store, or, while the kind is unresolved, not the truth a new caller would store before it.
   */
  ghost predicate Losable(s: State, kind: Kind) {
    || (kind in s.cache && exists c, a :: Bound(s, kind, c, a) && !Below(s.cache[kind], a))
    || (exists c, d, a, b :: c != d && Bound(s, kind, c, a) && Bound(s, kind, d, b) && !Below(b, a))
    || (kind !in s.cache && exists c, a :: Bound(s, kind, c, a) && a != Truth(kind, s.schema))
  }

  lemma BoundIsSafe(s: State, kind: Kind, c: nat, a: Answer)
    requires Bound(s, kind, c, a)
    ensures Below(a, Truth(kind, s.schema))
  {}

  /** A step with the schema standing still keeps what each call is bound to store, or drops the call. */
  lemma BoundBefore(s: State, a: Action, kind: Kind, c: nat, x: Answer)
    requires Inv(s) && Enabled(s, a) && !a.Grow? && Bound(Do(s, a), kind, c, x)
    ensures Bound(s, kind, c, x) || (kind !in s.cache && x == Truth(kind, s.schema))
  {
    if c in s.calls { assert CallSafe(s.calls[c], s.schema); }
  }

  lemma StoreIsBound(s: State, c: nat)
    requires Inv(s) && Enabled(s, Store(c))
    ensures Bound(s, s.calls[c].kind, c, s.calls[c].phase.found)
  {
    assert CallSafe(s.calls[c], s.schema);
  }

  lemma UnlosableStep(s: State, a: Action, kind: Kind)
    requires Inv(s) && Enabled(s, a) && !a.Grow? && !Losable(s, kind)
    ensures !Losable(Do(s, a), kind) && !LosesYes(s, a, kind)
  {
    var t := Do(s, a);
    if a.Store? { StoreIsBound(s, a.c); }
    forall c, x | Bound(t, kind, c, x)
      ensures Bound(s, kind, c, x) || (kind !in s.cache && x == Truth(kind, s.schema))
    {
      BoundBefore(s, a, kind, c, x);
    }
    forall c, x | Bound(t, kind, c, x) ensures Below(x, Truth(kind, s.schema)) { BoundIsSafe(t, kind, c, x); }
    assert a.Store? ==> !Pending(t.calls[a.c]);
  }

  lemma {:induction false} UnlosableRun(s: State, run: seq<Action>, kind: Kind)
    requires Inv(s) && Possible(s, run) && NoGrowth(run) && !Losable(s, kind)
    ensures Inv(After(s, run)) && !Losable(After(s, run), kind)
    decreases |run|
  {
    if run == [] {
    } else {
      UnlosableStep(s, run[0], kind);
      StepKeepsInv(s, run[0]);
      UnlosableRun(Do(s, run[0]), run[1..], kind);
    }
  }

  /** Nothing but call `c` has changed, and the cache not at all. */
  ghost predicate OnlyMoved(s: State, t: State, c: nat) { OthersKept(s, t, c) && t.cache == s.cache }

  /** A call on its way gets ready to store what it is bound to, touching nothing else. */
  lemma GetsReady(start: State, asked: seq<Action>, kind: Kind, c: nat, a: Answer) returns (run: seq<Action>)
    requires Possible(start, asked) && NoGrowth(asked) && Bound(After(start, asked), kind, c, a)
    ensures Possible(start, run) && NoGrowth(run) && OnlyMoved(After(start, asked), After(start, run), c)
    ensures c in After(start, run).calls && After(start, run).calls[c].kind == kind
    ensures After(start, run).calls[c].phase == Storing(a)
  {
    run := asked;
    if After(start, run).calls[c].phase.Probing? { run := Then(start, run, Probe(c)); }
    if After(start, run).calls[c].phase.ProbingSecond? { run := Then(start, run, Probe(c)); }
  }

  lemma LossAgainstCache(s: State, run: seq<Action>, kind: Kind, c: nat, a: Answer)
    requires Possible(s, run) && NoGrowth(run) && Bound(After(s, run), kind, c, a)
    requires kind in After(s, run).cache && !Below(After(s, run).cache[kind], a)
    ensures CanLose(s, kind)
  {
    var ready := GetsReady(s, run, kind, c, a);
    assert LosesYes(After(s, ready), Store(c), kind);
  }

  lemma LossBetweenCalls(s: State, kind: Kind, c: nat, d: nat, a: Answer, b: Answer)
    requires c != d && Bound(s, kind, c, a) && Bound(s, kind, d, b) && !Below(b, a)
    ensures CanLose(s, kind)
  {
    assert After(s, []) == s;
    var run := GetsReady(s, [], kind, d, b);
    run := Then(s, run, Store(d));
    LossAgainstCache(s, run, kind, c, a);
  }

  lemma LossAfterTruth(s: State, kind: Kind, c: nat, a: Answer)
    requires kind !in s.cache && Bound(s, kind, c, a) && a != Truth(kind, s.schema)
    ensures CanLose(s, kind)
  {
    BoundIsSafe(s, kind, c, a);
    var run := ResolveTruth(s, kind, c);
    LossAgainstCache(s, run, kind, c, a);
  }

  /** From any reachable state, the schema standing still, a yes can be lost if and only if it is losable. */
  lemma LosesExactlyWhenLosable(start: State, run: seq<Action>, kind: Kind)
    requires Initial(start) && Possible(start, run)
    ensures CanLose(After(start, run), kind) <==> Losable(After(start, run), kind)
  {
    RunKeepsInv(start, run);
    var s := After(start, run);
    if Losable(s, kind) {
      if kind in s.cache && exists c, a :: Bound(s, kind, c, a) && !Below(s.cache[kind], a) {
        var c, a :| Bound(s, kind, c, a) && !Below(s.cache[kind], a);
        LossAgainstCache(s, [], kind, c, a);
      } else if c, d, a, b :| c != d && Bound(s, kind, c, a) && Bound(s, kind, d, b) && !Below(b, a) {
        LossBetweenCalls(s, kind, c, d, a, b);
      } else {
        var c, a :| Bound(s, kind, c, a) && a != Truth(kind, s.schema);
        LossAfterTruth(s, kind, c, a);
      }
    } else {
      forall rest: seq<Action>, a: Action | NoGrowth(rest) && !a.Grow? && Possible(s, rest)
        ensures !LosesYes(After(s, rest), a, kind)
      {
        UnlosableRun(s, rest, kind);
        if Enabled(After(s, rest), a) { UnlosableStep(After(s, rest), a, kind); }
      }
    }
  }

  // ----- what the topic probe does not see -----

  /** A schema with the column and without the table: the topic query of the first request fails. */
  lemma TopicQueryCanFail(schema: set<Object>) returns (start: State, run: seq<Action>)
    requires TopicId in schema && TopicsTable !in schema
    ensures Initial(start) && start.schema == schema && Possible(start, run) && NoGrowth(run)
    ensures var t := After(start, run);
      0 in t.calls && t.calls[0].phase.Answered? && !(Names(Topic, t.calls[0].phase.answer) <= t.schema)
  {
    start := State(schema, map[], map[]);
    run := SoloIsARun(start, 0, Topic, Some(true), None);
    assert TopicsTable in Names(Topic, After(start, run).calls[0].phase.answer);
  }

  // ----- one request alone, on the repository's own fields -----

  /** What a probe for an object reports, None when it fails. */
  function ProbeOf(schema: set<Object>, o: Object, answered: bool): Option<bool> {
    if answered then Some(o in schema) else None
  }

  lemma ProbesAreHonest(kind: Kind, schema: set<Object>, firstAnswered: bool, secondAnswered: bool)
    ensures Honest(kind, schema, ProbeOf(schema, First(kind), firstAnswered),
                   if kind.Topic? then None else ProbeOf(schema, Second(kind), secondAnswered))
  {}

  /** A request left alone caches and answers what the schema and its probes' failures make of it. */
  lemma ProbesAreARun(s: State, c: nat, kind: Kind, firstAnswered: bool, secondAnswered: bool)
    returns (run: seq<Action>)
    requires c !in s.calls
    ensures Possible(s, run) && NoGrowth(run) && c in After(s, run).calls && OthersKept(s, After(s, run), c)
    ensures var first := ProbeOf(s.schema, First(kind), firstAnswered);
      var second := if kind.Topic? then None else ProbeOf(s.schema, Second(kind), secondAnswered);
      var found := Resolve(kind, CachedAnswer(s, kind), first, second);
      After(s, run).cache == (if found.Some? then s.cache[kind := found.value] else s.cache) &&
      After(s, run).calls[c].phase == Answered(if found.Some? then found.value else DEGRADED)
  {
    ProbesAreHonest(kind, s.schema, firstAnswered, secondAnswered);
    run := SoloIsARun(s, c, kind, ProbeOf(s.schema, First(kind), firstAnswered),
                      if kind.Topic? then None else ProbeOf(s.schema, Second(kind), secondAnswered));
  }

  /** The cache as the repository keeps it. */
  class Capabilities {
    var resolved: bool
    var hasTopics: bool
    var colorResolved: bool
    var hasRoomColorToken: bool
    var hasTrackColorToken: bool
    var venueResolved: bool
    var hasVenueName: bool
    var hasVenueAddress: bool
    var activityTablesResolved: bool
    var hasActivityTables: bool

    ghost function Cached(kind: Kind): Option<Answer>
      reads this
    {
      match kind
      case Topic => if resolved then Some(Answer(hasTopics, false)) else None
      case Color => if colorResolved then Some(Answer(hasRoomColorToken, hasTrackColorToken)) else None
      case Venue => if venueResolved then Some(Answer(hasVenueName, hasVenueAddress)) else None
      case Activity => if activityTablesResolved then Some(Answer(hasActivityTables, hasActivityTables)) else None
    }

    method HasTopicId(schema: set<Object>, answered: bool) returns (present: bool)
      modifies this
      ensures Cached(Topic) == Resolve(Topic, old(Cached(Topic)), ProbeOf(schema, TopicId, answered), None)
      ensures resolved == (old(resolved) || answered)
      ensures present == if old(resolved) then old(hasTopics) else answered && TopicId in schema
      ensures resolved ==> hasTopics == present
      ensures forall kind :: kind != Topic ==> Cached(kind) == old(Cached(kind))
    {
      if resolved { return hasTopics; }
      if !answered { return false; }
      present := TopicId in schema;
      resolved, hasTopics := true, present;
    }

    /** `roomAnswered` and `trackAnswered` say which probes come back without an error. */
    method ColorTokenColumns(schema: set<Object>, roomAnswered: bool, trackAnswered: bool)
      returns (room: bool, track: bool)
      modifies this
      ensures Cached(Color) == Resolve(Color, old(Cached(Color)), ProbeOf(schema, RoomColor, roomAnswered),
                                       ProbeOf(schema, TrackColor, trackAnswered))
      ensures colorResolved == (old(colorResolved) || (roomAnswered && trackAnswered))
      ensures old(colorResolved) ==> room == old(hasRoomColorToken) && track == old(hasTrackColorToken)
      ensures !old(colorResolved) ==>
        room == (colorResolved && RoomColor in schema) && track == (colorResolved && TrackColor in schema)
      ensures colorResolved ==> hasRoomColorToken == room && hasTrackColorToken == track
      ensures forall kind :: kind != Color ==> Cached(kind) == old(Cached(kind))
    {
      if colorResolved { return hasRoomColorToken, hasTrackColorToken; }
      if !roomAnswered || !trackAnswered { return false, false; }
      room, track := RoomColor in schema, TrackColor in schema;
      colorResolved, hasRoomColorToken, hasTrackColorToken := true, room, track;
    }

    method VenueColumns(schema: set<Object>, nameAnswered: bool, addressAnswered: bool)
      returns (name: bool, address: bool)
      modifies this
      ensures Cached(Venue) == Resolve(Venue, old(Cached(Venue)), ProbeOf(schema, VenueName, nameAnswered),
                                       ProbeOf(schema, VenueAddress, addressAnswered))
      ensures venueResolved == (old(venueResolved) || (nameAnswered && addressAnswered))
      ensures old(venueResolved) ==> name == old(hasVenueName) && address == old(hasVenueAddress)
      ensures !old(venueResolved) ==>
        name == (venueResolved && VenueName in schema) && address == (venueResolved && VenueAddress in schema)
      ensures venueResolved ==> hasVenueName == name && hasVenueAddress == address
      ensures forall kind :: kind != Venue ==> Cached(kind) == old(Cached(kind))
    {
      if venueResolved { return hasVenueName, hasVenueAddress; }
      if !nameAnswered || !addressAnswered { return false, false; }
      name, address := VenueName in schema, VenueAddress in schema;
      venueResolved, hasVenueName, hasVenueAddress := true, name, address;
    }

    /** The second probe is skipped when the first table is missing. */
    method ActivityTables(schema: set<Object>, firstAnswered: bool, secondAnswered: bool) returns (present: bool)
      modifies this
      ensures Cached(Activity) == Resolve(Activity, old(Cached(Activity)),
                                          ProbeOf(schema, ActivitiesTable, firstAnswered),
                                          ProbeOf(schema, ActivityHoursTable, secondAnswered))
      ensures activityTablesResolved ==
        (old(activityTablesResolved) || (firstAnswered && (ActivitiesTable in schema ==> secondAnswered)))
      ensures old(activityTablesResolved) ==> present == old(hasActivityTables)
      ensures !old(activityTablesResolved) ==>
        present == (activityTablesResolved && {ActivitiesTable, ActivityHoursTable} <= schema)
      ensures activityTablesResolved ==> hasActivityTables == present
      ensures forall kind :: kind != Activity ==> Cached(kind) == old(Cached(kind))
    {
      if activityTablesResolved { return hasActivityTables; }
      if !firstAnswered { return false; }
      present := ActivitiesTable in schema;
      if present {
        if !secondAnswered { return false; }
        present := ActivityHoursTable in schema;
      }
      activityTablesResolved, hasActivityTables := true, present;
    }
  }

  // ----- what the SQL evaluates to -----

  /** The optional columns a row has, each NULL or a text. */
  type Fields = map<Object, Option<string>>

  /** None when the expression names a column the database lacks, which fails the whole query. */
  function Eval(e: Sql, row: Fields): Option<Option<string>> {
    match e
    case Column(c) => if c in row then Some(row[c]) else None
    case NullText => Some(None)
    case Literal(text) => Some(Some(text))
    case Coalesce(terms) => EvalCoalesce(terms, row)
  }

  function EvalCoalesce(terms: seq<Sql>, row: Fields): Option<Option<string>> {
    if terms == [] then Some(None)
    else match (Eval(terms[0], row), EvalCoalesce(terms[1..], row))
      case (Some(v), Some(rest)) => Some(if v.Some? then v else rest)
      case (_, _) => None
  }

  /** The column's value, reading an absent column as NULL. */
  function OrNull(row: Fields, c: Object): Option<string> {
    if c in row then row[c] else None
  }

  /** Room before track before the default. */
  function TokenOf(room: Option<string>, track: Option<string>): string {
    match (room, track)
    case (Some(token), _) => token
    case (None, Some(token)) => token
    case (None, None) => "main"
  }

  /**
   * The colour query runs exactly when it names no absent column, and then yields the token of the full
   * precedence with the columns left out read as NULL.
   */
  lemma ColorTokenMeans(room: bool, track: bool, row: Fields)
    ensures var v := Eval(ColorTokenExpr(room, track), row);
      v.Some? <==> (room ==> RoomColor in row) && (track ==> TrackColor in row)
    ensures var v := Eval(ColorTokenExpr(room, track), row);
      v.Some? ==>
        v.value == Some(TokenOf(if room then row[RoomColor] else None, if track then row[TrackColor] else None))
    ensures room == (RoomColor in row) && track == (TrackColor in row) ==>
      Eval(ColorTokenExpr(room, track), row) == Some(Some(TokenOf(OrNull(row, RoomColor), OrNull(row, TrackColor))))
  {
    var fallback := Literal(COLOR_TOKEN_DEFAULT);
    CoalesceStep(fallback, [], row);
    CoalesceStep(Column(RoomColor), [fallback], row);
    CoalesceStep(Column(TrackColor), [fallback], row);
    CoalesceStep(Column(RoomColor), [Column(TrackColor), fallback], row);
    assert [fallback] == [fallback] + [];
    assert [Column(RoomColor), fallback] == [Column(RoomColor)] + [fallback];
    assert [Column(TrackColor), fallback] == [Column(TrackColor)] + [fallback];
    assert [Column(RoomColor), Column(TrackColor), fallback] == [Column(RoomColor)] + [Column(TrackColor), fallback];
  }

  lemma CoalesceStep(term: Sql, rest: seq<Sql>, row: Fields)
    ensures EvalCoalesce([term] + rest, row) ==
      match (Eval(term, row), EvalCoalesce(rest, row))
      case (Some(v), Some(w)) => Some(if v.Some? then v else w)
      case (_, _) => None
  {
    assert ([term] + rest)[1..] == rest;
  }

  /** The colour and venue queries run on exactly the rows that have the columns named of them. */
  lemma QueriesRunOnWhatTheyName(a: Answer, row: Fields)
    ensures Names(Color, a) <= row.Keys <==> Eval(ColorTokenExpr(a.first, a.second), row).Some?
    ensures Names(Venue, a) <= row.Keys <==>
      Eval(VenueExprs(a.first, a.second).0, row).Some? && Eval(VenueExprs(a.first, a.second).1, row).Some?
    ensures Names(Topic, a) == if a.first then {TopicId, TopicsTable} else {}
    ensures Names(Activity, a) == if a.first then {ActivitiesTable, ActivityHoursTable} else {}
  {
    ColorNames(a.first, a.second);
    ColorTokenMeans(a.first, a.second, row);
    VenueMeans(a.first, a.second, row);
  }

  /** The two venue expressions, likewise. */
  lemma VenueMeans(name: bool, address: bool, row: Fields)
    ensures var (n, a) := VenueExprs(name, address);
      && (Eval(n, row).Some? <==> (name ==> VenueName in row))
      && (Eval(a, row).Some? <==> (address ==> VenueAddress in row))
    ensures Below(Answer(name, address), Answer(VenueName in row, VenueAddress in row)) ==>
      var (n, a) := VenueExprs(name, address);
      Eval(n, row) == Some(if name then row[VenueName] else None) &&
      Eval(a, row) == Some(if address then row[VenueAddress] else None)
    ensures name == (VenueName in row) && address == (VenueAddress in row) ==>
      Eval(VenueExprs(name, address).0, row) == Some(OrNull(row, VenueName)) &&
      Eval(VenueExprs(name, address).1, row) == Some(OrNull(row, VenueAddress))
  {}

  /** A row as the schema has it: it holds those of the columns that are there. */
  ghost predicate RowOf(row: Fields, schema: set<Object>, columns: set<Object>) {
    forall o :: o in columns ==> (o in row <==> o in schema)
  }

  ghost predicate Carries(row: Fields, schema: set<Object>, columns: set<Object>) {
    forall o :: o in columns && o in schema ==> o in row
  }

  ghost predicate Answers(s: State, c: nat, kind: Kind) {
    c in s.calls && s.calls[c].kind == kind && s.calls[c].phase.Answered?
  }

  /** In any run the colour query succeeds on every row of the schema it is issued against. */
  lemma ColorQueryNeverFails(start: State, run: seq<Action>, c: nat, row: Fields)
    requires Initial(start) && Possible(start, run) && Answers(After(start, run), c, Color)
    requires Carries(row, After(start, run).schema, {RoomColor, TrackColor})
    ensures var answer := After(start, run).calls[c].phase.answer;
      Eval(ColorTokenExpr(answer.first, answer.second), row).Some?
  {
    RunKeepsInv(start, run);
    var t := After(start, run);
    assert CallSafe(t.calls[c], t.schema);
    ColorTokenMeans(t.calls[c].phase.answer.first, t.calls[c].phase.answer.second, row);
  }

  /** And while the schema stands still a caller whose probes were answered reads room before track before "main". */
  lemma ColorsAreServed(start: State, run: seq<Action>, c: nat, row: Fields)
    requires Initial(start) && Possible(start, run) && NoGrowth(run) && Answers(After(start, run), c, Color)
    requires !After(start, run).calls[c].failed && RowOf(row, start.schema, {RoomColor, TrackColor})
    ensures var answer := After(start, run).calls[c].phase.answer;
      Eval(ColorTokenExpr(answer.first, answer.second), row) ==
        Some(Some(TokenOf(OrNull(row, RoomColor), OrNull(row, TrackColor))))
  {
    FixedSchemaTellsTruth(start, run);
    var t := After(start, run);
    assert CallExact(t.calls[c], t.schema);
    ColorTokenMeans(t.calls[c].phase.answer.first, t.calls[c].phase.answer.second, row);
  }

  /** In any run the venue query succeeds on every row of the schema it is issued against. */
  lemma VenueQueryNeverFails(start: State, run: seq<Action>, c: nat, row: Fields)
    requires Initial(start) && Possible(start, run) && Answers(After(start, run), c, Venue)
    requires Carries(row, After(start, run).schema, {VenueName, VenueAddress})
    ensures var answer := After(start, run).calls[c].phase.answer;
      var (name, address) := VenueExprs(answer.first, answer.second);
      Eval(name, row).Some? && Eval(address, row).Some?
  {
    RunKeepsInv(start, run);
    var t := After(start, run);
    assert CallSafe(t.calls[c], t.schema);
    VenueMeans(t.calls[c].phase.answer.first, t.calls[c].phase.answer.second, row);
  }

  /** And while the schema stands still such a caller reads the two columns, NULL where one is absent. */
  lemma VenuesAreServed(start: State, run: seq<Action>, c: nat, row: Fields)
    requires Initial(start) && Possible(start, run) && NoGrowth(run) && Answers(After(start, run), c, Venue)
    requires !After(start, run).calls[c].failed && RowOf(row, start.schema, {VenueName, VenueAddress})
    ensures var answer := After(start, run).calls[c].phase.answer;
      var (name, address) := VenueExprs(answer.first, answer.second);
      Eval(name, row) == Some(OrNull(row, VenueName)) && Eval(address, row) == Some(OrNull(row, VenueAddress))
  {
    FixedSchemaTellsTruth(start, run);
    var t := After(start, run);
    assert CallExact(t.calls[c], t.schema);
    VenueMeans(t.calls[c].phase.answer.first, t.calls[c].phase.answer.second, row);
  }

  /**
   * Activities are read only where both tables exist, and, while the schema stands still and the probes are
   * answered, wherever they do; topics likewise for their one column.
   */
  lemma TablesAreServed(start: State, run: seq<Action>, c: nat)
    requires Initial(start) && Possible(start, run)
    ensures var t := After(start, run);
      && (Answers(t, c, Activity) && t.calls[c].phase.answer.first ==>
            {ActivitiesTable, ActivityHoursTable} <= t.schema)
      && (Answers(t, c, Topic) && t.calls[c].phase.answer.first ==> TopicId in t.schema)
    ensures var t := After(start, run);
      NoGrowth(run) && c in t.calls && !t.calls[c].failed ==>
        && (Answers(t, c, Activity) ==>
              (t.calls[c].phase.answer.first <==> {ActivitiesTable, ActivityHoursTable} <= start.schema))
        && (Answers(t, c, Topic) ==> (t.calls[c].phase.answer.first <==> TopicId in start.schema))
  {
    RunKeepsInv(start, run);
    var t := After(start, run);
    if c in t.calls {
      assert CallSafe(t.calls[c], t.schema);
      if NoGrowth(run) {
        FixedSchemaTellsTruth(start, run);
        assert CallExact(t.calls[c], t.schema);
      }
    }
  }
}
