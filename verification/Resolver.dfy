/** The feature resolver's TTL cache under concurrent callers, a moving clock and an edited table. */
module Resolver {
  import opened Numbers
  import opened Text

  /** One write to app_config; poisoned when it leaves a row keyed "is_enabled" behind. */
  datatype Edit = Edit(at: int, poisoned: bool)

  /** A published snapshot: the table version it was read from, when it was read, and fetchedAt. */
  datatype Entry = Entry(version: nat, readAt: int, at: int)

  datatype Phase =
    | Begun
    | Checking(cached: Option<Entry>)
    | Waiting
    | Rechecking
    | Fetching
    | Applying(version: nat, readAt: int)
    | Releasing
    | Rereading
    | Returned(answer: Option<Entry>)
    | Panicked(version: nat)

  /** One load; floor is the snapshot published when it began, failed that its own read failed. */
  datatype Call = Call(begunAt: int, floor: Option<Entry>, failed: bool, phase: Phase)

  datatype State = State(
    ttl: int,
    clock: int,
    edits: seq<Edit>,
    current: Option<Entry>,
    log: seq<Entry>,
    holder: Option<nat>,
    calls: map<nat, Call>)

  datatype Action =
    | Tick(elapsed: nat)
    | EditTable(poisoned: bool)
    | Begin(c: nat)
    | ReadCache(c: nat)
    | Check(c: nat)
    | Acquire(c: nat)
    | Recheck(c: nat)
    | ReadRows(c: nat)
    | ReadFails(c: nat)
    | Finish(c: nat)
    | Release(c: nat)
    | Reread(c: nat)

  // ----- steps -----

  predicate Fresh(s: State, cached: Option<Entry>) {
    cached.Some? && s.clock - cached.value.at < s.ttl
  }

  predicate Poisoned(edits: seq<Edit>, version: nat) {
    0 < version <= |edits| && edits[version - 1].poisoned
  }

  predicate Enabled(s: State, a: Action) {
    match a
    case Tick(_) => true
    case EditTable(_) => true
    case Begin(c) => c !in s.calls
    case ReadCache(c) => c in s.calls && s.calls[c].phase.Begun?
    case Check(c) => c in s.calls && s.calls[c].phase.Checking?
    case Acquire(c) => c in s.calls && s.calls[c].phase.Waiting? && s.holder.None?
    case Recheck(c) => c in s.calls && s.calls[c].phase.Rechecking?
    case ReadRows(c) => c in s.calls && s.calls[c].phase.Fetching?
    case ReadFails(c) => c in s.calls && s.calls[c].phase.Fetching?
    case Finish(c) => c in s.calls && s.calls[c].phase.Applying?
    case Release(c) => c in s.calls && s.calls[c].phase.Releasing?
    case Reread(c) => c in s.calls && s.calls[c].phase.Rereading?
  }

  function To(s: State, c: nat, phase: Phase): State
    requires c in s.calls
  {
    s.(calls := s.calls[c := s.calls[c].(phase := phase)])
  }

  function Published(s: State, e: Entry): State {
    s.(current := Some(e), log := s.log + [e])
  }

  function Do(s: State, a: Action): State
    requires Enabled(s, a)
  {
    match a
    case Tick(elapsed) => s.(clock := s.clock + elapsed)
    case EditTable(poisoned) => s.(edits := s.edits + [Edit(s.clock, poisoned)])
    case Begin(c) => s.(calls := s.calls[c := Call(s.clock, s.current, false, Begun)])
    case ReadCache(c) => To(s, c, Checking(s.current))
    case Check(c) =>
      var cached := s.calls[c].phase.cached;
      To(s, c, if Fresh(s, cached) then Returned(cached) else Waiting)
    case Acquire(c) => To(s.(holder := Some(c)), c, Rechecking)
    case Recheck(c) => To(s, c, if Fresh(s, s.current) then Releasing else Fetching)
    case ReadRows(c) => To(s, c, Applying(|s.edits|, s.clock))
    case ReadFails(c) => s.(calls := s.calls[c := s.calls[c].(phase := Releasing, failed := true)])
    case Finish(c) =>
      var p := s.calls[c].phase;
      if Poisoned(s.edits, p.version) then To(s.(holder := None), c, Panicked(p.version))
      else To(Published(s, Entry(p.version, p.readAt, s.clock)), c, Releasing)
    case Release(c) => To(s.(holder := None), c, Rereading)
    case Reread(c) => To(s, c, Returned(s.current))
  }

  /** Where a load may be after `p`, as load and refresh go. */
  predicate Continues(p: Phase, p': Phase) {
    match p
    case Begun => p'.Checking?
    case Checking(cached) => p' == Returned(cached) || p'.Waiting?
    case Waiting => p'.Rechecking?
    case Rechecking => p'.Releasing? || p'.Fetching?
    case Fetching => p'.Applying? || p'.Releasing?
    case Applying(version, _) => p'.Releasing? || p' == Panicked(version)
    case Releasing => p'.Rereading?
    case Rereading => p'.Returned?
    case _ => false
  }

  predicate Loads(a: Action) { !a.Tick? && !a.EditTable? && !a.Begin? }

  /** Each step begins a load or takes one load on along the code, and nobody enters a mutex that is held. */
  lemma LoadsFollowTheCode(s: State, a: Action, c: nat)
    requires Enabled(s, a)
    ensures c in s.calls ==> c in Do(s, a).calls
    ensures c in s.calls && Loads(a) && a.c == c ==> Continues(s.calls[c].phase, Do(s, a).calls[c].phase)
    ensures c in s.calls && !(Loads(a) && a.c == c) ==> Do(s, a).calls[c] == s.calls[c]
    ensures c !in s.calls && c in Do(s, a).calls ==> a == Begin(c) && Do(s, a).calls[c].phase == Begun
    ensures c in s.calls && s.calls[c].phase.Waiting? && Do(s, a).calls[c].phase.Rechecking? ==>
      s.holder == None && Do(s, a).holder == Some(c)
  {}

  // ----- the invariant -----

  predicate AtLeast(e: Option<Entry>, floor: Option<Entry>) {
    floor.Some? ==> e.Some? && e.value.at >= floor.value.at
  }

  /** The snapshot reflects exactly the edits made up to its read. */
  ghost predicate ReadAsOf(edits: seq<Edit>, version: nat, readAt: int) {
    0 < version <= |edits| &&
    (forall i :: 0 <= i < version ==> edits[i].at <= readAt) &&
    (forall i :: version <= i < |edits| ==> readAt <= edits[i].at)
  }

  ghost predicate EntryOk(s: State, e: Entry) {
    e.readAt <= e.at <= s.clock && ReadAsOf(s.edits, e.version, e.readAt) && !Poisoned(s.edits, e.version)
  }

  ghost predicate Spaced(ttl: int, log: seq<Entry>) {
    forall i, j :: 0 <= i < j < |log| ==> log[i].at + ttl <= log[j].readAt
  }

  ghost predicate LogOk(s: State) {
    && s.ttl > 0 && s.edits != []
    && (forall i :: 0 <= i < |s.edits| ==> s.edits[i].at <= s.clock)
    && (forall i :: 0 <= i < |s.log| ==> EntryOk(s, s.log[i]))
    && Spaced(s.ttl, s.log)
    && s.current == if s.log == [] then None else Some(s.log[|s.log| - 1])
  }

  predicate Critical(p: Phase) {
    p.Rechecking? || p.Fetching? || p.Applying? || p.Releasing?
  }

  /** Published recently enough to count as fresh at some moment since t. */
  predicate Recent(ttl: int, e: Option<Entry>, t: int) {
    e.Some? && t < e.value.at + ttl
  }

  ghost predicate Answers(s: State, call: Call, e: Option<Entry>) {
    AtLeast(e, call.floor) && AtLeast(s.current, e) && (e.Some? ==> e.value in s.log)
  }

  ghost predicate PhaseOk(s: State, call: Call) {
    match call.phase
    case Checking(cached) => Answers(s, call, cached)
    case Fetching => s.current.Some? ==> s.current.value.at + s.ttl <= s.clock
    case Applying(version, readAt) =>
      readAt <= s.clock && ReadAsOf(s.edits, version, readAt) && call.begunAt <= s.clock &&
      (s.current.Some? ==> s.current.value.at + s.ttl <= readAt)
    case Releasing => call.failed || Recent(s.ttl, s.current, call.begunAt)
    case Rereading => call.failed || Recent(s.ttl, s.current, call.begunAt)
    case Returned(e) => Answers(s, call, e) && (call.failed || Recent(s.ttl, e, call.begunAt))
    case Panicked(version) => Poisoned(s.edits, version)
    case _ => true
  }

  ghost predicate CallOk(s: State, c: nat, call: Call) {
    call.begunAt <= s.clock && AtLeast(s.current, call.floor) &&
    (Critical(call.phase) ==> s.holder == Some(c)) && PhaseOk(s, call)
  }

  ghost predicate Inv(s: State) {
    && LogOk(s)
    && (forall c :: c in s.calls ==> CallOk(s, c, s.calls[c]))
    && (s.holder.Some? ==> s.holder.value in s.calls && Critical(s.calls[s.holder.value].phase))
  }

  ghost predicate Initial(s: State) {
    s.ttl > 0 && |s.edits| == 1 && s.edits[0].at <= s.clock &&
    s.current.None? && s.log == [] && s.holder.None? && s.calls == map[]
  }

  ghost predicate Extends(s: State, t: State) {
    s.ttl == t.ttl && s.clock <= t.clock && s.edits <= t.edits && s.log <= t.log && AtLeast(t.current, s.current) &&
    (forall i :: |s.edits| <= i < |t.edits| ==> s.clock <= t.edits[i].at)
  }

  lemma PublishKeepsLog(s: State, e: Entry)
    requires LogOk(s) && EntryOk(s, e)
    requires s.current.Some? ==> s.current.value.at + s.ttl <= e.readAt
    ensures LogOk(Published(s, e)) && Extends(s, Published(s, e))
  {
    var log, t := s.log + [e], Published(s, e);
    assert forall i :: 0 <= i < |s.log| ==> log[i] == s.log[i] && EntryOk(s, log[i]);
    if s.log != [] {
      var n := |s.log| - 1;
      assert EntryOk(s, s.log[n]);
      assert forall i :: 0 <= i < n ==> s.log[i].at + s.ttl <= s.log[n].readAt;
    }
  }

  lemma EditKeepsLog(s: State, edit: Edit)
    requires LogOk(s) && edit.at == s.clock
    ensures var t := s.(edits := s.edits + [edit]); LogOk(t) && Extends(s, t)
  {
    assert forall i :: 0 <= i < |s.log| ==> EntryOk(s, s.log[i]);
  }

  lemma FinishKeepsLog(s: State, c: nat)
    requires Inv(s) && Enabled(s, Finish(c))
    ensures LogOk(Do(s, Finish(c))) && Extends(s, Do(s, Finish(c)))
  {
    var p := s.calls[c].phase;
    assert CallOk(s, c, s.calls[c]);
    if Poisoned(s.edits, p.version) {
      QuietStep(s, Do(s, Finish(c)));
    } else {
      PublishKeepsLog(s, Entry(p.version, p.readAt, s.clock));
      QuietStep(Published(s, Entry(p.version, p.readAt, s.clock)), Do(s, Finish(c)));
    }
  }

  lemma LogStep(s: State, a: Action)
    requires Inv(s) && Enabled(s, a)
    ensures LogOk(Do(s, a)) && Extends(s, Do(s, a))
  {
    match a
    case EditTable(poisoned) => EditKeepsLog(s, Edit(s.clock, poisoned));
    case Finish(c) => FinishKeepsLog(s, c);
    case _ => QuietStep(s, Do(s, a));
  }

  lemma QuietStep(s: State, t: State)
    requires LogOk(s) && s.ttl == t.ttl && s.edits == t.edits && s.log == t.log && s.current == t.current &&
      s.clock <= t.clock
    ensures LogOk(t) && Extends(s, t)
  {
    assert forall i :: 0 <= i < |s.log| ==> EntryOk(s, s.log[i]);
  }

  lemma CallStays(s: State, t: State, c: nat, call: Call)
    requires LogOk(s) && LogOk(t) && Extends(s, t) && CallOk(s, c, call)
    requires Critical(call.phase) ==> t.holder == s.holder && t.current == s.current
    ensures CallOk(t, c, call)
  {}

  ghost predicate ActorOk(s: State, a: Action)
    requires Enabled(s, a) && !a.Tick? && !a.EditTable?
  {
    CallOk(Do(s, a), a.c, Do(s, a).calls[a.c])
  }

  lemma FinishOk(s: State, c: nat)
    requires Inv(s) && Enabled(s, Finish(c))
    ensures ActorOk(s, Finish(c))
  {
    assert CallOk(s, c, s.calls[c]);
  }

  lemma CacheReadOk(s: State, c: nat)
    requires Inv(s)
    ensures Enabled(s, ReadCache(c)) ==> ActorOk(s, ReadCache(c))
    ensures Enabled(s, Check(c)) ==> ActorOk(s, Check(c))
    ensures Enabled(s, Reread(c)) ==> ActorOk(s, Reread(c))
  {
    if c in s.calls { assert CallOk(s, c, s.calls[c]); }
  }

  lemma MutexOk(s: State, c: nat)
    requires Inv(s)
    ensures Enabled(s, Acquire(c)) ==> ActorOk(s, Acquire(c))
    ensures Enabled(s, Recheck(c)) ==> ActorOk(s, Recheck(c))
    ensures Enabled(s, Release(c)) ==> ActorOk(s, Release(c))
  {
    if c in s.calls { assert CallOk(s, c, s.calls[c]); }
  }

  lemma TableReadOk(s: State, c: nat)
    requires Inv(s)
    ensures Enabled(s, ReadRows(c)) ==> ActorOk(s, ReadRows(c))
    ensures Enabled(s, ReadFails(c)) ==> ActorOk(s, ReadFails(c))
  {
    if c in s.calls { assert CallOk(s, c, s.calls[c]); }
  }

  lemma BeginOk(s: State, c: nat)
    requires Inv(s) && Enabled(s, Begin(c))
    ensures ActorOk(s, Begin(c))
  {}

  lemma ActorStep(s: State, a: Action)
    requires Inv(s) && Enabled(s, a) && !a.Tick? && !a.EditTable?
    ensures CallOk(Do(s, a), a.c, Do(s, a).calls[a.c])
  {
    match a
    case Begin(c) => BeginOk(s, c);
    case Finish(c) => FinishOk(s, c);
    case ReadRows(c) => TableReadOk(s, c);
    case ReadFails(c) => TableReadOk(s, c);
    case Acquire(c) => MutexOk(s, c);
    case Recheck(c) => MutexOk(s, c);
    case Release(c) => MutexOk(s, c);
    case ReadCache(c) => CacheReadOk(s, c);
    case Check(c) => CacheReadOk(s, c);
    case Reread(c) => CacheReadOk(s, c);
  }

  /** Every step of every caller, the clock and the operator keeps the invariant. */
  lemma StepKeepsInv(s: State, a: Action)
    requires Inv(s) && Enabled(s, a)
    ensures Inv(Do(s, a)) && Extends(s, Do(s, a))
  {
    LogStep(s, a);
    var t := Do(s, a);
    forall c | c in t.calls
      ensures CallOk(t, c, t.calls[c])
    {
      if !a.Tick? && !a.EditTable? && a.c == c {
        ActorStep(s, a);
      } else {
        assert CallOk(s, c, s.calls[c]);
        CallStays(s, t, c, s.calls[c]);
      }
    }
  }

  // ----- runs -----

  ghost predicate Possible(s: State, run: seq<Action>)
    decreases |run|
  {
    run == [] || (Enabled(s, run[0]) && Possible(Do(s, run[0]), run[1..]))
  }

  ghost function After(s: State, run: seq<Action>): State
    requires Possible(s, run)
    decreases |run|
  {
    if run == [] then s else After(Do(s, run[0]), run[1..])
  }

  lemma {:induction false} RunKeepsInv(s: State, run: seq<Action>)
    requires Inv(s) && Possible(s, run)
    ensures Inv(After(s, run)) && Extends(s, After(s, run))
    decreases |run|
  {
    if run == [] {
    } else {
      StepKeepsInv(s, run[0]);
      RunKeepsInv(Do(s, run[0]), run[1..]);
    }
  }

  lemma {:induction false} Then(start: State, run: seq<Action>, a: Action) returns (longer: seq<Action>)
    requires Possible(start, run) && Enabled(After(start, run), a)
    ensures longer == run + [a] && Possible(start, longer) && After(start, longer) == Do(After(start, run), a)
    decreases |run|
  {
    longer := run + [a];
    if run == [] {
    } else {
      var rest := Then(Do(start, run[0]), run[1..], a);
      assert longer[1..] == rest;
    }
  }

  // ----- theorems -----

  /** Snapshots are published at least a ttl apart, in the order of the table versions they hold. */
  lemma PublishedInOrder(start: State, run: seq<Action>, i: nat, j: nat)
    requires Initial(start) && Possible(start, run) && i < j < |After(start, run).log|
    ensures var log := After(start, run).log;
      log[i].at + start.ttl <= log[j].readAt <= log[j].at && log[i].version <= log[j].version
  {
    RunKeepsInv(start, run);
    var t := After(start, run);
    assert EntryOk(t, t.log[i]) && EntryOk(t, t.log[j]);
  }

  /**
   * At any moment of any run the cache changes only by a read that succeeded on a table without the
   * poisoned row, made by the one caller holding the mutex, a ttl after the last publication.
   */
  lemma OnlyGoodReadsPublish(start: State, run: seq<Action>, a: Action)
    requires Initial(start) && Possible(start, run) && Enabled(After(start, run), a)
    requires var s := After(start, run); Do(s, a).log != s.log || Do(s, a).current != s.current
    ensures var s := After(start, run);
      a.Finish? && s.holder == Some(a.c) && s.calls[a.c].phase.Applying? &&
      var p := s.calls[a.c].phase;
      !(0 < p.version <= |s.edits| && s.edits[p.version - 1].poisoned) &&
      Do(s, a).log == s.log + [Entry(p.version, p.readAt, s.clock)] &&
      (s.current.Some? ==> s.current.value.at + s.ttl <= p.readAt)
  {
    RunKeepsInv(start, run);
    var s := After(start, run);
    if a.Finish? { assert CallOk(s, a.c, s.calls[a.c]); }
  }

  /** At most one caller reads the table at a time. */
  lemma OneReader(start: State, run: seq<Action>, a: nat, b: nat)
    requires Initial(start) && Possible(start, run)
    requires a in After(start, run).calls && Critical(After(start, run).calls[a].phase)
    requires b in After(start, run).calls && Critical(After(start, run).calls[b].phase)
    ensures a == b
  {
    RunKeepsInv(start, run);
    var t := After(start, run);
    assert CallOk(t, a, t.calls[a]) && CallOk(t, b, t.calls[b]);
  }

  lemma FloorStep(s: State, a: Action, floor: Option<Entry>, b: nat)
    requires Enabled(s, a) && AtLeast(s.current, floor)
    requires b in s.calls ==> AtLeast(s.calls[b].floor, floor)
    ensures b in Do(s, a).calls ==> AtLeast(Do(s, a).calls[b].floor, floor)
  {}

  lemma {:induction false} LateCallsStartHigh(s: State, run: seq<Action>, floor: Option<Entry>, b: nat)
    requires Inv(s) && Possible(s, run) && AtLeast(s.current, floor)
    requires b in s.calls ==> AtLeast(s.calls[b].floor, floor)
    ensures b in After(s, run).calls ==> AtLeast(After(s, run).calls[b].floor, floor)
    decreases |run|
  {
    if run == [] {
    } else {
      StepKeepsInv(s, run[0]);
      FloorStep(s, run[0], floor, b);
      LateCallsStartHigh(Do(s, run[0]), run[1..], floor, b);
    }
  }

  lemma AnswersAreBounded(s: State, c: nat)
    requires Inv(s) && c in s.calls && s.calls[c].phase.Returned?
    ensures AtLeast(s.calls[c].phase.answer, s.calls[c].floor) && AtLeast(s.current, s.calls[c].phase.answer)
  {
    assert CallOk(s, c, s.calls[c]);
  }

  /** A call that begins after another returned never answers from an older snapshot. */
  lemma NeverOlder(start: State, before: seq<Action>, run: seq<Action>, a: nat, b: nat)
    requires Initial(start) && Possible(start, before) && Possible(After(start, before), run)
    requires a in After(start, before).calls && After(start, before).calls[a].phase.Returned?
    requires b !in After(start, before).calls
    requires b in After(After(start, before), run).calls && After(After(start, before), run).calls[b].phase.Returned?
    ensures AtLeast(After(After(start, before), run).calls[b].phase.answer, After(start, before).calls[a].phase.answer)
  {
    RunKeepsInv(start, before);
    var s := After(start, before);
    AnswersAreBounded(s, a);
    LateCallsStartHigh(s, run, s.calls[a].phase.answer, b);
    RunKeepsInv(s, run);
    AnswersAreBounded(After(s, run), b);
  }

  /** A call comes to answer with the compiled-in defaults only while no read has ever succeeded. */
  lemma DefaultsOnlyWhileEmpty(start: State, run: seq<Action>, a: Action, c: nat)
    requires Initial(start) && Possible(start, run) && Enabled(After(start, run), a)
    requires c in Do(After(start, run), a).calls && Do(After(start, run), a).calls[c].phase == Returned(None)
    requires c in After(start, run).calls ==> After(start, run).calls[c].phase != Returned(None)
    ensures After(start, run).log == []
  {
    RunKeepsInv(start, run);
  }

  /**
   * A call whose own read did not fail answers from a snapshot still fresh when the call began, so it
   * shows every edit older than ttl plus the time between that snapshot's read and its publication.
   */
  lemma EditsShowInTime(start: State, run: seq<Action>, c: nat, i: nat)
    requires Initial(start) && Possible(start, run)
    requires c in After(start, run).calls && After(start, run).calls[c].phase.Returned?
    requires !After(start, run).calls[c].failed && i < |After(start, run).edits|
    ensures var call := After(start, run).calls[c];
      call.phase.answer.Some? && call.begunAt < call.phase.answer.value.at + start.ttl
    ensures var t := After(start, run); var e := t.calls[c].phase.answer.value;
      t.edits[i].at + start.ttl + (e.at - e.readAt) <= t.calls[c].begunAt ==> i < e.version
  {
    RunKeepsInv(start, run);
    var t := After(start, run);
    assert CallOk(t, c, t.calls[c]);
    assert EntryOk(t, t.calls[c].phase.answer.value);
  }

  function Seen(clock: int, edits: seq<Edit>, log: seq<Entry>, holder: Option<nat>, calls: map<nat, Call>): State {
    State(30, clock, edits, if log == [] then None else Some(log[|log| - 1]), log, holder, calls)
  }

  lemma SlowRead() returns (start: State, run: seq<Action>)
    ensures Initial(start) && start.ttl == 30 && Possible(start, run)
    ensures After(start, run) == Seen(0, [Edit(0, false)], [], Some(0), map[0 := Call(0, None, false, Applying(1, 0))])
  {
    start := Seen(0, [Edit(0, false)], [], None, map[]);
    run := Then(start, [], Begin(0));
    run := Then(start, run, ReadCache(0));
    run := Then(start, run, Check(0));
    assert After(start, run).calls == map[0 := Call(0, None, false, Waiting)];
    run := Then(start, run, Acquire(0));
    run := Then(start, run, Recheck(0));
    run := Then(start, run, ReadRows(0));
    assert After(start, run).calls == map[0 := Call(0, None, false, Applying(1, 0))];
  }

  lemma EditBeforePublish() returns (start: State, run: seq<Action>)
    ensures Initial(start) && start.ttl == 30 && Possible(start, run)
    ensures After(start, run) ==
      Seen(5, [Edit(0, false), Edit(0, false)], [Entry(1, 0, 5)], Some(0), map[0 := Call(0, None, false, Releasing)])
  {
    start, run := SlowRead();
    run := Then(start, run, EditTable(false));
    run := Then(start, run, Tick(5));
    run := Then(start, run, Finish(0));
    assert After(start, run).calls == map[0 := Call(0, None, false, Releasing)];
  }

  /** fetchedAt is stamped after the read, so an edit can stay hidden for longer than the ttl. */
  lemma ToggleCanTakeLonger() returns (start: State, run: seq<Action>)
    ensures Initial(start) && start.ttl == 30 && Possible(start, run)
    ensures var t := After(start, run);
      1 in t.calls && t.calls[1] == Call(31, Some(Entry(1, 0, 5)), false, Returned(Some(Entry(1, 0, 5)))) &&
      t.edits == [Edit(0, false), Edit(0, false)]
  {
    start, run := EditBeforePublish();
    run := Then(start, run, Tick(26));
    run := Then(start, run, Begin(1));
    run := Then(start, run, ReadCache(1));
    run := Then(start, run, Check(1));
  }

  /** Call `c` of `t` began a ttl or more after edit `j` and still answers with `e`, which misses the edit. */
  ghost predicate HidesPastTtl(t: State, c: nat, e: Entry, j: nat) {
    && c in t.calls && t.calls[c].phase == Returned(Some(e)) && !t.calls[c].failed && j < |t.edits|
    && e.version <= j && t.edits[j].at + t.ttl <= t.calls[c].begunAt
  }

  /** Such a call exists only for edits made after the snapshot was read and before it was published. */
  lemma HiddenEditsFallInBetween(start: State, run: seq<Action>, c: nat, e: Entry, j: nat)
    requires Initial(start) && Possible(start, run) && HidesPastTtl(After(start, run), c, e, j)
    ensures var t := After(start, run); e in t.log && e.readAt <= t.edits[j].at < e.at
  {
    RunKeepsInv(start, run);
    var t := After(start, run);
    assert CallOk(t, c, t.calls[c]);
    var k :| 0 <= k < |t.log| && t.log[k] == e;
    assert EntryOk(t, t.log[k]);
  }

  lemma {:induction false} RunsCompose(s: State, a: seq<Action>, b: seq<Action>)
    requires Possible(s, a) && Possible(After(s, a), b)
    ensures Possible(s, a + b) && After(s, a + b) == After(After(s, a), b)
    decreases |a|
  {
    if a == [] {
      assert a + b == b;
    } else {
      RunsCompose(Do(s, a[0]), a[1..], b);
      assert (a + b)[1..] == a[1..] + b;
    }
  }

  lemma {:induction false} TtlIsFixed(s: State, run: seq<Action>)
    requires Possible(s, run)
    ensures After(s, run).ttl == s.ttl && s.edits <= After(s, run).edits
    decreases |run|
  {
    if run == [] {
    } else {
      TtlIsFixed(Do(s, run[0]), run[1..]);
    }
  }

  /** A call that begins a ttl after the edit, while the snapshot still counts as fresh, misses the edit. */
  lemma LateCallMisses(s: State, e: Entry, j: nat) returns (rest: seq<Action>, c: nat)
    requires s.ttl > 0 && s.current == Some(e) && s.clock == e.at && j < |s.edits|
    requires e.version <= j && s.edits[j].at < e.at
    ensures Possible(s, rest) && HidesPastTtl(After(s, rest), c, e, j)
  {
    c := Unused(s.calls.Keys);
    var wait := s.edits[j].at + s.ttl - s.clock;
    rest := Then(s, [], Tick(if wait < 0 then 0 else wait));
    rest := Then(s, rest, Begin(c));
    rest := Then(s, rest, ReadCache(c));
    rest := Then(s, rest, Check(c));
  }

  /**
   * The documented latency, exactly: once a snapshot is published, some later call misses edit `j` a ttl or
   * more after it was made if and only if the edit fell between the snapshot's read and its publication.
   */
  lemma HiddenPastTtlExactly(start: State, run: seq<Action>, c0: nat, j: nat)
    requires Initial(start) && Possible(start, run) && Enabled(After(start, run), Finish(c0))
    requires var s := After(start, run); !Poisoned(s.edits, s.calls[c0].phase.version) && j < |s.edits|
    ensures var t := Do(After(start, run), Finish(c0)); var e := t.current.value;
      (exists rest, c :: Possible(t, rest) && HidesPastTtl(After(t, rest), c, e, j)) <==>
      e.version <= j && t.edits[j].at < e.at
  {
    var all := Then(start, run, Finish(c0));
    RunKeepsInv(start, run);
    var t := After(start, all);
    var e := t.current.value;
    if e.version <= j && t.edits[j].at < e.at {
      var rest, c := LateCallMisses(t, e, j);
    }
    if rest, c :| Possible(t, rest) && HidesPastTtl(After(t, rest), c, e, j) {
      RunsCompose(start, all, rest);
      TtlIsFixed(t, rest);
      HiddenEditsFallInBetween(start, all + rest, c, e, j);
    }
  }

  /** Only a caller that read a poisoned table has panicked; it left the mutex, and no such table was published. */
  lemma OnlyPoisonPanics(start: State, run: seq<Action>, c: nat)
    requires Initial(start) && Possible(start, run)
    requires c in After(start, run).calls && After(start, run).calls[c].phase.Panicked?
    ensures var t := After(start, run);
      0 < t.calls[c].phase.version <= |t.edits| && t.edits[t.calls[c].phase.version - 1].poisoned &&
      t.holder != Some(c) &&
      forall i :: 0 <= i < |t.log| ==> t.log[i].version != t.calls[c].phase.version
  {
    RunKeepsInv(start, run);
    var t := After(start, run);
    assert CallOk(t, c, t.calls[c]);
    assert forall i :: 0 <= i < |t.log| ==> EntryOk(t, t.log[i]);
  }

  predicate Unfinished(s: State, c: nat) {
    c in s.calls && !s.calls[c].phase.Returned? && !s.calls[c].phase.Panicked?
  }

  /** While a call is unfinished, it or the caller holding the refresh mutex can step. */
  lemma NobodyIsStuck(s: State, c: nat) returns (a: Action)
    requires Inv(s) && Unfinished(s, c)
    ensures Enabled(s, a) && !a.Tick? && !a.EditTable? && !a.Begin? && (a.c == c || s.holder == Some(a.c))
  {
    var d := if s.calls[c].phase.Waiting? && s.holder.Some? then s.holder.value else c;
    match s.calls[d].phase
    case Begun => a := ReadCache(d);
    case Checking(_) => a := Check(d);
    case Waiting => a := Acquire(d);
    case Rechecking => a := Recheck(d);
    case Fetching => a := ReadRows(d);
    case Applying(_, _) => a := Finish(d);
    case Releasing => a := Release(d);
    case Rereading => a := Reread(d);
  }
}
