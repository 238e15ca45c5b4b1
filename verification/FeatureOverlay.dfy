/** app_config rows laid over the compiled-in feature defaults. */
module FeatureOverlay {
  import opened Text
  import opened FeatureKeys
  import opened FeatureGates

  datatype Row = Row(key: string, value: string)
  datatype State = State(feature: Feature, enabled: bool, title: string, message: string)
  datatype Snapshot = Snapshot(states: map<Feature, State>, gates: GateMap, bypass: set<string>)

  /** What the build carries: the registry's states, the gate map, and the JSON decoder. */
  datatype Build = Build(defaults: map<Feature, State>, gates: GateMap, decode: string -> Option<Stored>)

  const GATE_MAP_KEY := "feature_gates"
  const BYPASS_KEY := "feature_gate_bypass_emails"
  const PANIC_KEY := "is_enabled"
  const GENERIC_TITLE := "Coming soon"
  const GENERIC_MESSAGE := "This feature will be available soon. Please check back later."

  function Generic(f: Feature): State { State(f, true, GENERIC_TITLE, GENERIC_MESSAGE) }

  predicate Registered(build: Build) {
    forall f :: f in build.defaults ==> build.defaults[f].feature == f
  }

  /** The value of the last row with each key. */
  ghost function Stores(rows: seq<Row>): map<string, string> {
    if rows == [] then map[]
    else Stores(rows[..|rows| - 1])[rows[|rows| - 1].key := rows[|rows| - 1].value]
  }

  lemma {:induction false} StoresKeys(rows: seq<Row>, key: string)
    ensures key in Stores(rows) <==> exists i :: 0 <= i < |rows| && rows[i].key == key
  {
    if rows == [] {
    } else {
      var init, n := rows[..|rows| - 1], |rows| - 1;
      StoresKeys(init, key);
      assert forall i :: 0 <= i < n ==> init[i] == rows[i];
    }
  }

  /** Of several rows with one key the last counts. */
  lemma {:induction false} LastRowCounts(rows: seq<Row>, i: nat)
    requires i < |rows| && forall j :: i < j < |rows| ==> rows[j].key != rows[i].key
    ensures rows[i].key in Stores(rows) && Stores(rows)[rows[i].key] == rows[i].value
  {
    if i < |rows| - 1 {
      var init := rows[..|rows| - 1];
      assert init[i] == rows[i] && forall j :: i < j < |init| ==> init[j] == rows[j];
      LastRowCounts(init, i);
    }
  }

  // ----- the declarative overlay: one feature at a time -----

  predicate Known(build: Build, stored: map<string, string>, f: Feature) {
    f in build.defaults || (f != "" && EnabledKey(f) in stored)
  }

  function Base(build: Build, f: Feature): State {
    if f in build.defaults then build.defaults[f] else Generic(f)
  }

  function Switch(stored: map<string, string>, key: string, fallback: bool): bool {
    if key in stored && ParseEnabled(stored[key]).Some? then ParseEnabled(stored[key]).value else fallback
  }

  function Copy(stored: map<string, string>, key: string, fallback: string): string {
    if key in stored && TrimSpace(stored[key]) != "" then stored[key] else fallback
  }

  function Overlaid(stored: map<string, string>, s: State): State {
    State(s.feature,
      Switch(stored, EnabledKey(s.feature), s.enabled),
      Copy(stored, TitleKey(s.feature), s.title),
      Copy(stored, MessageKey(s.feature), s.message))
  }

  /** The gates in force: the stored mapping outright if it decodes, else the build's. */
  ghost predicate GatesInForce(build: Build, stored: map<string, string>, gates: GateMap) {
    if GATE_MAP_KEY in stored && build.decode(stored[GATE_MAP_KEY]).Some? then
      var listed := build.decode(stored[GATE_MAP_KEY]).value;
      exists order :: Enumerates(order, listed.Keys) && gates == GatesInOrder(listed, order)
    else gates == build.gates
  }

  ghost predicate BypassInForce(stored: map<string, string>, bypass: set<string>) {
    forall e :: e in bypass <==>
      BYPASS_KEY in stored && e != "" && exists f :: f in Fields(stored[BYPASS_KEY]) && Folded(f) == e
  }

  ghost predicate IsOverlay(build: Build, stored: map<string, string>, out: Snapshot) {
    && (forall f :: f in out.states <==> Known(build, stored, f))
    && (forall f :: f in out.states ==> out.states[f] == Overlaid(stored, Base(build, f)))
    && GatesInForce(build, stored, out.gates)
    && BypassInForce(stored, out.bypass)
  }

  // ----- apply -----

  /** Discovery visits the keys in any order; a key on which the slicing panics ends the call. */
  method Discover(build: Build, stored: map<string, string>) returns (panicked: bool, states: map<Feature, State>)
    requires Registered(build)
    ensures panicked <==> PANIC_KEY in stored
    ensures !panicked ==> forall f :: f in states <==> Known(build, stored, f)
    ensures !panicked ==> forall f :: f in states ==> states[f] == Base(build, f)
  {
    panicked, states := false, build.defaults;
    var pending := stored.Keys;
    while pending != {}
      invariant pending <= stored.Keys
      invariant PANIC_KEY in stored ==> PANIC_KEY in pending
      invariant forall f :: f in states <==> f in build.defaults || (f != "" && EnabledKey(f) in stored.Keys - pending)
      invariant forall f :: f in states ==> states[f] == Base(build, f)
      decreases |pending|
    {
      var key :| key in pending;
      pending := pending - {key};
      PanicsExactlyOnIsEnabled(key);
      var extracted := FeatureFromEnabledKey(key);
      forall f: Feature
        ensures extracted == Flag(f) <==> f != "" && key == EnabledKey(f)
      {
        ExtractionInvertsEnabledKey(key, f);
      }
      match extracted
      case Panics => return true, map[];
      case NotAFlag =>
      case Flag(f) =>
        if f !in states { states := states[f := Generic(f)]; }
    }
  }

  method OverlayOne(stored: map<string, string>, before: State) returns (s: State)
    ensures s == Overlaid(stored, before)
  {
    s := before;
    var f := before.feature;
    if EnabledKey(f) in stored {
      var parsed := ParseEnabled(stored[EnabledKey(f)]);
      if parsed.Some? { s := s.(enabled := parsed.value); }
    }
    if TitleKey(f) in stored && TrimSpace(stored[TitleKey(f)]) != "" { s := s.(title := stored[TitleKey(f)]); }
    if MessageKey(f) in stored && TrimSpace(stored[MessageKey(f)]) != "" { s := s.(message := stored[MessageKey(f)]); }
  }

  /** The overlay loop rewrites each entry in place, in any order. */
  method Overlay(stored: map<string, string>, base: map<Feature, State>) returns (states: map<Feature, State>)
    requires forall f :: f in base ==> base[f].feature == f
    ensures states.Keys == base.Keys
    ensures forall f :: f in base ==> states[f] == Overlaid(stored, base[f])
  {
    states := base;
    var pending := base.Keys;
    while pending != {}
      invariant pending <= base.Keys == states.Keys
      invariant forall f :: f in base ==> states[f] == if f in pending then base[f] else Overlaid(stored, base[f])
      decreases |pending|
    {
      var f :| f in pending;
      pending := pending - {f};
      var s := OverlayOne(stored, states[f]);
      states := states[f := s];
    }
  }

  /** apply: panics exactly when a row is keyed "is_enabled", else one declarative overlay. */
  method Apply(build: Build, rows: seq<Row>) returns (panicked: bool, out: Snapshot)
    requires Registered(build)
    ensures panicked <==> exists i :: 0 <= i < |rows| && rows[i].key == PANIC_KEY
    ensures !panicked ==> IsOverlay(build, Stores(rows), out)
  {
    var byKey: map<string, string> := map[];
    for i := 0 to |rows|
      invariant byKey == Stores(rows[..i])
    {
      assert rows[..i + 1][..i] == rows[..i];
      byKey := byKey[rows[i].key := rows[i].value];
    }
    assert rows[..|rows|] == rows;
    StoresKeys(rows, PANIC_KEY);

    var states;
    panicked, states := Discover(build, byKey);
    if panicked { return true, Snapshot(map[], map[], {}); }
    states := Overlay(byKey, states);

    var gates := build.gates;
    if GATE_MAP_KEY in byKey {
      var decoded := build.decode(byKey[GATE_MAP_KEY]);
      if decoded.Some? { gates := ParseGateMap(decoded.value); }
    }
    var bypass: set<string> := {};
    if BYPASS_KEY in byKey { bypass := ParseBypass(byKey[BYPASS_KEY]); }
    out := Snapshot(states, gates, bypass);
  }

  // ----- what the overlay promises -----

  ghost predicate GatesAreSettled(build: Build, stored: map<string, string>) {
    GATE_MAP_KEY in stored && build.decode(stored[GATE_MAP_KEY]).Some? ==>
      Unambiguous(build.decode(stored[GATE_MAP_KEY]).value)
  }

  /** Whatever order the maps iterate in, one table gives one snapshot, unless a route has two owners. */
  lemma OneTableOneSnapshot(build: Build, stored: map<string, string>, a: Snapshot, b: Snapshot)
    requires IsOverlay(build, stored, a) && IsOverlay(build, stored, b)
    ensures a.states == b.states && a.bypass == b.bypass
    ensures GatesAreSettled(build, stored) ==> a == b
  {
    assert forall e :: e in a.bypass <==> e in b.bypass;
    assert forall f :: f in a.states <==> f in b.states;
    if GatesAreSettled(build, stored) && GATE_MAP_KEY in stored && build.decode(stored[GATE_MAP_KEY]).Some? {
      var listed := build.decode(stored[GATE_MAP_KEY]).value;
      var m :| Enumerates(m, listed.Keys) && a.gates == GatesInOrder(listed, m);
      var n :| Enumerates(n, listed.Keys) && b.gates == GatesInOrder(listed, n);
      SameGates(listed, m, n);
    }
  }

  /** Resolver.State, on one snapshot. */
  function StateOf(snapshot: Snapshot, f: Feature): State {
    if f in snapshot.states then snapshot.states[f] else Generic(f)
  }

  /** Resolver.Gate, on one snapshot. */
  function GateOf(snapshot: Snapshot, verb: string, route: string): Option<State> {
    match Lookup(snapshot.gates, verb, route) case Some(f) => Some(StateOf(snapshot, f)) case None => None
  }

  predicate RowSays(stored: map<string, string>, key: string, on: bool) {
    key in stored && if on then SaysOn(stored[key]) else SaysOff(stored[key])
  }

  /** The feature's row says off, or says nothing and the build turns the feature off. */
  predicate TurnedOff(build: Build, stored: map<string, string>, f: Feature) {
    RowSays(stored, "is_" + f + "_enabled", false)
    || (!RowSays(stored, "is_" + f + "_enabled", true) && f in build.defaults && !build.defaults[f].enabled)
  }

  /** A row that is there and not blank. */
  predicate Written(stored: map<string, string>, key: string) { key in stored && !Blank(stored[key]) }

  /**
   * Which features there are and what each says, row by row: a feature is on unless turned off, and its two texts
   * are those of its own two rows where these are not blank, else the build's, else the generic ones.
   */
  lemma StatesReadTheirRows(build: Build, stored: map<string, string>, out: Snapshot, f: Feature)
    requires Registered(build) && IsOverlay(build, stored, out)
    ensures f in out.states <==> f in build.defaults || (f != "" && "is_" + f + "_enabled" in stored)
    ensures f in out.states ==> out.states[f].feature == f
    ensures f in out.states ==> (out.states[f].enabled <==> !TurnedOff(build, stored, f))
    ensures f in out.states ==>
      out.states[f].title ==
        if Written(stored, f + "_coming_soon_title") then stored[f + "_coming_soon_title"]
        else if f in build.defaults then build.defaults[f].title else "Coming soon"
    ensures f in out.states ==>
      out.states[f].message ==
        if Written(stored, f + "_coming_soon_message") then stored[f + "_coming_soon_message"]
        else if f in build.defaults then build.defaults[f].message
        else "This feature will be available soon. Please check back later."
  {
    if EnabledKey(f) in stored { FlagWords(stored[EnabledKey(f)]); }
    if TitleKey(f) in stored { BlankIsEmpty(stored[TitleKey(f)]); }
    if MessageKey(f) in stored { BlankIsEmpty(stored[MessageKey(f)]); }
  }

  /** The bypass set names exactly the fields of its own row, letter case and white space aside. */
  lemma BypassReadsItsRow(build: Build, stored: map<string, string>, out: Snapshot, caller: string)
    requires IsOverlay(build, stored, out)
    ensures Bypasses(out.bypass, caller) <==>
      !Blank(caller) && "feature_gate_bypass_emails" in stored && Names(stored["feature_gate_bypass_emails"], caller)
  {
    BlankIsEmpty(caller);
    assert |Folded(caller)| == |TrimSpace(caller)|;
    forall f ensures Folded(f) == Folded(caller) <==> SameLetters(TrimSpace(f), TrimSpace(caller)) {
      CaseFolds(TrimSpace(f), TrimSpace(caller));
    }
  }

  ghost predicate Names(row: string, caller: string) {
    exists f :: f in Fields(row) && SameLetters(TrimSpace(f), TrimSpace(caller))
  }

  /** A feature is off only if its own flag says so, or says nothing and the build turns it off. */
  lemma OffForAReason(build: Build, stored: map<string, string>, out: Snapshot, f: Feature)
    requires Registered(build) && IsOverlay(build, stored, out) && (f != "" || f in build.defaults)
    ensures StateOf(out, f).feature == f
    ensures StateOf(out, f).enabled <==> !TurnedOff(build, stored, f)
  {
    StatesReadTheirRows(build, stored, out, f);
  }

  /** The mapping that governs routes lists `route` under `f`. */
  ghost predicate Governs(build: Build, stored: map<string, string>, f: Feature, route: string) {
    if "feature_gates" in stored && build.decode(stored["feature_gates"]).Some? then
      exists name :: Claims(build.decode(stored["feature_gates"]).value, name, route) && TrimSpace(name) == f
    else route in build.gates && build.gates[route] == f
  }

  lemma GatesGovern(build: Build, stored: map<string, string>, gates: GateMap, route: string)
    requires GatesInForce(build, stored, gates)
    ensures route in gates ==> Governs(build, stored, gates[route], route)
    ensures (exists f :: Governs(build, stored, f, route)) ==> route in gates
  {
    if GATE_MAP_KEY in stored && build.decode(stored[GATE_MAP_KEY]).Some? {
      var listed := build.decode(stored[GATE_MAP_KEY]).value;
      var order :| Enumerates(order, listed.Keys) && gates == GatesInOrder(listed, order);
      GatedByAClaimant(listed, order, route);
    }
  }

  /** A request meets a gate exactly where the mapping in force lists its route for its verb or for all. */
  lemma GatedWhereListed(build: Build, stored: map<string, string>, out: Snapshot, verb: string, route: string)
    requires IsOverlay(build, stored, out) && route != ""
    ensures GateOf(out, verb, route).Some? <==>
      exists f :: Governs(build, stored, f, ToUpper(verb) + " " + route) || Governs(build, stored, f, "* " + route)
  {
    GatesGovern(build, stored, out.gates, ToUpper(verb) + " " + route);
    GatesGovern(build, stored, out.gates, "* " + route);
  }

  /**
   * A request meets a closed gate only where the mapping in force lists its route, for its verb or for all,
   * under a feature whose own flag says off or, saying nothing, which the build turns off.
   */
  lemma ClosedForAReason(build: Build, stored: map<string, string>, out: Snapshot, verb: string, route: string)
    requires Registered(build) && IsOverlay(build, stored, out)
    requires GateOf(out, verb, route).Some? && !GateOf(out, verb, route).value.enabled
    ensures var f := GateOf(out, verb, route).value.feature;
      (Governs(build, stored, f, ToUpper(verb) + " " + route) || Governs(build, stored, f, "* " + route)) &&
      TurnedOff(build, stored, f)
  {
    var f := Lookup(out.gates, verb, route).value;
    OffForAReason(build, stored, out, f);
    if ToUpper(verb) + " " + route in out.gates {
      GatesGovern(build, stored, out.gates, ToUpper(verb) + " " + route);
    } else {
      GatesGovern(build, stored, out.gates, "* " + route);
    }
  }

  /** A feature's state depends on the feature's own three rows. */
  lemma StateFollowsItsRows(build: Build, stored: map<string, string>, other: map<string, string>,
                            a: Snapshot, b: Snapshot, f: Feature)
    requires IsOverlay(build, stored, a) && IsOverlay(build, other, b)
    requires forall key :: key in {EnabledKey(f), TitleKey(f), MessageKey(f)} ==>
      (key in stored <==> key in other) && (key in stored ==> stored[key] == other[key])
    requires Registered(build)
    ensures StateOf(a, f) == StateOf(b, f)
  {
    assert Known(build, stored, f) <==> Known(build, other, f);
    if Known(build, stored, f) { assert Base(build, f).feature == f; }
  }

  /** Writing one row changes at most one feature, and then the row is one of that feature's three. */
  lemma RowReachesOneFeature(build: Build, stored: map<string, string>, key: string, value: string,
                             a: Snapshot, b: Snapshot, f: Feature, g: Feature)
    requires Registered(build) && IsOverlay(build, stored, a) && IsOverlay(build, stored[key := value], b)
    ensures StateOf(a, f) != StateOf(b, f) ==> key in {EnabledKey(f), TitleKey(f), MessageKey(f)}
    ensures f != g ==> StateOf(a, f) == StateOf(b, f) || StateOf(a, g) == StateOf(b, g)
  {
    if key !in {EnabledKey(f), TitleKey(f), MessageKey(f)} {
      StateFollowsItsRows(build, stored, stored[key := value], a, b, f);
    }
    if key !in {EnabledKey(g), TitleKey(g), MessageKey(g)} {
      StateFollowsItsRows(build, stored, stored[key := value], a, b, g);
    }
    KeysAreApart(f, g);
    KeysAreApart(g, f);
  }
}
