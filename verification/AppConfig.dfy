/** The rows GET /app-configs serves: redacted, filled with defaults, sorted, unhidden for testers. */
module AppConfig {
  import opened Text
  import opened FeatureKeys
  import FeatureGates
  import opened FeatureOverlay

  datatype Audit = Audit(createdBy: string, createdOn: string, updatedBy: string, updatedOn: string)

  datatype Config = Config(key: string, value: string, audit: Audit)

  const NO_AUDIT := Audit("", "", "", "")
  const SHOP_HIDDEN_KEY := "is_shop_hidden"
  const SHOP_HIDDEN_DEFAULT := "0"
  const FEATURE_ENABLED := "1"
  const FEATURE_DISABLED := "0"
  const WALLET_KEY := "merchantWalletAddress"

  type States = map<Feature, State>

  predicate Redacted(key: string) { key == BYPASS_KEY }

  ghost predicate HasKey(rows: seq<Config>, key: string) { exists i :: 0 <= i < |rows| && rows[i].key == key }

  predicate UniqueKeys(rows: seq<Config>) {
    forall i, j :: 0 <= i < j < |rows| ==> rows[i].key != rows[j].key
  }

  predicate Sorted(rows: seq<Config>) {
    forall i, j :: 0 <= i < j < |rows| ==> Less(rows[i].key, rows[j].key)
  }

  // ----- what is served -----

  function FlagRow(s: State, f: Feature): Config {
    Config(EnabledKey(f), if s.enabled then FEATURE_ENABLED else FEATURE_DISABLED, NO_AUDIT)
  }

  function TitleRow(s: State, f: Feature): Config { Config(TitleKey(f), s.title, NO_AUDIT) }

  function MessageRow(s: State, f: Feature): Config { Config(MessageKey(f), s.message, NO_AUDIT) }

  const SHOP_HIDDEN_ROW := Config(SHOP_HIDDEN_KEY, SHOP_HIDDEN_DEFAULT, NO_AUDIT)

  predicate IsRowOf(row: Config, s: State, f: Feature) {
    row == FlagRow(s, f) || row == TitleRow(s, f) || row == MessageRow(s, f)
  }

  ghost predicate IsDefault(states: States, row: Config) {
    row == SHOP_HIDDEN_ROW || exists f :: f in states && IsRowOf(row, states[f], f)
  }

  /** What an ordinary caller is served: the stored rows not held back, and defaults for missing keys. */
  ghost predicate Served(states: States, stored: seq<Config>, row: Config) {
    !Redacted(row.key) && (row in stored || (IsDefault(states, row) && !HasKey(stored, row.key)))
  }

  ghost predicate IsFlag(states: States, key: string) {
    exists f :: f in states && key == EnabledKey(f)
  }

  ghost function Unhidden(states: States, row: Config): Config {
    if IsFlag(states, row.key) then row.(value := FEATURE_ENABLED) else row
  }

  // ----- redact -----

  ghost function Kept(rows: seq<Config>): seq<Config> {
    if rows == [] then []
    else
      var last := rows[|rows| - 1];
      if Redacted(last.key) then Kept(rows[..|rows| - 1]) else Kept(rows[..|rows| - 1]) + [last]
  }

  /** Compaction in the slice's own array: survivors keep their order. */
  method Redact(configs: array<Config>) returns (n: nat)
    modifies configs
    ensures n <= configs.Length && configs[..n] == Kept(old(configs[..]))
  {
    n := 0;
    ghost var was := configs[..];
    for i := 0 to configs.Length
      invariant n <= i
      invariant configs[..n] == Kept(was[..i])
      invariant configs[i..] == was[i..]
    {
      assert was[..i + 1][..i] == was[..i];
      assert configs[i] == configs[i..][0] == was[i];
      if !Redacted(configs[i].key) {
        configs[n] := configs[i];
        n := n + 1;
        assert configs[..n] == configs[..n - 1] + [was[i]];
      }
      assert configs[i + 1..] == was[i + 1..];
    }
    assert was[..|was|] == was;
  }

  lemma {:induction false} KeptRows(rows: seq<Config>, row: Config)
    requires UniqueKeys(rows)
    ensures row in Kept(rows) <==> row in rows && !Redacted(row.key)
    ensures UniqueKeys(Kept(rows))
  {
    if rows == [] {
    } else {
      var init, last := rows[..|rows| - 1], rows[|rows| - 1];
      assert rows == init + [last];
      KeptRows(init, row);
      KeptFrom(init);
      assert forall i :: 0 <= i < |init| ==> init[i].key == rows[i].key != last.key;
    }
  }

  lemma {:induction false} KeptFrom(rows: seq<Config>)
    ensures forall i :: 0 <= i < |Kept(rows)| ==> Kept(rows)[i] in rows
  {
    if rows == [] {
    } else {
      KeptFrom(rows[..|rows| - 1]);
      assert rows == rows[..|rows| - 1] + [rows[|rows| - 1]];
    }
  }

  // ----- withDefaults -----

  lemma FixedKeysApart(f: Feature)
    ensures SHOP_HIDDEN_KEY !in {EnabledKey(f), TitleKey(f), MessageKey(f)}
    ensures WALLET_KEY !in {EnabledKey(f), TitleKey(f), MessageKey(f)}
    ensures BYPASS_KEY !in {EnabledKey(f), TitleKey(f), MessageKey(f)}
  {
    assert EnabledKey(f)[|EnabledKey(f)| - 1] == 'd';
    assert TitleKey(f)[|TitleKey(f)| - 1] == 'e' && MessageKey(f)[|MessageKey(f)| - 1] == 'e';
  }

  lemma FeatureRowKey(row: Config, s: State, f: Feature)
    requires IsRowOf(row, s, f)
    ensures row.key != SHOP_HIDDEN_KEY && row.key != WALLET_KEY && !Redacted(row.key)
  {
    FixedKeysApart(f);
  }

  lemma FeatureRowsApart(a: Config, s: State, f: Feature, b: Config, t: State, g: Feature)
    requires IsRowOf(a, s, f) && IsRowOf(b, t, g) && a.key == b.key && (f == g ==> s == t)
    ensures a == b
  {
    KeysAreApart(f, g);
    KeysAreApart(g, f);
  }

  /** A key has at most one default, and the redacted key none, whatever the features are called. */
  lemma DefaultsAreFunctional(states: States, a: Config, b: Config)
    requires IsDefault(states, a)
    ensures IsDefault(states, b) && a.key == b.key ==> a == b
    ensures !Redacted(a.key) && a.key != WALLET_KEY
  {
    if IsDefault(states, b) && b != SHOP_HIDDEN_ROW {
      var g :| g in states && IsRowOf(b, states[g], g);
      FeatureRowKey(b, states[g], g);
      if a != SHOP_HIDDEN_ROW && a.key == b.key {
        var f :| f in states && IsRowOf(a, states[f], f);
        FeatureRowsApart(a, states[f], f, b, states[g], g);
      }
    }
    if a != SHOP_HIDDEN_ROW {
      var f :| f in states && IsRowOf(a, states[f], f);
      FeatureRowKey(a, states[f], f);
    }
  }

  ghost predicate Filled(states: States, kept: seq<Config>, present: set<string>, rows: seq<Config>) {
    && UniqueKeys(rows) && kept <= rows
    && (forall key :: key in present <==> HasKey(rows, key))
    && (forall i :: |kept| <= i < |rows| ==> IsDefault(states, rows[i]))
  }

  method AppendIfMissing(ghost states: States, ghost kept: seq<Config>, present: set<string>, configs: seq<Config>,
                         row: Config)
    returns (present': set<string>, configs': seq<Config>)
    requires Filled(states, kept, present, configs) && IsDefault(states, row)
    ensures Filled(states, kept, present', configs') && present' == present + {row.key}
  {
    if row.key in present { return present + {row.key}, configs; }
    present', configs' := present + {row.key}, configs + [row];
    forall key
      ensures key in present' <==> HasKey(configs', key)
    {
      if HasKey(configs, key) { var i :| 0 <= i < |configs| && configs[i].key == key; assert configs'[i].key == key; }
      if key == row.key { assert configs'[|configs|].key == key; }
    }
  }

  ghost predicate FeatureFilled(present: set<string>, f: Feature) {
    EnabledKey(f) in present && TitleKey(f) in present && MessageKey(f) in present
  }

  method FillDefaults(states: States, kept: seq<Config>) returns (present: set<string>, configs: seq<Config>)
    requires UniqueKeys(kept)
    ensures Filled(states, kept, present, configs)
    ensures SHOP_HIDDEN_KEY in present && forall f :: f in states ==> FeatureFilled(present, f)
  {
    present := set i | 0 <= i < |kept| :: kept[i].key;
    present, configs := AppendIfMissing(states, kept, present, kept, SHOP_HIDDEN_ROW);
    var pending := states.Keys;
    while pending != {}
      invariant pending <= states.Keys
      invariant Filled(states, kept, present, configs)
      invariant SHOP_HIDDEN_KEY in present && forall f :: f in states && f !in pending ==> FeatureFilled(present, f)
      decreases |pending|
    {
      var f :| f in pending;
      pending := pending - {f};
      assert IsRowOf(FlagRow(states[f], f), states[f], f);
      present, configs := AppendIfMissing(states, kept, present, configs, FlagRow(states[f], f));
      assert IsRowOf(TitleRow(states[f], f), states[f], f);
      present, configs := AppendIfMissing(states, kept, present, configs, TitleRow(states[f], f));
      assert IsRowOf(MessageRow(states[f], f), states[f], f);
      present, configs := AppendIfMissing(states, kept, present, configs, MessageRow(states[f], f));
    }
  }

  /** sort.Slice by key. */
  function InsertByKey(row: Config, rows: seq<Config>): seq<Config> {
    if rows == [] || Less(row.key, rows[0].key) then [row] + rows
    else [rows[0]] + InsertByKey(row, rows[1..])
  }

  function SortByKey(rows: seq<Config>): seq<Config> {
    if rows == [] then [] else InsertByKey(rows[0], SortByKey(rows[1..]))
  }

  lemma {:induction false} InsertedRows(row: Config, rows: seq<Config>, x: Config)
    ensures x in InsertByKey(row, rows) <==> x == row || x in rows
  {
    if rows != [] && !Less(row.key, rows[0].key) { InsertedRows(row, rows[1..], x); }
    assert rows != [] ==> (x in rows <==> x == rows[0] || x in rows[1..]);
  }

  lemma {:induction false} InsertKeepsSorted(row: Config, rows: seq<Config>)
    requires Sorted(rows) && !HasKey(rows, row.key)
    ensures Sorted(InsertByKey(row, rows))
  {
    if rows == [] {
    } else {
      var rest := rows[1..];
      assert rows[0].key != row.key;
      assert forall i :: 0 <= i < |rest| ==> rest[i] == rows[i + 1];
      LessTotal(row.key, rows[0].key);
      if Less(row.key, rows[0].key) {
        forall i | 0 <= i < |rest|
          ensures Less(row.key, rest[i].key)
        {
          LessTransitive(row.key, rows[0].key, rest[i].key);
        }
      } else {
        var tail := InsertByKey(row, rest);
        InsertKeepsSorted(row, rest);
        forall i | 0 <= i < |tail|
          ensures Less(rows[0].key, tail[i].key)
        {
          InsertedRows(row, rest, tail[i]);
        }
      }
    }
  }

  lemma {:induction false} SortedRows(rows: seq<Config>, x: Config)
    ensures x in SortByKey(rows) <==> x in rows
  {
    if rows == [] {
    } else {
      SortedRows(rows[1..], x);
      InsertedRows(rows[0], SortByKey(rows[1..]), x);
      assert x in rows <==> x == rows[0] || x in rows[1..];
    }
  }

  lemma {:induction false} SortSorts(rows: seq<Config>)
    requires UniqueKeys(rows)
    ensures Sorted(SortByKey(rows))
  {
    if rows == [] {
    } else {
      var rest := SortByKey(rows[1..]);
      SortSorts(rows[1..]);
      forall i | 0 <= i < |rest|
        ensures rest[i].key != rows[0].key
      {
        SortedRows(rows[1..], rest[i]);
      }
      InsertKeepsSorted(rows[0], rest);
    }
  }

  ghost predicate Completed(states: States, kept: seq<Config>, row: Config) {
    row in kept || (IsDefault(states, row) && !HasKey(kept, row.key))
  }

  lemma FilledIsCompleted(states: States, kept: seq<Config>, present: set<string>, rows: seq<Config>, row: Config)
    requires Filled(states, kept, present, rows)
    requires SHOP_HIDDEN_KEY in present && forall f :: f in states ==> FeatureFilled(present, f)
    ensures row in rows <==> Completed(states, kept, row)
  {
    if row in rows {
      var i :| 0 <= i < |rows| && rows[i] == row;
      assert forall j :: 0 <= j < |kept| ==> kept[j] == rows[j];
    } else if IsDefault(states, row) && !HasKey(kept, row.key) {
      assert row.key in present;
      var i :| 0 <= i < |rows| && rows[i].key == row.key;
      assert forall j :: 0 <= j < |kept| ==> kept[j] == rows[j];
      DefaultsAreFunctional(states, rows[i], row);
    }
  }

  /** Stored rows win; each missing key gets its one default; the result is in key order. */
  method WithDefaults(states: States, kept: seq<Config>) returns (rows: seq<Config>)
    requires UniqueKeys(kept)
    ensures Sorted(rows)
    ensures forall row :: row in rows <==> Completed(states, kept, row)
  {
    var present, configs := FillDefaults(states, kept);
    rows := SortByKey(configs);
    SortSorts(configs);
    forall row
      ensures row in rows <==> Completed(states, kept, row)
    {
      SortedRows(configs, row);
      FilledIsCompleted(states, kept, present, configs, row);
    }
  }

  // ----- unhideForBypass -----

  /** Overwrites, in place, the value of every known feature's flag. */
  method Unhide(states: States, configs: array<Config>)
    modifies configs
    ensures forall i :: 0 <= i < configs.Length ==> configs[i] == Unhidden(states, old(configs[i]))
  {
    var enabledKeys := set f | f in states :: EnabledKey(f);
    for i := 0 to configs.Length
      invariant forall j :: 0 <= j < i ==> configs[j] == Unhidden(states, old(configs[j]))
      invariant forall j :: i <= j < configs.Length ==> configs[j] == old(configs[j])
    {
      if configs[i].key in enabledKeys && configs[i].value != FEATURE_ENABLED {
        configs[i] := configs[i].(value := FEATURE_ENABLED);
      }
    }
  }

  // ----- the pipeline -----

  ghost predicate Response(states: States, stored: seq<Config>, allowlisted: bool, rows: seq<Config>) {
    Sorted(rows) &&
    forall row :: row in rows <==>
      if allowlisted then exists r :: Served(states, stored, r) && row == Unhidden(states, r)
      else Served(states, stored, row)
  }

  lemma CompletedIsServed(states: States, stored: seq<Config>, row: Config)
    requires UniqueKeys(stored)
    ensures Completed(states, Kept(stored), row) <==> Served(states, stored, row)
  {
    KeptRows(stored, row);
    KeptFrom(stored);
    if IsDefault(states, row) {
      DefaultsAreFunctional(states, row, row);
      assert HasKey(Kept(stored), row.key) <==> HasKey(stored, row.key) by {
        if HasKey(stored, row.key) {
          var i :| 0 <= i < |stored| && stored[i].key == row.key;
          KeptRows(stored, stored[i]);
        }
      }
    }
  }

  /** The handler's rows before the wallet is appended. */
  method Respond(fetched: array<Config>, states: States, bypass: set<string>, caller: Option<string>)
    returns (rows: seq<Config>)
    requires UniqueKeys(fetched[..])
    modifies fetched
    ensures var known := caller.Some? && !Blank(caller.value) && ToLower(TrimSpace(caller.value)) in bypass;
      Response(states, old(fetched[..]), known && states != map[], rows)
  {
    ghost var stored := fetched[..];
    if caller.Some? {
      BlankIsEmpty(caller.value);
      assert |FeatureGates.Folded(caller.value)| == |TrimSpace(caller.value)|;
    }
    var n := Redact(fetched);
    KeptRows(stored, SHOP_HIDDEN_ROW);
    rows := WithDefaults(states, fetched[..n]);
    forall row
      ensures row in rows <==> Served(states, stored, row)
    {
      CompletedIsServed(states, stored, row);
    }
    if Allowlisted(states, bypass, caller) {
      ghost var ordinary := rows;
      var configs := new Config[|rows|](i requires 0 <= i < |rows| => rows[i]);
      Unhide(states, configs);
      rows := configs[..];
      UnhiddenResponse(states, stored, ordinary, rows);
    }
  }

  lemma UnhiddenResponse(states: States, stored: seq<Config>, ordinary: seq<Config>, rows: seq<Config>)
    requires Response(states, stored, false, ordinary) && |rows| == |ordinary|
    requires forall i :: 0 <= i < |rows| ==> rows[i] == Unhidden(states, ordinary[i])
    ensures Response(states, stored, true, rows)
  {
    assert Sorted(rows) by { assert forall i :: 0 <= i < |rows| ==> rows[i].key == ordinary[i].key; }
    forall row
      ensures row in rows <==> exists r :: Served(states, stored, r) && row == Unhidden(states, r)
    {
      if row in rows {
        var i :| 0 <= i < |rows| && rows[i] == row;
        assert ordinary[i] in ordinary && Served(states, stored, ordinary[i]);
      }
      if r :| Served(states, stored, r) && row == Unhidden(states, r) {
        var i :| 0 <= i < |ordinary| && ordinary[i] == r;
        assert rows[i] == row;
      }
    }
  }

  predicate Allowlisted(states: States, bypass: set<string>, caller: Option<string>) {
    |states| > 0 && caller.Some? && FeatureGates.Bypasses(bypass, caller.value)
  }

  function WalletRow(wallet: string): seq<Config> {
    if wallet == "" then [] else [Config(WALLET_KEY, wallet, NO_AUDIT)]
  }

  // ----- what every caller can rely on -----

  const BLANK_AUDIT := Audit("", "", "", "")

  /** The row served for a key of feature `f` that no stored row has. */
  ghost predicate FillsIn(states: States, row: Config) {
    row == Config("is_shop_hidden", "0", BLANK_AUDIT) || exists f :: f in states && Tells(row, f, states[f])
  }

  predicate Tells(row: Config, f: Feature, s: State) {
    row in {Config("is_" + f + "_enabled", if s.enabled then "1" else "0", BLANK_AUDIT),
            Config(f + "_coming_soon_title", s.title, BLANK_AUDIT),
            Config(f + "_coming_soon_message", s.message, BLANK_AUDIT)}
  }

  /** Every stored row but the allowlist's, and the snapshot's own row for each key that has none. */
  ghost predicate Offered(states: States, stored: seq<Config>, row: Config) {
    row.key != "feature_gate_bypass_emails" && (row in stored || (FillsIn(states, row) && !HasKey(stored, row.key)))
  }

  ghost predicate FlagOf(states: States, key: string) { exists f :: f in states && key == "is_" + f + "_enabled" }

  /** What the two kinds of callers are served: the rows offered, for a tester with every flag of the snapshot at 1. */
  lemma ResponseMeans(states: States, stored: seq<Config>, rows: seq<Config>)
    ensures Response(states, stored, false, rows) ==> forall row :: row in rows <==> Offered(states, stored, row)
    ensures Response(states, stored, true, rows) ==>
      forall row :: row in rows <==> exists r :: Offered(states, stored, r) && AsShown(states, r, row)
  {
    forall row ensures Served(states, stored, row) <==> Offered(states, stored, row) {
      FillsInIsDefault(states, row);
    }
    forall r, row ensures row == Unhidden(states, r) <==> AsShown(states, r, row) {
      assert IsFlag(states, r.key) <==> FlagOf(states, r.key);
    }
  }

  ghost predicate AsShown(states: States, r: Config, row: Config) {
    row == if FlagOf(states, r.key) then Config(r.key, "1", r.audit) else r
  }

  lemma FillsInIsDefault(states: States, row: Config)
    ensures FillsIn(states, row) <==> IsDefault(states, row)
  {
    assert forall f :: f in states ==> (IsRowOf(row, states[f], f) <==> Tells(row, f, states[f]));
  }

  /** `table` holds the value of each stored row. */
  ghost predicate Tabulates(stored: seq<Config>, table: map<string, string>) {
    && (forall key :: key in table <==> HasKey(stored, key))
    && (forall i :: 0 <= i < |stored| ==> stored[i].key in table && table[stored[i].key] == stored[i].value)
  }

  /**
   * An ordinary caller who reads the rows reads the snapshot: a served flag says what the snapshot says, or is a
   * stored row that says nothing; a served text is the snapshot's, or a stored one that is blank.
   */
  lemma ClientReadsTheSnapshot(build: Build, table: map<string, string>, out: Snapshot, stored: seq<Config>,
                               rows: seq<Config>, row: Config, f: Feature)
    requires Registered(build) && IsOverlay(build, table, out) && Tabulates(stored, table)
    requires Response(out.states, stored, false, rows) && f in out.states && row in rows
    ensures row.key == "is_" + f + "_enabled" ==>
      (if out.states[f].enabled then SaysOn(row.value) else SaysOff(row.value))
      || (row in stored && !SaysOn(row.value) && !SaysOff(row.value))
    ensures row.key == f + "_coming_soon_title" ==>
      row.value == out.states[f].title || (row in stored && Blank(row.value))
    ensures row.key == f + "_coming_soon_message" ==>
      row.value == out.states[f].message || (row in stored && Blank(row.value))
  {
    StatesReadTheirRows(build, table, out, f);
    assert Served(out.states, stored, row);
    FlagWords(row.value);
    if row in stored {
      var i :| 0 <= i < |stored| && stored[i] == row;
      assert table[row.key] == row.value;
    } else {
      DefaultSaysSo(out.states, row, f);
    }
  }

  lemma DefaultSaysSo(states: States, row: Config, f: Feature)
    requires IsDefault(states, row) && f in states
    ensures row.key == EnabledKey(f) ==> if states[f].enabled then SaysOn(row.value) else SaysOff(row.value)
    ensures row.key == TitleKey(f) ==> row.value == states[f].title
    ensures row.key == MessageKey(f) ==> row.value == states[f].message
  {
    assert IsRowOf(FlagRow(states[f], f), states[f], f) && IsRowOf(TitleRow(states[f], f), states[f], f);
    assert IsRowOf(MessageRow(states[f], f), states[f], f);
    DefaultsAreFunctional(states, row, FlagRow(states[f], f));
    DefaultsAreFunctional(states, row, TitleRow(states[f], f));
    DefaultsAreFunctional(states, row, MessageRow(states[f], f));
    TrimmedIsFixed("1");
    TrimmedIsFixed("0");
    assert SaysOn("1") && SaysOff("0");
  }

  /** Stored rows reach an ordinary caller as stored; a tester sees only flags changed, and every flag on. */
  lemma StoredRowsSurvive(states: States, stored: seq<Config>, allowlisted: bool, rows: seq<Config>, row: Config)
    requires Response(states, stored, allowlisted, rows) && row in stored && !Redacted(row.key)
    ensures !allowlisted || !IsFlag(states, row.key) ==> row in rows
    ensures allowlisted && IsFlag(states, row.key) ==> row.(value := FEATURE_ENABLED) in rows
  {
    assert Served(states, stored, row);
    assert allowlisted ==> Unhidden(states, row) in rows;
  }

  ghost predicate ServedOnce(rows: seq<Config>, key: string) {
    HasKey(rows, key) && forall i, j :: 0 <= i < |rows| && 0 <= j < |rows| && rows[i].key == key == rows[j].key ==>
      i == j
  }

  lemma KeysAreServedOnce(rows: seq<Config>, key: string)
    requires Sorted(rows) && HasKey(rows, key)
    ensures ServedOnce(rows, key)
  {
    LessIrreflexive(key);
  }

  lemma DefaultKeyIsServed(states: States, stored: seq<Config>, allowlisted: bool, rows: seq<Config>, row: Config)
    requires Response(states, stored, allowlisted, rows) && IsDefault(states, row)
    ensures ServedOnce(rows, row.key)
  {
    DefaultsAreFunctional(states, row, row);
    var r := row;
    if HasKey(stored, row.key) {
      var i :| 0 <= i < |stored| && stored[i].key == row.key;
      r := stored[i];
    }
    assert Served(states, stored, r);
    var shown := if allowlisted then Unhidden(states, r) else r;
    assert shown in rows && shown.key == row.key;
    KeysAreServedOnce(rows, row.key);
  }

  /** Each feature of the snapshot has its three rows exactly once, and so has the tab-bar key. */
  lemma EveryFeatureOnce(states: States, stored: seq<Config>, allowlisted: bool, rows: seq<Config>, f: Feature)
    requires Response(states, stored, allowlisted, rows) && f in states
    ensures ServedOnce(rows, EnabledKey(f)) && ServedOnce(rows, TitleKey(f)) && ServedOnce(rows, MessageKey(f))
    ensures ServedOnce(rows, SHOP_HIDDEN_KEY)
  {
    assert IsRowOf(FlagRow(states[f], f), states[f], f);
    assert IsRowOf(TitleRow(states[f], f), states[f], f);
    assert IsRowOf(MessageRow(states[f], f), states[f], f);
    DefaultKeyIsServed(states, stored, allowlisted, rows, FlagRow(states[f], f));
    DefaultKeyIsServed(states, stored, allowlisted, rows, TitleRow(states[f], f));
    DefaultKeyIsServed(states, stored, allowlisted, rows, MessageRow(states[f], f));
    DefaultKeyIsServed(states, stored, allowlisted, rows, SHOP_HIDDEN_ROW);
  }

  /** The held-back row is never served, and a tester reads "1" on every flag. */
  lemma NothingLeaksAndFlagsReadOn(states: States, stored: seq<Config>, allowlisted: bool, rows: seq<Config>,
                                   row: Config)
    requires Response(states, stored, allowlisted, rows) && row in rows
    ensures !Redacted(row.key)
    ensures allowlisted && IsFlag(states, row.key) ==> row.value == FEATURE_ENABLED
    ensures !IsFlag(states, row.key) ==> row in stored || IsDefault(states, row)
  {}

  /** With the wallet, if there is one, appended, keys stay unique exactly when no stored row already has its key. */
  lemma WalletKeyIsFresh(states: States, stored: seq<Config>, allowlisted: bool, rows: seq<Config>, wallet: string)
    requires Response(states, stored, allowlisted, rows)
    ensures wallet == "" ==> rows + WalletRow(wallet) == rows
    ensures wallet != "" ==> rows + WalletRow(wallet) == rows + [Config("merchantWalletAddress", wallet, BLANK_AUDIT)]
    ensures wallet != "" ==> (UniqueKeys(rows + WalletRow(wallet)) <==> !HasKey(stored, "merchantWalletAddress"))
  {
    if wallet != "" { AppendedWallet(states, stored, allowlisted, rows, wallet); }
  }

  lemma AppendedWallet(states: States, stored: seq<Config>, allowlisted: bool, rows: seq<Config>, wallet: string)
    requires Response(states, stored, allowlisted, rows) && wallet != ""
    ensures UniqueKeys(rows + WalletRow(wallet)) <==> !HasKey(stored, WALLET_KEY)
  {
    var all := rows + WalletRow(wallet);
    if HasKey(stored, WALLET_KEY) {
      var i :| 0 <= i < |stored| && stored[i].key == WALLET_KEY;
      assert Served(states, stored, stored[i]);
      var shown := if allowlisted then Unhidden(states, stored[i]) else stored[i];
      assert shown in rows;
      var k :| 0 <= k < |rows| && rows[k] == shown;
      assert all[k].key == all[|rows|].key;
    } else {
      forall i | 0 <= i < |rows|
        ensures rows[i].key != WALLET_KEY
      {
        var r :| Served(states, stored, r) && r.key == rows[i].key;
        if r.key == WALLET_KEY { assert IsDefault(states, r); DefaultsAreFunctional(states, r, r); }
      }
      forall i, j | 0 <= i < j < |all|
        ensures all[i].key != all[j].key
      {
        LessIrreflexive(all[i].key);
      }
    }
  }
}
