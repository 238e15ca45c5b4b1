/** The stored route mapping and bypass list, read in whatever order Go's maps iterate. */
module FeatureGates {
  import opened Text
  import opened FeatureKeys

  /** Which feature governs a normalised "<verb> <path>" pattern. */
  type GateMap = map<string, Feature>

  /** The decoded JSON row: feature names, each with its route patterns. */
  type Stored = map<string, seq<string>>

  ghost predicate Lists(patterns: seq<string>, route: string) {
    exists p :: p in patterns && NormaliseRoute(p) == Some(route)
  }

  /** The name, once trimmed, claims the route. */
  ghost predicate Claims(stored: Stored, name: string, route: string) {
    name in stored && TrimSpace(name) != "" && Lists(stored[name], route)
  }

  /** No route is claimed under two different features. */
  ghost predicate Unambiguous(stored: Stored) {
    forall a, b, route :: Claims(stored, a, route) && Claims(stored, b, route) ==> TrimSpace(a) == TrimSpace(b)
  }

  ghost predicate Enumerates(order: seq<string>, keys: set<string>) {
    (forall k :: k in order <==> k in keys) && (forall i, j :: 0 <= i < j < |order| ==> order[i] != order[j])
  }

  ghost function Put(gates: GateMap, f: Feature, route: Option<string>): GateMap {
    if route.Some? then gates[route.value := f] else gates
  }

  ghost function WithRoutes(gates: GateMap, f: Feature, patterns: seq<string>): GateMap {
    if patterns == [] then gates
    else Put(WithRoutes(gates, f, patterns[..|patterns| - 1]), f, NormaliseRoute(patterns[|patterns| - 1]))
  }

  /** What the nested loops build when the names come in this order. */
  ghost function GatesInOrder(stored: Stored, order: seq<string>): GateMap
    requires forall k :: k in order ==> k in stored
  {
    if order == [] then map[]
    else
      var name := order[|order| - 1];
      var before := GatesInOrder(stored, order[..|order| - 1]);
      if TrimSpace(name) == "" then before else WithRoutes(before, TrimSpace(name), stored[name])
  }

  /** The inner loop: one name's patterns, in the order of its list. */
  method AddRoutes(before: GateMap, f: Feature, patterns: seq<string>) returns (gates: GateMap)
    ensures gates == WithRoutes(before, f, patterns)
  {
    gates := before;
    for i := 0 to |patterns|
      invariant gates == WithRoutes(before, f, patterns[..i])
    {
      assert patterns[..i + 1][..i] == patterns[..i];
      var route := NormaliseRoute(patterns[i]);
      if route.Some? { gates := gates[route.value := f]; }
    }
    assert patterns[..|patterns|] == patterns;
  }

  /** parseGateMap after decoding: some iteration order, and nothing else, decides the result. */
  method ParseGateMap(stored: Stored) returns (gates: GateMap)
    ensures exists order :: Enumerates(order, stored.Keys) && gates == GatesInOrder(stored, order)
  {
    gates := map[];
    var pending := stored.Keys;
    ghost var order := [];
    while pending != {}
      invariant pending <= stored.Keys
      invariant Enumerates(order, stored.Keys - pending)
      invariant gates == GatesInOrder(stored, order)
      decreases |pending|
    {
      var key :| key in pending;
      var name := TrimSpace(key);
      ghost var next := order + [key];
      assert next[..|next| - 1] == order;
      if name != "" { gates := AddRoutes(gates, name, stored[key]); }
      order, pending := next, pending - {key};
    }
    assert stored.Keys - pending == stored.Keys;
  }

  lemma ListsSplit(init: seq<string>, p: string, route: string)
    ensures Lists(init + [p], route) <==> Lists(init, route) || NormaliseRoute(p) == Some(route)
  {
    var patterns := init + [p];
    if q :| q in patterns && NormaliseRoute(q) == Some(route) {
      assert q in init || q == p;
    }
    if q :| q in init && NormaliseRoute(q) == Some(route) { assert q in patterns; }
    if NormaliseRoute(p) == Some(route) { assert p in patterns; }
  }

  ghost predicate Overwritten(before: GateMap, after: GateMap, f: Feature, route: string, listed: bool) {
    (route in after <==> route in before || listed) && (listed ==> after[route] == f) &&
    (!listed && route in before ==> after[route] == before[route])
  }

  lemma PutAt(start: GateMap, before: GateMap, f: Feature, put: Option<string>, route: string, listed: bool)
    requires Overwritten(start, before, f, route, listed)
    ensures Overwritten(start, Put(before, f, put), f, route, listed || put == Some(route))
  {}

  lemma {:induction false} WithRoutesAt(gates: GateMap, f: Feature, patterns: seq<string>, route: string)
    ensures Overwritten(gates, WithRoutes(gates, f, patterns), f, route, Lists(patterns, route))
  {
    if patterns == [] {
    } else {
      var init, p := patterns[..|patterns| - 1], patterns[|patterns| - 1];
      WithRoutesAt(gates, f, init, route);
      PutAt(gates, WithRoutes(gates, f, init), f, NormaliseRoute(p), route, Lists(init, route));
      ListsSplit(init, p, route);
      assert patterns == init + [p];
    }
  }

  ghost predicate ClaimedWithin(stored: Stored, order: seq<string>, route: string) {
    exists name :: name in order && Claims(stored, name, route)
  }

  lemma ClaimedSplit(stored: Stored, init: seq<string>, name: string, route: string)
    ensures ClaimedWithin(stored, init + [name], route) <==>
      ClaimedWithin(stored, init, route) || Claims(stored, name, route)
  {
    var order := init + [name];
    if n :| n in order && Claims(stored, n, route) { assert n in init || n == name; }
    if n :| n in init && Claims(stored, n, route) { assert n in order; }
    if Claims(stored, name, route) { assert name in order; }
  }

  ghost predicate ClaimedAs(stored: Stored, order: seq<string>, route: string, f: Feature) {
    exists name :: name in order && Claims(stored, name, route) && TrimSpace(name) == f
  }

  lemma {:induction false} GatesAt(stored: Stored, order: seq<string>, route: string)
    requires forall k :: k in order ==> k in stored
    ensures route in GatesInOrder(stored, order) <==> ClaimedWithin(stored, order, route)
    ensures route in GatesInOrder(stored, order) ==> ClaimedAs(stored, order, route, GatesInOrder(stored, order)[route])
  {
    if order == [] {
    } else {
      var init, name := order[..|order| - 1], order[|order| - 1];
      assert order == init + [name] && name in order;
      GatesAt(stored, init, route);
      WithRoutesAt(GatesInOrder(stored, init), TrimSpace(name), stored[name], route);
      ClaimedSplit(stored, init, name, route);
      assert forall f :: ClaimedAs(stored, init, route, f) ==> ClaimedAs(stored, order, route, f);
    }
  }

  /** Every claimed route is gated, and by a feature that claims it, whatever the order. */
  lemma GatedByAClaimant(stored: Stored, order: seq<string>, route: string)
    requires Enumerates(order, stored.Keys)
    ensures route in GatesInOrder(stored, order) <==> exists name :: Claims(stored, name, route)
    ensures route in GatesInOrder(stored, order) ==>
      exists name :: Claims(stored, name, route) && TrimSpace(name) == GatesInOrder(stored, order)[route]
  {
    GatesAt(stored, order, route);
    if name :| Claims(stored, name, route) { assert name in order; }
  }

  lemma {:induction false} OrderEndingIn(keys: set<string>, last: string) returns (order: seq<string>)
    requires last in keys
    ensures Enumerates(order, keys) && order[|order| - 1] == last
    decreases |keys|
  {
    var rest := keys - {last};
    var init: seq<string> := [];
    if rest == {} {
    } else {
      var other :| other in rest;
      init := OrderEndingIn(rest, other);
    }
    assert Enumerates(init, rest);
    order := init + [last];
    assert last in order && forall k :: k in init ==> k in order;
  }

  lemma LastNameWins(stored: Stored, order: seq<string>, route: string)
    requires Enumerates(order, stored.Keys) && order != []
    requires Claims(stored, order[|order| - 1], route)
    ensures GatesInOrder(stored, order).Keys >= {route}
    ensures GatesInOrder(stored, order)[route] == TrimSpace(order[|order| - 1])
  {
    var init, name := order[..|order| - 1], order[|order| - 1];
    WithRoutesAt(GatesInOrder(stored, init), TrimSpace(name), stored[name], route);
  }

  lemma SameGates(stored: Stored, a: seq<string>, b: seq<string>)
    requires Unambiguous(stored) && Enumerates(a, stored.Keys) && Enumerates(b, stored.Keys)
    ensures GatesInOrder(stored, a) == GatesInOrder(stored, b)
  {
    var m, n := GatesInOrder(stored, a), GatesInOrder(stored, b);
    forall route
      ensures route in m <==> route in n
      ensures route in m && route in n ==> m[route] == n[route]
    {
      GatedByAClaimant(stored, a, route);
      GatedByAClaimant(stored, b, route);
    }
  }

  /** The order decides nothing exactly when no route is listed under two features. */
  lemma OrderDecidesNothing(stored: Stored)
    ensures Unambiguous(stored) <==>
      forall a, b :: Enumerates(a, stored.Keys) && Enumerates(b, stored.Keys) ==>
        GatesInOrder(stored, a) == GatesInOrder(stored, b)
  {
    if Unambiguous(stored) {
      forall a, b | Enumerates(a, stored.Keys) && Enumerates(b, stored.Keys)
        ensures GatesInOrder(stored, a) == GatesInOrder(stored, b)
      {
        SameGates(stored, a, b);
      }
    } else {
      var f, g, route :| Claims(stored, f, route) && Claims(stored, g, route) && TrimSpace(f) != TrimSpace(g);
      var a := OrderEndingIn(stored.Keys, f);
      var b := OrderEndingIn(stored.Keys, g);
      LastNameWins(stored, a, route);
      LastNameWins(stored, b, route);
      assert GatesInOrder(stored, a)[route] != GatesInOrder(stored, b)[route];
    }
  }

  /** GateMap.Feature: an exact verb wins over "*". */
  function Lookup(gates: GateMap, verb: string, route: string): Option<Feature> {
    if |gates| == 0 || route == "" then None
    else if ToUpper(verb) + " " + route in gates then Some(gates[ToUpper(verb) + " " + route])
    else if "* " + route in gates then Some(gates["* " + route])
    else None
  }

  /** A request is gated exactly when its route is claimed for its verb or for all verbs. */
  lemma GatedIffClaimed(stored: Stored, order: seq<string>, verb: string, route: string)
    requires Enumerates(order, stored.Keys) && route != ""
    ensures Lookup(GatesInOrder(stored, order), verb, route).Some? <==>
      exists name :: Claims(stored, name, ToUpper(verb) + " " + route) || Claims(stored, name, "* " + route)
    ensures (exists name :: Claims(stored, name, ToUpper(verb) + " " + route)) ==>
      var f := Lookup(GatesInOrder(stored, order), verb, route);
      f.Some? && exists name :: Claims(stored, name, ToUpper(verb) + " " + route) && TrimSpace(name) == f.value
  {
    GatedByAClaimant(stored, order, ToUpper(verb) + " " + route);
    GatedByAClaimant(stored, order, "* " + route);
  }

  // ----- the bypass list -----

  predicate Separates(c: char) { c in {',', ';', '\n', '\r', '\t', ' '} }

  /** strings.FieldsFunc with the list's separators. */
  function Fields(raw: string): (r: seq<string>)
    ensures forall f :: f in r ==> f != "" && forall c :: c in f ==> !Separates(c)
    decreases |raw|
  {
    if raw == "" then []
    else if Separates(raw[0]) then Fields(raw[1..])
    else var n := RunLength(raw); [raw[..n]] + Fields(raw[n..])
  }

  function RunLength(raw: string): (n: nat)
    ensures n <= |raw| && (forall i :: 0 <= i < n ==> !Separates(raw[i]))
    ensures n < |raw| ==> Separates(raw[n])
    ensures raw != "" && !Separates(raw[0]) ==> n > 0
  {
    if raw == "" || Separates(raw[0]) then 0 else 1 + RunLength(raw[1..])
  }

  function Folded(email: string): string { ToLower(TrimSpace(email)) }

  /** parseBypassEmails. */
  method ParseBypass(raw: string) returns (bypass: set<string>)
    ensures forall e :: e in bypass <==> e != "" && exists f :: f in Fields(raw) && Folded(f) == e
  {
    bypass := {};
    var fields := Fields(raw);
    for i := 0 to |fields|
      invariant forall e :: e in bypass <==> e != "" && exists k :: 0 <= k < i && Folded(fields[k]) == e
    {
      var f := Folded(fields[i]);
      if f != "" { bypass := bypass + {f}; }
    }
  }

  predicate Bypasses(bypass: set<string>, email: string) {
    Folded(email) != "" && Folded(email) in bypass
  }

  predicate WellSpelled(email: string) {
    email != "" && Trimmed(email) && forall c :: c in email ==> c !in ",;\n\r\t "
  }

  lemma SeparatorsAre(c: char)
    ensures Separates(c) <==> c in ",;\n\r\t "
  {
    var marks := ",;\n\r\t ";
    assert marks[0] == ',' && marks[1] == ';' && marks[2] == '\n' && marks[3] == '\r' && marks[4] == '\t';
    assert marks[5] == ' ';
  }

  function Joined(emails: seq<string>, separator: char): string {
    if emails == [] then "" else emails[0] + [separator] + Joined(emails[1..], separator)
  }

  lemma {:induction false} FieldsReadBack(emails: seq<string>, separator: char)
    requires separator in ",;\n\r\t " && forall e :: e in emails ==> WellSpelled(e)
    ensures Fields(Joined(emails, separator)) == emails
  {
    SeparatorsAre(separator);
    if emails == [] {
    } else {
      var e, rest := emails[0], Joined(emails[1..], separator);
      var raw := e + [separator] + rest;
      RunEndsAt(e, separator, rest);
      assert raw[..|e|] == e && raw[|e|..] == [separator] + rest;
      assert ([separator] + rest)[1..] == rest;
      FieldsReadBack(emails[1..], separator);
    }
  }

  lemma RunEndsAt(e: string, separator: char, rest: string)
    requires WellSpelled(e) && Separates(separator)
    ensures RunLength(e + [separator] + rest) == |e|
  {
    forall c | c in e ensures !Separates(c) { SeparatorsAre(c); }
    var raw := e + [separator] + rest;
    assert raw[|e|] == separator;
    assert forall i :: 0 <= i < |e| ==> raw[i] == e[i] && e[i] in e;
  }

  /** A caller gets past the gates exactly when the row names the caller, in any letter case. */
  lemma OnlyTheListedBypass(emails: seq<string>, separator: char, bypass: set<string>, caller: string)
    requires separator in ",;\n\r\t " && forall e :: e in emails ==> WellSpelled(e)
    requires forall e :: e in bypass <==>
      e != "" && exists f :: f in Fields(Joined(emails, separator)) && Folded(f) == e
    ensures Bypasses(bypass, caller) <==> exists e :: e in emails && SameLetters(e, TrimSpace(caller))
  {
    forall e | e in emails
      ensures SameLetters(e, TrimSpace(caller)) <==> ToLower(e) == ToLower(TrimSpace(caller))
    {
      CaseFolds(e, TrimSpace(caller));
    }
    FieldsReadBack(emails, separator);
    forall e | e in emails
      ensures Folded(e) == ToLower(e) && ToLower(e) != ""
    {
      TrimmedIsFixed(e);
      assert |ToLower(e)| == |e|;
    }
  }
}
