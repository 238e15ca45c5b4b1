/** The app_config keys of a feature, and the route patterns that name what it gates. */
module FeatureKeys {
  import opened Text

  type Feature = string

  const ENABLED_PREFIX := "is_"
  const ENABLED_SUFFIX := "_enabled"
  const TITLE_SUFFIX := "_coming_soon_title"
  const MESSAGE_SUFFIX := "_coming_soon_message"

  function EnabledKey(f: Feature): string { ENABLED_PREFIX + f + ENABLED_SUFFIX }
  function TitleKey(f: Feature): string { f + TITLE_SUFFIX }
  function MessageKey(f: Feature): string { f + MESSAGE_SUFFIX }

  /** What featureFromEnabledKey makes of a key; slicing with crossed bounds panics. */
  datatype Extracted = Panics | NotAFlag | Flag(feature: Feature)

  function FeatureFromEnabledKey(key: string): Extracted {
    if !HasPrefix(key, ENABLED_PREFIX) || !HasSuffix(key, ENABLED_SUFFIX) then NotAFlag
    else
      var low, high := |ENABLED_PREFIX|, |key| - |ENABLED_SUFFIX|;
      if high < low then Panics
      else if key[low..high] == "" then NotAFlag
      else Flag(key[low..high])
  }

  /** The affixes overlap in exactly one key, and that key makes the extraction panic. */
  lemma PanicsExactlyOnIsEnabled(key: string)
    ensures FeatureFromEnabledKey(key).Panics? <==> key == "is_enabled"
  {
    var overlap := "is_enabled";
    assert overlap[..3] == ENABLED_PREFIX && overlap[2..] == ENABLED_SUFFIX;
    if FeatureFromEnabledKey(key).Panics? {
      var tail := key[|key| - 8..];
      assert key[..3] == ENABLED_PREFIX && tail == ENABLED_SUFFIX;
      assert key[0] == 'i' && key[1] == 's' && key[|key| - 8] == tail[0] == '_';
      assert key == key[..3] + tail[1..];
    }
  }

  /** On every other key the extraction inverts EnabledKey on non-empty names. */
  lemma ExtractionInvertsEnabledKey(key: string, f: Feature)
    ensures FeatureFromEnabledKey(key) == Flag(f) <==> f != "" && key == EnabledKey(f)
  {
    if FeatureFromEnabledKey(key) == Flag(f) {
      assert key == key[..3] + key[3..|key| - 8] + key[|key| - 8..];
    } else if key == EnabledKey(f) {
      assert key[..3] == ENABLED_PREFIX;
      assert key[|key| - 8..] == ENABLED_SUFFIX;
      assert key[3..|key| - 8] == f;
    }
  }

  /** Two features never share a key, of the same kind or of different kinds. */
  lemma KeysAreApart(f: Feature, g: Feature)
    ensures EnabledKey(f) == EnabledKey(g) ==> f == g
    ensures TitleKey(f) == TitleKey(g) ==> f == g
    ensures MessageKey(f) == MessageKey(g) ==> f == g
    ensures EnabledKey(f) != TitleKey(g) && EnabledKey(f) != MessageKey(g) && TitleKey(f) != MessageKey(g)
  {
    assert EnabledKey(f)[3..|EnabledKey(f)| - 8] == f && EnabledKey(g)[3..|EnabledKey(g)| - 8] == g;
    assert TitleKey(f)[..|TitleKey(f)| - 18] == f && TitleKey(g)[..|TitleKey(g)| - 18] == g;
    assert MessageKey(f)[..|MessageKey(f)| - 20] == f && MessageKey(g)[..|MessageKey(g)| - 20] == g;
    assert EnabledKey(f)[|EnabledKey(f)| - 1] == 'd';
    assert TitleKey(g)[|TitleKey(g)| - 2] == 'l' && MessageKey(g)[|MessageKey(g)| - 2] == 'g';
    assert TitleKey(f)[|TitleKey(f)| - 2] == 'l' && TitleKey(g)[|TitleKey(g)| - 1] == 'e' &&
      MessageKey(g)[|MessageKey(g)| - 1] == 'e';
  }

  /** The stored spellings of a flag; anything else decides nothing. */
  function ParseEnabled(v: string): Option<bool> {
    var w := ToLower(TrimSpace(v));
    if w in {"1", "true", "yes", "on"} then Some(true)
    else if w in {"0", "false", "no", "off"} then Some(false)
    else None
  }

  /** The text, white space around it aside, is this word in some letter case. */
  predicate Says(v: string, word: string) { SameLetters(TrimSpace(v), word) }

  predicate SaysOn(v: string) { Says(v, "1") || Says(v, "true") || Says(v, "yes") || Says(v, "on") }

  predicate SaysOff(v: string) { Says(v, "0") || Says(v, "false") || Says(v, "no") || Says(v, "off") }

  lemma LowerWords()
    ensures ToLower("1") == "1" && ToLower("true") == "true" && ToLower("yes") == "yes" && ToLower("on") == "on"
    ensures ToLower("0") == "0" && ToLower("false") == "false" && ToLower("no") == "no" && ToLower("off") == "off"
  {}

  /** A stored flag is on for the words that say so and off for those that do, and for nothing else either. */
  lemma FlagWords(v: string)
    ensures ParseEnabled(v) == if SaysOn(v) then Some(true) else if SaysOff(v) then Some(false) else None
    ensures !(SaysOn(v) && SaysOff(v))
  {
    LowerWords();
    var w := TrimSpace(v);
    CaseFolds(w, "1");
    CaseFolds(w, "true");
    CaseFolds(w, "yes");
    CaseFolds(w, "on");
    CaseFolds(w, "0");
    CaseFolds(w, "false");
    CaseFolds(w, "no");
    CaseFolds(w, "off");
    assert "1"[0] != "0"[0] && "on"[0] != "no"[0];
    assert "yes"[0] != "off"[0] && |"true"| == 4 && |"false"| == 5;
  }

  // ----- route patterns -----

  function NormaliseRoute(pattern: string): Option<string> {
    var trimmed := TrimSpace(pattern);
    if trimmed == "" then None
    else
      var (word, path) := match Cut(trimmed, ' ') case Some((w, p)) => (w, p) case None => ("*", trimmed);
      var verb, route := ToUpper(TrimSpace(word)), TrimSpace(path);
      if route == "" then None
      else Some(verb + " " + if HasPrefix(route, "/") then route else "/" + route)
  }

  lemma {:induction false} CutBefore(s: string, separator: char)
    ensures match Cut(s, separator)
      case Some((a, b)) => s == a + [separator] + b && separator !in a
      case None => separator !in s
  {
    if s != [] && s[0] != separator {
      CutBefore(s[1..], separator);
      assert s == [s[0]] + s[1..];
    }
  }

  lemma {:induction false} TrimKeepsStart(s: string)
    requires s != [] && !IsSpace(s[0])
    ensures TrimSpace(s) != [] && TrimSpace(s) <= s
  {
    TrimRightKeepsStart(s);
    TrimRightNonEmpty(s);
  }

  lemma {:induction false} TrimRightNonEmpty(s: string)
    requires s != [] && !IsSpace(s[0])
    ensures TrimRight(s) != []
  {
    if |s| > 1 { TrimRightNonEmpty(s[..|s| - 1]); }
  }

  lemma UpperKeepsShape(s: string)
    ensures ToUpper(ToUpper(s)) == ToUpper(s)
    ensures Trimmed(s) ==> Trimmed(ToUpper(s))
    ensures ' ' !in s ==> ' ' !in ToUpper(s)
  {}

  /** A normalised pattern is a verb without blanks, one blank, and a path from the root. */
  lemma NormalShape(pattern: string) returns (verb: string, route: string)
    requires NormaliseRoute(pattern).Some?
    ensures NormaliseRoute(pattern).value == verb + " " + route
    ensures verb != "" && Trimmed(verb) && ' ' !in verb && ToUpper(verb) == verb
    ensures Trimmed(route) && route != "" && route[0] == '/'
  {
    var trimmed := TrimSpace(pattern);
    CutBefore(trimmed, ' ');
    var (word, path) := match Cut(trimmed, ' ') case Some((w, p)) => (w, p) case None => ("*", trimmed);
    assert word != [] && !IsSpace(word[0]) by {
      if Cut(trimmed, ' ').Some? { assert trimmed[0] == (word + [' '] + path)[0]; }
    }
    TrimKeepsStart(word);
    UpperKeepsShape(TrimSpace(word));
    verb := ToUpper(TrimSpace(word));
    route := TrimSpace(path);
    if !HasPrefix(route, "/") { route := "/" + route; }
  }

  /** Normalising twice is normalising once. */
  lemma NormaliseIsIdempotent(pattern: string)
    requires NormaliseRoute(pattern).Some?
    ensures NormaliseRoute(NormaliseRoute(pattern).value) == NormaliseRoute(pattern)
  {
    var verb, route := NormalShape(pattern);
    var key := verb + " " + route;
    assert Trimmed(key) by { assert key[0] == verb[0] && key[|key| - 1] == route[|route| - 1]; }
    TrimmedIsFixed(key);
    CutAtFirst(verb, ' ', route);
    assert verb + [' '] + route == key;
    TrimmedIsFixed(verb);
    TrimmedIsFixed(route);
  }

  /** A hand-written "<verb> <path>" reaches the key under which the gate looks the route up. */
  lemma RouteIsFound(verb: string, route: string)
    requires verb != "" && Trimmed(verb) && ' ' !in verb && Trimmed(route) && route != "" && route[0] == '/'
    ensures NormaliseRoute(verb + " " + route) == Some(ToUpper(verb) + " " + route)
  {
    var key := verb + " " + route;
    assert Trimmed(key) by { assert key[0] == verb[0] && key[|key| - 1] == route[|route| - 1]; }
    TrimmedIsFixed(key);
    CutAtFirst(verb, ' ', route);
    assert verb + [' '] + route == key;
    TrimmedIsFixed(verb);
    TrimmedIsFixed(route);
  }

  function Rooted(path: string): string { if path != "" && path[0] == '/' then path else "/" + path }

  /** A verb and a path in any spacing: the verb in capitals, one blank, the path from the root. */
  lemma PatternIsRead(before: string, verb: string, gap: string, path: string, after: string)
    requires Blank(before) && Blank(gap) && Blank(after)
    requires verb != "" && Trimmed(verb) && ' ' !in verb && path != "" && Trimmed(path)
    ensures NormaliseRoute(before + verb + " " + gap + path + after) == Some(ToUpper(verb) + " " + Rooted(path))
  {
    var core := verb + " " + gap + path;
    assert Trimmed(core) by { assert core[0] == verb[0] && core[|core| - 1] == path[|path| - 1]; }
    assert before + verb + " " + gap + path + after == before + core + after;
    TrimStrips(before, core, after);
    CutAtFirst(verb, ' ', gap + path);
    assert verb + [' '] + (gap + path) == core;
    TrimmedIsFixed(verb);
    TrimStrips(gap, path, "");
    assert gap + path + "" == gap + path;
  }

  /** A path alone stands for every verb. */
  lemma PathAloneIsRead(before: string, path: string, after: string)
    requires Blank(before) && Blank(after) && path != "" && Trimmed(path) && ' ' !in path
    ensures NormaliseRoute(before + path + after) == Some("* " + Rooted(path))
  {
    TrimStrips(before, path, after);
    CutBefore(path, ' ');
    TrimmedIsFixed(path);
    assert Trimmed("*") && ToUpper("*") == "*";
    TrimmedIsFixed("*");
    assert "*" + " " + Rooted(path) == "* " + Rooted(path);
  }

  /** Only a blank pattern is refused. */
  lemma OnlyBlankIsRefused(pattern: string)
    ensures NormaliseRoute(pattern).None? <==> Blank(pattern)
  {
    BlankIsEmpty(pattern);
    var trimmed := TrimSpace(pattern);
    CutBefore(trimmed, ' ');
    if trimmed != "" && Cut(trimmed, ' ').Some? {
      var (word, path) := Cut(trimmed, ' ').value;
      assert trimmed == word + [' '] + path;
      assert path != "" && trimmed[|trimmed| - 1] == path[|path| - 1] && path[|path| - 1] in path;
      BlankIsEmpty(path);
    } else if trimmed != "" {
      TrimmedIsFixed(trimmed);
    }
  }
}
