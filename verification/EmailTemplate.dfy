/** Escaping and number formatting in the order confirmation e-mail. */
module EmailTemplate {
  import opened Text

  // ----- escapeHtml -----

  /** strings.ReplaceAll for a one-character pattern. */
  function ReplaceAll(s: string, pattern: char, text: string): string {
    if s == "" then "" else (if s[0] == pattern then text else [s[0]]) + ReplaceAll(s[1..], pattern, text)
  }

  function EscapeHtml(input: string): string {
    var escaped := ReplaceAll(input, '&', "&amp;");
    var escaped := ReplaceAll(escaped, '<', "&lt;");
    var escaped := ReplaceAll(escaped, '>', "&gt;");
    var escaped := ReplaceAll(escaped, '\"', "&quot;");
    ReplaceAll(escaped, '\'', "&#39;")
  }

  /** The one-pass substitution the five passes amount to. */
  function Entity(c: char): string {
    match c
    case '&' => "&amp;"
    case '<' => "&lt;"
    case '>' => "&gt;"
    case '\"' => "&quot;"
    case '\'' => "&#39;"
    case _ => [c]
  }

  function Escaped(s: string): string {
    if s == "" then "" else Entity(s[0]) + Escaped(s[1..])
  }

  lemma {:induction false} ReplaceSplits(a: string, b: string, pattern: char, text: string)
    ensures ReplaceAll(a + b, pattern, text) == ReplaceAll(a, pattern, text) + ReplaceAll(b, pattern, text)
  {
    if a == "" {
      assert a + b == b;
    } else {
      var head, tail := if a[0] == pattern then text else [a[0]], ReplaceAll(a[1..], pattern, text);
      ReplaceSplits(a[1..], b, pattern, text);
      assert (a + b)[1..] == a[1..] + b && (a + b)[0] == a[0];
      assert ReplaceAll(a + b, pattern, text) == head + (tail + ReplaceAll(b, pattern, text));
      assert ReplaceAll(a, pattern, text) == head + tail;
    }
  }

  lemma {:induction false} ReplaceAbsent(s: string, pattern: char, text: string)
    requires pattern !in s
    ensures ReplaceAll(s, pattern, text) == s
  {
    if s == "" {
    } else {
      ReplaceAbsent(s[1..], pattern, text);
    }
  }

  /** The text once the passes for these characters are done. */
  function Done(s: string, passes: set<char>): string {
    if s == "" then "" else (if s[0] in passes then Entity(s[0]) else [s[0]]) + Done(s[1..], passes)
  }

  lemma NoMarkupInEntities(c: char, d: char)
    requires d in RAW
    ensures d in Entity(c) ==> d == c && Entity(c) == [c]
  {}

  lemma PassOverOne(s: string, c: char, passes: set<char>, d: char)
    requires s == if c in passes then Entity(c) else [c]
    requires d !in passes && (d in RAW || passes == {})
    ensures ReplaceAll(s, d, Entity(d)) == if c in passes + {d} then Entity(c) else [c]
  {
    if c in passes { NoMarkupInEntities(c, d); }
    if c == d {
      assert s[1..] == "";
    } else {
      ReplaceAbsent(s, d, Entity(d));
    }
  }

  /** A pass turns its own character into the entity and touches no entity of an earlier pass. */
  lemma {:induction false} Pass(s: string, passes: set<char>, d: char)
    requires d !in passes && (d in RAW || passes == {})
    ensures ReplaceAll(Done(s, passes), d, Entity(d)) == Done(s, passes + {d})
  {
    if s == "" {
    } else {
      var head := if s[0] in passes then Entity(s[0]) else [s[0]];
      ReplaceSplits(head, Done(s[1..], passes), d, Entity(d));
      PassOverOne(head, s[0], passes, d);
      Pass(s[1..], passes, d);
    }
  }

  lemma {:induction false} NothingDone(s: string)
    ensures Done(s, {}) == s
  {
    if s == "" {
    } else {
      NothingDone(s[1..]);
    }
  }

  lemma {:induction false} AllDone(s: string, passes: set<char>)
    requires passes == RAW + {'&'}
    ensures Done(s, passes) == Escaped(s)
  {
    if s == "" {
    } else {
      AllDone(s[1..], passes);
    }
  }

  lemma InTurn(s: string, s1: string, s2: string, s3: string, s4: string, s5: string)
    requires ReplaceAll(s, '&', "&amp;") == s1 && ReplaceAll(s1, '<', "&lt;") == s2 && ReplaceAll(s2, '>', "&gt;") == s3
    requires ReplaceAll(s3, '\"', "&quot;") == s4 && ReplaceAll(s4, '\'', "&#39;") == s5
    ensures EscapeHtml(s) == s5
  {}

  /** Five sequential replacements equal one character-wise substitution. */
  lemma EscapeIsOnePass(s: string)
    ensures EscapeHtml(s) == Escaped(s)
  {
    var p1 := {} + {'&'};
    var p2 := p1 + {'<'};
    var p3 := p2 + {'>'};
    var p4 := p3 + {'\"'};
    var p5 := p4 + {'\''};
    NothingDone(s);
    Pass(s, {}, '&');
    Pass(s, p1, '<');
    Pass(s, p2, '>');
    Pass(s, p3, '\"');
    Pass(s, p4, '\'');
    InTurn(s, Done(s, p1), Done(s, p2), Done(s, p3), Done(s, p4), Done(s, p5));
    AllDone(s, p5);
  }

  const RAW: set<char> := {'<', '>', '\"', '\''}
  const ENTITIES: seq<string> := ["&amp;", "&lt;", "&gt;", "&quot;", "&#39;"]

  predicate StartsEntity(s: string) { exists e :: e in ENTITIES && e <= s }

  lemma {:induction false} EscapedIsInert(s: string, i: nat)
    requires i < |Escaped(s)|
    ensures Escaped(s)[i] !in RAW
    ensures Escaped(s)[i] == '&' ==> StartsEntity(Escaped(s)[i..])
  {
    var head, tail := Entity(s[0]), Escaped(s[1..]);
    if i < |head| {
      assert Escaped(s)[i] == head[i];
      if head[i] == '&' {
        assert i == 0 && head in ENTITIES && Escaped(s)[0..] == head + tail;
      }
    } else {
      EscapedIsInert(s[1..], i - |head|);
      assert Escaped(s)[i..] == tail[i - |head|..];
    }
  }

  /** No raw markup character is left, and every ampersand starts one of the five entities. */
  lemma OutputIsInert(s: string, i: nat)
    requires i < |EscapeHtml(s)|
    ensures EscapeHtml(s)[i] !in RAW
    ensures EscapeHtml(s)[i] == '&' ==> StartsEntity(EscapeHtml(s)[i..])
  {
    EscapeIsOnePass(s);
    EscapedIsInert(s, i);
  }

  /** What a browser shows: entities decoded from left to right. */
  function Unescaped(s: string): string
    decreases |s|
  {
    if s == "" then ""
    else if "&amp;" <= s then "&" + Unescaped(s[5..])
    else if "&lt;" <= s then "<" + Unescaped(s[4..])
    else if "&gt;" <= s then ">" + Unescaped(s[4..])
    else if "&quot;" <= s then "\"" + Unescaped(s[6..])
    else if "&#39;" <= s then "\'" + Unescaped(s[5..])
    else [s[0]] + Unescaped(s[1..])
  }

  lemma UnescapeOne(c: char, rest: string)
    ensures Unescaped(Entity(c) + rest) == [c] + Unescaped(rest)
  {
    var s := Entity(c) + rest;
    assert s[|Entity(c)|..] == rest;
    assert s[0] == Entity(c)[0];
    if c in {'&', '<', '>', '\"', '\''} { assert s[1] == Entity(c)[1] && s[2] == Entity(c)[2]; }
  }

  /** The reader sees the text that went in. */
  lemma {:induction false} ReaderSeesInput(s: string)
    ensures Unescaped(EscapeHtml(s)) == s
  {
    EscapeIsOnePass(s);
    if s == "" {
    } else {
      UnescapeOne(s[0], Escaped(s[1..]));
      EscapeIsOnePass(s[1..]);
      ReaderSeesInput(s[1..]);
    }
  }

  // ----- formatDecimal -----

  /** strings.TrimRight with a one-character cutset. */
  function TrimTrailing(s: string, c: char): string {
    if s != "" && s[|s| - 1] == c then TrimTrailing(s[..|s| - 1], c) else s
  }

  /** formatDecimal on the text printed by "%.2f". */
  function TrimDecimal(text: string): string {
    if '.' !in text then text
    else
      var s := TrimTrailing(text, '0');
      if HasSuffix(s, ".") then TrimTrailing(s, '.') else s
  }

  predicate Digit(c: char) { '0' <= c <= '9' }

  predicate AllDigits(s: string) { forall c :: c in s ==> Digit(c) }

  function DigitOf(c: char): int { c as int - '0' as int }

  function Whole(digits: string): int {
    if digits == "" then 0 else 10 * Whole(digits[..|digits| - 1]) + DigitOf(digits[|digits| - 1])
  }

  function Fraction(digits: string): real {
    if digits == "" then 0.0 else (DigitOf(digits[0]) as real + Fraction(digits[1..])) / 10.0
  }

  /** The number an unsigned decimal text denotes. */
  function Unsigned(text: string): real {
    match Cut(text, '.')
    case Some((whole, fraction)) => Whole(whole) as real + Fraction(fraction)
    case None => Whole(text) as real
  }

  function Value(text: string): real {
    if HasPrefix(text, "-") then -Unsigned(text[1..]) else Unsigned(text)
  }

  lemma {:induction false} TrailingZeroIsWorthless(digits: string)
    ensures Fraction(digits + "0") == Fraction(digits)
  {
    var longer := digits + "0";
    if digits == "" {
      assert longer[1..] == "";
    } else {
      assert longer[1..] == digits[1..] + "0";
      TrailingZeroIsWorthless(digits[1..]);
    }
  }

  lemma {:induction false} CutNowhere(s: string, separator: char)
    requires separator !in s
    ensures Cut(s, separator) == None
  {
    if s == "" {
    } else {
      CutNowhere(s[1..], separator);
    }
  }

  lemma PointSplits(whole: string, fraction: string)
    requires '.' !in whole
    ensures Unsigned(whole + "." + fraction) == Whole(whole) as real + Fraction(fraction)
  {
    CutAtFirst(whole, '.', fraction);
    assert whole + ['.'] + fraction == whole + "." + fraction;
  }

  predicate Tidy(text: string) {
    '.' in text ==> text[|text| - 1] != '0' && text[|text| - 1] != '.'
  }

  lemma TrimBarePoint(whole: string)
    requires AllDigits(whole) && whole != ""
    ensures TrimDecimal(whole + ".") == whole
  {
    var text := whole + ".";
    assert text[|whole|] == '.';
    assert text[|text| - 1..] == "." && text[..|text| - 1] == whole;
    assert whole[|whole| - 1] in whole;
    assert TrimTrailing(text, '0') == text && TrimTrailing(text, '.') == TrimTrailing(whole, '.');
  }

  lemma TrimFractionEnd(text: string, last: char)
    requires Digit(last) && '.' in text
    ensures TrimDecimal(text + [last]) == if last == '0' then TrimDecimal(text) else text + [last]
  {
    var longer := text + [last];
    assert longer[..|longer| - 1] == text && longer[|longer| - 1..] == [last];
    assert '.' in longer;
  }

  /** The trimmed text denotes the number and has no trailing fractional zero or point. */
  predicate Shows(text: string, whole: string, fraction: string) {
    Unsigned(text) == Whole(whole) as real + Fraction(fraction) && Tidy(text) && whole <= text
  }

  lemma WholeIsShown(whole: string)
    requires AllDigits(whole) && whole != ""
    ensures Shows(TrimDecimal(whole + "." + ""), whole, "")
  {
    assert whole + "." + "" == whole + ".";
    TrimBarePoint(whole);
    CutNowhere(whole, '.');
  }

  lemma FullFractionIsShown(whole: string, fraction: string)
    requires AllDigits(whole) && whole != "" && fraction != "" && Digit(fraction[|fraction| - 1])
    requires fraction[|fraction| - 1] != '0'
    ensures Shows(whole + "." + fraction, whole, fraction)
  {
    PointSplits(whole, fraction);
    var text := whole + "." + fraction;
    assert text[|text| - 1] == fraction[|fraction| - 1];
  }

  /** Trimming keeps the value and leaves no trailing fractional zero or point. */
  lemma {:induction false} TrimKeepsUnsigned(whole: string, fraction: string)
    requires AllDigits(whole) && whole != "" && AllDigits(fraction)
    ensures Shows(TrimDecimal(whole + "." + fraction), whole, fraction)
    decreases |fraction|
  {
    if fraction == "" {
      WholeIsShown(whole);
    } else {
      var init, last := fraction[..|fraction| - 1], fraction[|fraction| - 1];
      var text := whole + "." + init;
      assert last in fraction && text[|whole|] == '.';
      assert whole + "." + fraction == text + [last];
      TrimFractionEnd(text, last);
      if last == '0' {
        ZeroEndIsWorthless(init, fraction);
        TrimKeepsUnsigned(whole, init);
      } else {
        FullFractionIsShown(whole, fraction);
      }
    }
  }

  lemma ZeroEndIsWorthless(init: string, fraction: string)
    requires fraction == init + "0" && AllDigits(fraction)
    ensures AllDigits(init) && Fraction(fraction) == Fraction(init)
  {
    TrailingZeroIsWorthless(init);
    assert forall c :: c in init ==> c in fraction;
  }

  lemma {:induction false} TrimBehindSign(s: string, c: char)
    requires c != '-'
    ensures TrimTrailing("-" + s, c) == "-" + TrimTrailing(s, c)
  {
    var signed := "-" + s;
    if s != "" && s[|s| - 1] == c {
      assert signed[..|signed| - 1] == "-" + s[..|s| - 1];
      TrimBehindSign(s[..|s| - 1], c);
    }
  }

  lemma TrimKeepsSign(text: string)
    ensures TrimDecimal("-" + text) == "-" + TrimDecimal(text)
  {
    TrimBehindSign(text, '0');
    var s := TrimTrailing(text, '0');
    TrimBehindSign(s, '.');
    var signed := "-" + s;
    if s != "" { assert signed[|signed| - 1..] == s[|s| - 1..]; }
    if '.' in text {
      assert '.' in "-" + text;
    }
  }

  // ----- what "%.2f" prints for a number of hundredths -----

  function Digits(n: nat): string {
    (if n < 10 then "" else Digits(n / 10)) + [(n % 10 + '0' as int) as char]
  }

  function PrintTwoPlaces(hundredths: int): string {
    if hundredths < 0 then "-" + PrintTwoPlacesUnsigned(-hundredths) else PrintTwoPlacesUnsigned(hundredths)
  }

  function PrintTwoPlacesUnsigned(n: nat): string {
    Digits(n / 100) + "." + [(n / 10 % 10 + '0' as int) as char, (n % 10 + '0' as int) as char]
  }

  lemma {:induction false} DigitsDenote(n: nat)
    ensures Digits(n) != "" && AllDigits(Digits(n)) && Whole(Digits(n)) == n
  {
    var s, last := Digits(n), (n % 10 + '0' as int) as char;
    if n >= 10 {
      DigitsDenote(n / 10);
      assert s == Digits(n / 10) + [last];
      assert s[..|s| - 1] == Digits(n / 10);
    } else {
      assert s == [last] && s[..0] == "";
    }
  }

  lemma TwoPlacesDenote(n: nat) returns (whole: string, fraction: string)
    ensures PrintTwoPlacesUnsigned(n) == whole + "." + fraction && whole != "" && AllDigits(whole) &&
      AllDigits(fraction)
    ensures Whole(whole) as real + Fraction(fraction) == n as real / 100.0
  {
    DigitsDenote(n / 100);
    whole := Digits(n / 100);
    var tens, ones := n / 10 % 10, n % 10;
    fraction := [(tens + '0' as int) as char, (ones + '0' as int) as char];
    assert fraction[1..][1..] == "" && fraction[1..][0] == fraction[1];
    assert n == 100 * (n / 100) + 10 * tens + ones;
    assert Fraction(fraction[1..]) == ones as real / 10.0;
    assert Fraction(fraction) == (tens as real + ones as real / 10.0) / 10.0;
  }

  /** The e-mail shows the exact number of hundredths, without trailing zeros or point. */
  lemma AmountReadsExactly(hundredths: int)
    ensures Value(TrimDecimal(PrintTwoPlaces(hundredths))) == hundredths as real / 100.0
    ensures Tidy(TrimDecimal(PrintTwoPlaces(hundredths)))
  {
    var n := if hundredths < 0 then -hundredths else hundredths;
    var whole, fraction := TwoPlacesDenote(n);
    TrimKeepsUnsigned(whole, fraction);
    var shown := TrimDecimal(whole + "." + fraction);
    assert whole[0] in whole && shown[0] == whole[0];
    if hundredths < 0 {
      TrimKeepsSign(whole + "." + fraction);
      assert ("-" + shown)[1..] == shown;
    }
  }
}
