/** The string operations of Go's strings package that the service relies on. */
module Text {

  datatype Option<+T> = None | Some(value: T)

  /** Byte-wise string order, Go's `<` on strings and the order of a C-collated column. */
  predicate Less(a: string, b: string) {
    b != [] && (a == [] || a[0] < b[0] || (a[0] == b[0] && Less(a[1..], b[1..])))
  }

  lemma {:induction false} LessIrreflexive(a: string)
    ensures !Less(a, a)
  {
    if a == [] {
    } else {
      LessIrreflexive(a[1..]);
    }
  }

  lemma {:induction false} LessTransitive(a: string, b: string, c: string)
    requires Less(a, b) && Less(b, c)
    ensures Less(a, c)
  {
    if a != [] && a[0] == b[0] == c[0] {
      LessTransitive(a[1..], b[1..], c[1..]);
    }
  }

  lemma {:induction false} LessTotal(a: string, b: string)
    ensures a == b || Less(a, b) || Less(b, a)
  {
    if a != [] && b != [] && a[0] == b[0] {
      LessTotal(a[1..], b[1..]);
      assert a == [a[0]] + a[1..] && b == [b[0]] + b[1..];
    }
  }

  lemma LessAsymmetric(a: string, b: string)
    requires Less(a, b)
    ensures !Less(b, a) && a != b
  {
    LessIrreflexive(a);
    if Less(b, a) { LessTransitive(a, b, a); }
  }

  /** Strings compare by their first difference, and a proper prefix comes before what it starts. */
  lemma {:induction false} LessIsLexicographic(a: string, b: string)
    ensures Less(a, b) <==> exists k :: 0 <= k <= |a| && k < |b| && a[..k] == b[..k] && (k == |a| || a[k] < b[k])
  {
    if a != [] && b != [] && a[0] == b[0] {
      LessIsLexicographic(a[1..], b[1..]);
      var a', b' := a[1..], b[1..];
      if k :| 0 <= k <= |a'| && k < |b'| && a'[..k] == b'[..k] && (k == |a'| || a'[k] < b'[k]) {
        assert a[..k + 1] == [a[0]] + a[1..][..k] && b[..k + 1] == [b[0]] + b[1..][..k];
      }
      if k :| 0 <= k <= |a| && k < |b| && a[..k] == b[..k] && (k == |a| || a[k] < b[k]) {
        assert k > 0 && a[1..][..k - 1] == a[..k][1..] && b[1..][..k - 1] == b[..k][1..];
      }
    } else if b != [] {
      assert a[..0] == b[..0];
    }
  }

  /** The white space of unicode.IsSpace, which strings.TrimSpace strips. */
  predicate IsSpace(c: char) {
    '\t' <= c <= '\r' || c == ' ' || c == '\U{85}' || c == '\U{A0}' || c == '\U{1680}' ||
    '\U{2000}' <= c <= '\U{200A}' || c == '\U{2028}' || c == '\U{2029}' || c == '\U{202F}' ||
    c == '\U{205F}' || c == '\U{3000}'
  }

  /** The 25 characters with the White_Space property of Unicode. */
  const WHITE_SPACE: set<int> := {9, 10, 11, 12, 13, 32, 133, 160, 5760, 8192, 8193, 8194, 8195, 8196, 8197, 8198, 8199,
                                  8200, 8201, 8202, 8232, 8233, 8239, 8287, 12288}

  lemma SpaceIsWhiteSpace(c: char)
    ensures IsSpace(c) <==> c as int in WHITE_SPACE
  {}

  function TrimLeft(s: string): string {
    if s != [] && IsSpace(s[0]) then TrimLeft(s[1..]) else s
  }

  function TrimRight(s: string): string {
    if s != [] && IsSpace(s[|s| - 1]) then TrimRight(s[..|s| - 1]) else s
  }

  /** strings.TrimSpace: no white space is left at either end. */
  function TrimSpace(s: string): (r: string)
    ensures Trimmed(r)
  {
    TrimLeftStart(s);
    TrimRightKeepsStart(TrimLeft(s));
    TrimRight(TrimLeft(s))
  }

  predicate Trimmed(s: string) {
    s == [] || (!IsSpace(s[0]) && !IsSpace(s[|s| - 1]))
  }

  lemma TrimLeftStart(s: string)
    ensures TrimLeft(s) == [] || !IsSpace(TrimLeft(s)[0])
  {}

  lemma TrimRightKeepsStart(s: string)
    ensures TrimRight(s) <= s
    ensures TrimRight(s) == [] || !IsSpace(TrimRight(s)[|TrimRight(s)| - 1])
  {}

  predicate Blank(s: string) { forall c :: c in s ==> IsSpace(c) }

  lemma {:induction false} TrimLeftDrops(s: string) returns (front: string)
    ensures s == front + TrimLeft(s) && Blank(front)
  {
    front := "";
    if s != [] && IsSpace(s[0]) {
      var rest := TrimLeftDrops(s[1..]);
      front := [s[0]] + rest;
      assert s == [s[0]] + s[1..];
    }
  }

  lemma {:induction false} TrimRightDrops(s: string) returns (end: string)
    ensures s == TrimRight(s) + end && Blank(end)
  {
    end := "";
    if s != [] && IsSpace(s[|s| - 1]) {
      var rest := TrimRightDrops(s[..|s| - 1]);
      end := rest + [s[|s| - 1]];
      assert s == s[..|s| - 1] + [s[|s| - 1]];
    }
  }

  /** Trimming takes white space from the two ends and nothing else. */
  lemma TrimDropsBlanks(s: string) returns (front: string, end: string)
    ensures s == front + TrimSpace(s) + end && Blank(front) && Blank(end)
  {
    front := TrimLeftDrops(s);
    end := TrimRightDrops(TrimLeft(s));
  }

  lemma TrimmedIsFixed(s: string)
    requires Trimmed(s)
    ensures TrimSpace(s) == s
  {}

  lemma BlankIsEmpty(s: string)
    ensures Blank(s) <==> TrimSpace(s) == ""
  {
    var front, end := TrimDropsBlanks(s);
    if TrimSpace(s) != "" {
      assert TrimSpace(s)[0] in s;
    }
  }

  lemma {:induction false} TrimLeftStrips(front: string, s: string)
    requires Blank(front)
    ensures TrimLeft(front + s) == TrimLeft(s)
  {
    if front == "" {
      assert front + s == s;
    } else {
      assert front[0] in front && (front + s)[1..] == front[1..] + s;
      TrimLeftStrips(front[1..], s);
    }
  }

  lemma {:induction false} TrimRightStrips(s: string, end: string)
    requires Blank(end)
    ensures TrimRight(s + end) == TrimRight(s)
  {
    if end == "" {
      assert s + end == s;
    } else {
      assert end[|end| - 1] in end && (s + end)[..|s + end| - 1] == s + end[..|end| - 1];
      TrimRightStrips(s, end[..|end| - 1]);
    }
  }

  /** White space around a trimmed text goes, and the text stays. */
  lemma TrimStrips(front: string, s: string, end: string)
    requires Blank(front) && Blank(end) && Trimmed(s) && s != ""
    ensures TrimSpace(front + s + end) == s
  {
    assert front + s + end == front + (s + end);
    TrimLeftStrips(front, s + end);
    assert (s + end)[0] == s[0];
    TrimRightStrips(s, end);
  }

  /** ASCII case mapping. */
  function LowerChar(c: char): char {
    if 'A' <= c <= 'Z' then (c as int + 32) as char else c
  }

  function UpperChar(c: char): char {
    if 'a' <= c <= 'z' then (c as int - 32) as char else c
  }

  function ToLower(s: string): (r: string)
    ensures |r| == |s| && forall i :: 0 <= i < |s| ==> r[i] == LowerChar(s[i])
  {
    seq(|s|, i requires 0 <= i < |s| => LowerChar(s[i]))
  }

  function ToUpper(s: string): (r: string)
    ensures |r| == |s| && forall i :: 0 <= i < |s| ==> r[i] == UpperChar(s[i])
  {
    seq(|s|, i requires 0 <= i < |s| => UpperChar(s[i]))
  }

  const UPPER_LETTERS := "ABCDEFGHIJKLMNOPQRSTUVWXYZ"
  const LOWER_LETTERS := "abcdefghijklmnopqrstuvwxyz"

  /** `a` and `b` are the same letter, one of them perhaps in the other case, or the same other character. */
  predicate SameLetter(a: char, b: char) {
    a == b || (exists i :: 0 <= i < 26 && a == UPPER_LETTERS[i] && b == LOWER_LETTERS[i])
    || (exists i :: 0 <= i < 26 && a == LOWER_LETTERS[i] && b == UPPER_LETTERS[i])
  }

  lemma Alphabet(i: nat)
    requires i < 26
    ensures UPPER_LETTERS[i] == ('A' as int + i) as char && LOWER_LETTERS[i] == ('a' as int + i) as char
  {
    if i < 13 {
      assert i == 0 || i == 1 || i == 2 || i == 3 || i == 4 || i == 5 || i == 6 || i == 7 || i == 8 || i == 9 ||
        i == 10 || i == 11 || i == 12;
    } else {
      assert i == 13 || i == 14 || i == 15 || i == 16 || i == 17 || i == 18 || i == 19 || i == 20 || i == 21 ||
        i == 22 || i == 23 || i == 24 || i == 25;
    }
  }

  lemma UpperLetters(c: char)
    ensures c in UPPER_LETTERS <==> 'A' <= c <= 'Z'
  {
    forall i | 0 <= i < 26 ensures UPPER_LETTERS[i] == ('A' as int + i) as char { Alphabet(i); }
    if 'A' <= c <= 'Z' { assert c == UPPER_LETTERS[c as int - 65]; }
  }

  lemma LowerLetters(c: char)
    ensures c in LOWER_LETTERS <==> 'a' <= c <= 'z'
  {
    forall i | 0 <= i < 26 ensures LOWER_LETTERS[i] == ('a' as int + i) as char { Alphabet(i); }
    if 'a' <= c <= 'z' { assert c == LOWER_LETTERS[c as int - 97]; }
  }

  lemma FoldsToOne(a: char, b: char)
    ensures LowerChar(a) == LowerChar(b) <==> SameLetter(a, b)
    ensures UpperChar(a) == UpperChar(b) <==> SameLetter(a, b)
  {
    forall i | 0 <= i < 26
      ensures UPPER_LETTERS[i] == ('A' as int + i) as char && LOWER_LETTERS[i] == ('a' as int + i) as char
    {
      Alphabet(i);
    }
    if 'A' <= a <= 'Z' && b as int == a as int + 32 { assert a == UPPER_LETTERS[a as int - 65]; }
    if 'A' <= b <= 'Z' && a as int == b as int + 32 { assert b == UPPER_LETTERS[b as int - 65]; }
  }

  /** Two strings differ in letter case only. */
  predicate SameLetters(a: string, b: string) { |a| == |b| && forall i :: 0 <= i < |a| ==> SameLetter(a[i], b[i]) }

  /** Lower-casing, like upper-casing, makes equal exactly the strings that differ in letter case only. */
  lemma CaseFolds(a: string, b: string)
    ensures ToLower(a) == ToLower(b) <==> SameLetters(a, b)
    ensures ToUpper(a) == ToUpper(b) <==> SameLetters(a, b)
  {
    forall i | 0 <= i < |a| && i < |b|
      ensures LowerChar(a[i]) == LowerChar(b[i]) <==> SameLetter(a[i], b[i])
      ensures UpperChar(a[i]) == UpperChar(b[i]) <==> SameLetter(a[i], b[i])
    {
      FoldsToOne(a[i], b[i]);
    }
    if SameLetters(a, b) {
      assert forall i :: 0 <= i < |a| ==> ToLower(a)[i] == ToLower(b)[i] && ToUpper(a)[i] == ToUpper(b)[i];
    }
    if ToLower(a) == ToLower(b) {
      assert forall i :: 0 <= i < |a| ==> ToLower(a)[i] == ToLower(b)[i];
    }
    if ToUpper(a) == ToUpper(b) {
      assert forall i :: 0 <= i < |a| ==> ToUpper(a)[i] == ToUpper(b)[i];
    }
  }

  predicate HasPrefix(s: string, p: string) { p <= s }

  predicate HasSuffix(s: string, p: string) {
    |p| <= |s| && s[|s| - |p|..] == p
  }

  /** strings.Cut: the text before and after the first separator. */
  function Cut(s: string, separator: char): Option<(string, string)> {
    if s == [] then None
    else if s[0] == separator then Some(("", s[1..]))
    else match Cut(s[1..], separator) case Some((a, b)) => Some(([s[0]] + a, b)) case None => None
  }

  lemma {:induction false} CutAtFirst(a: string, separator: char, b: string)
    requires separator !in a
    ensures Cut(a + [separator] + b, separator) == Some((a, b))
  {
    var s := a + [separator] + b;
    if a == [] {
      assert s[1..] == b;
    } else {
      assert s[1..] == a[1..] + [separator] + b;
      CutAtFirst(a[1..], separator, b);
      assert [a[0]] + a[1..] == a;
    }
  }

  /** strings.Contains. */
  predicate Contains(s: string, q: string) {
    q <= s || (s != [] && Contains(s[1..], q))
  }

  predicate OccursAt(s: string, q: string, i: int) { 0 <= i <= |s| - |q| && s[i..i + |q|] == q }

  lemma {:induction false} ContainsExactly(s: string, q: string)
    ensures Contains(s, q) <==> exists i :: OccursAt(s, q, i)
  {
    if q <= s {
      assert OccursAt(s, q, 0);
    } else if s != [] {
      ContainsExactly(s[1..], q);
      if i :| OccursAt(s[1..], q, i) { assert OccursAt(s, q, i + 1); }
      if i :| OccursAt(s, q, i) {
        assert i == 0 ==> q <= s;
        assert OccursAt(s[1..], q, i - 1);
      }
    }
  }

  /** Length in bytes of the UTF-8 encoding, what Go's len counts. */
  function Utf8Length(s: string): nat {
    if s == [] then 0
    else
      var c := s[0] as int;
      (if c < 0x80 then 1 else if c < 0x800 then 2 else if c < 0x10000 then 3 else 4) + Utf8Length(s[1..])
  }

  /** The octets of one character (section 3 of RFC 3629). */
  function Octets(c: char): seq<nat> {
    var n := c as int;
    if n <= 0x7F then [n]
    else if n <= 0x7FF then [0xC0 + n / 64, 0x80 + n % 64]
    else if n <= 0xFFFF then [0xE0 + n / 4096, 0x80 + n / 64 % 64, 0x80 + n % 64]
    else [0xF0 + n / 262144, 0x80 + n / 4096 % 64, 0x80 + n / 64 % 64, 0x80 + n % 64]
  }

  function Encoded(s: string): seq<nat> {
    if s == "" then [] else Octets(s[0]) + Encoded(s[1..])
  }

  lemma {:induction false} Utf8LengthIs(s: string)
    ensures Utf8Length(s) == |Encoded(s)|
  {
    if s == "" {
    } else {
      Utf8LengthIs(s[1..]);
    }
  }
}
