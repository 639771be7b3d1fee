/** `uuid.UUID(text)` and `str(uuid)`: the text the constructor accepts and the canonical
    lower-case 8-4-4-4-12 form a UUID prints as. Agent and task ids travel as these texts. */
module Uuids {
  import opened Wrappers
  import Strings

  predicate IsHexDigit(c: char) {
    '0' <= c <= '9' || 'a' <= c <= 'f' || 'A' <= c <= 'F'
  }

  predicate IsLowerHexDigit(c: char) {
    '0' <= c <= '9' || 'a' <= c <= 'f'
  }

  /** The positions of the four hyphens in the printed form. */
  predicate HyphenAt(i: int) {
    i == 8 || i == 13 || i == 18 || i == 23
  }

  /** The text `str(uuid)` prints: 36 characters, hyphens at 8, 13, 18 and 23 and
      lower-case hex digits everywhere else. */
  predicate IsCanonical(s: string) {
    |s| == 36 && forall i | 0 <= i < 36 :: if HyphenAt(i) then s[i] == '-' else IsLowerHexDigit(s[i])
  }

  /** `s.replace(pat, "")`: occurrences are removed left to right and the text after a
      removal is not rescanned together with what came before it. */
  function Erase(s: string, pat: string): (r: string)
    requires pat != []
    ensures |r| <= |s|
    decreases |s|
  {
    if |pat| <= |s| && s[..|pat|] == pat then Erase(s[|pat|..], pat)
    else if s == [] then []
    else [s[0]] + Erase(s[1..], pat)
  }

  predicate IsBrace(c: char) {
    c == '{' || c == '}'
  }

  /** `s.strip("{}")`. */
  function StripBraces(s: string): (r: string)
    ensures |r| <= |s|
    decreases |s|
  {
    if s != [] && IsBrace(s[0]) then StripBraces(s[1..])
    else if s != [] && IsBrace(s[|s| - 1]) then StripBraces(s[..|s| - 1])
    else s
  }

  /** `s.replace("-", "")`. */
  function DropHyphens(s: string): (r: string)
    ensures |r| <= |s|
  {
    if s == [] then [] else (if s[0] == '-' then [] else [s[0]]) + DropHyphens(s[1..])
  }

  /** What `UUID(text)` hands to `int(_, 16)`: the text without "urn:" and "uuid:", without
      surrounding braces and without hyphens. */
  function HexOf(text: string): string {
    DropHyphens(StripBraces(Erase(Erase(text, "urn:"), "uuid:")))
  }

  /** `'%032x' % int(h, 16)` cut into groups of 8, 4, 4, 4 and 12 digits. */
  function Hyphenate(h: string): string
    requires |h| == 32
  {
    var l := Strings.Lower(h);
    l[..8] + "-" + l[8..12] + "-" + l[12..16] + "-" + l[16..20] + "-" + l[20..]
  }

  /** `str(UUID(text))`, or `None` where the constructor raises ValueError because the
      text does not leave exactly 32 hex digits. */
  function ParseUuid(text: string): (r: Option<string>)
    ensures r.Some? <==> |HexOf(text)| == 32 && forall i | 0 <= i < 32 :: IsHexDigit(HexOf(text)[i])
    ensures r.Some? ==> IsCanonical(r.value)
  {
    var h := HexOf(text);
    if |h| == 32 && forall i | 0 <= i < 32 :: IsHexDigit(h[i]) then
      var l := Strings.Lower(h);
      assert forall i | 0 <= i < 32 :: IsLowerHexDigit(l[i]);
      Some(Hyphenate(h))
    else None
  }

  /** The 32 digits of a printed UUID. */
  function Digits(c: string): string
    requires |c| == 36
  {
    c[..8] + c[9..13] + c[14..18] + c[19..23] + c[24..]
  }

  lemma {:induction false} DropHyphensAppend(a: string, b: string)
    ensures DropHyphens(a + b) == DropHyphens(a) + DropHyphens(b)
  {
    if a != [] {
      var h := if a[0] == '-' then [] else [a[0]];
      assert (a + b)[0] == a[0] && (a + b)[1..] == a[1..] + b;
      DropHyphensAppend(a[1..], b);
      assert DropHyphens(a + b) == h + (DropHyphens(a[1..]) + DropHyphens(b));
      assert h + (DropHyphens(a[1..]) + DropHyphens(b)) == (h + DropHyphens(a[1..])) + DropHyphens(b);
    } else {
      assert a + b == b;
    }
  }

  lemma {:induction false} DropHyphensNone(a: string)
    requires forall i | 0 <= i < |a| :: a[i] != '-'
    ensures DropHyphens(a) == a
  {
    if a != [] {
      DropHyphensNone(a[1..]);
    }
  }

  /** A text without a colon holds neither "urn:" nor "uuid:". */
  lemma {:induction false} EraseAbsent(s: string, pat: string)
    requires pat != [] && pat[|pat| - 1] == ':'
    requires forall i | 0 <= i < |s| :: s[i] != ':'
    ensures Erase(s, pat) == s
    decreases |s|
  {
    if |pat| <= |s| && s[..|pat|] == pat {
      assert false;
    } else if s != [] {
      EraseAbsent(s[1..], pat);
      assert [s[0]] + s[1..] == s;
    }
  }

  /** Dropping the hyphens of a text whose first hyphen is at `k`. */
  lemma DropAt(s: string, k: nat)
    requires k < |s| && s[k] == '-' && forall i | 0 <= i < k :: s[i] != '-'
    ensures DropHyphens(s) == s[..k] + DropHyphens(s[k + 1..])
  {
    var head, rest := s[..k], [s[k]] + s[k + 1..];
    assert s == head + rest;
    DropHyphensAppend(head, rest);
    DropHyphensNone(head);
    assert rest[0] == '-' && rest[1..] == s[k + 1..];
    assert DropHyphens(rest) == DropHyphens(s[k + 1..]);
  }

  /** The hyphens of a 36-character text with hyphens exactly at the printed positions. */
  lemma DropFourHyphens(s: string)
    requires |s| == 36 && forall i | 0 <= i < 36 :: (s[i] == '-' <==> HyphenAt(i))
    ensures DropHyphens(s) == Digits(s)
  {
    var s1 := s[9..];
    var s2 := s1[5..];
    var s3 := s2[5..];
    var s4 := s3[5..];
    DropAt(s, 8);
    DropAt(s1, 4);
    DropAt(s2, 4);
    DropAt(s3, 4);
    DropHyphensNone(s4);
    assert s1[..4] == s[9..13] && s2[..4] == s[14..18] && s3[..4] == s[19..23] && s4 == s[24..];
  }

  /** A text without a colon or a surrounding brace reaches `DropHyphens` unchanged. */
  lemma HexOfBare(s: string)
    requires forall i | 0 <= i < |s| :: s[i] != ':'
    requires s != [] ==> !IsBrace(s[0]) && !IsBrace(s[|s| - 1])
    ensures HexOf(s) == DropHyphens(s)
  {
    EraseAbsent(s, "urn:");
    EraseAbsent(s, "uuid:");
  }

  /** The hex digits of a printed UUID, in either case, reach `int(_, 16)` as its 32
      digits. */
  lemma HexOfPlain(s: string)
    requires |s| == 36 && forall i | 0 <= i < 36 :: (s[i] == '-' <==> HyphenAt(i))
    requires forall i | 0 <= i < 36 :: s[i] != ':' && !IsBrace(s[i])
    ensures HexOf(s) == Digits(s)
  {
    HexOfBare(s);
    DropFourHyphens(s);
  }

  /** Hyphenating the digits of a text that differs from a printed UUID `c` at most in
      the case of its letters gives back `c`. */
  lemma HyphenateDigits(s: string, c: string)
    requires IsCanonical(c) && |s| == 36
    requires forall i | 0 <= i < 36 :: Strings.LowerChar(s[i]) == c[i]
    ensures Hyphenate(Digits(s)) == c
  {
    var d := Digits(s);
    var l := Strings.Lower(d);
    assert forall j | 0 <= j < 8 :: l[j] == c[j];
    assert forall j | 8 <= j < 12 :: l[j] == c[j + 1];
    assert forall j | 12 <= j < 16 :: l[j] == c[j + 2];
    assert forall j | 16 <= j < 20 :: l[j] == c[j + 3];
    assert forall j | 20 <= j < 32 :: l[j] == c[j + 4];
    assert l[..8] == c[..8];
    assert l[8..12] == c[9..13];
    assert l[12..16] == c[14..18];
    assert l[16..20] == c[19..23];
    assert l[20..] == c[24..];
    assert c == c[..8] + "-" + c[9..13] + "-" + c[14..18] + "-" + c[19..23] + "-" + c[24..];
  }

  /** A printed UUID parses to itself: `str(UUID(str(u))) == str(u)`. */
  lemma CanonicalParses(c: string)
    requires IsCanonical(c)
    ensures ParseUuid(c) == Some(c)
  {
    HexOfPlain(c);
    HyphenateDigits(c, c);
  }

  /** Parsing is idempotent: the text it gives parses to itself. */
  lemma ParseIdempotent(text: string)
    requires ParseUuid(text).Some?
    ensures ParseUuid(ParseUuid(text).value) == ParseUuid(text)
  {
    CanonicalParses(ParseUuid(text).value);
  }

  /** `s.upper()` on the letters a printed UUID holds. */
  function UpperHex(c: string): (r: string)
    ensures |r| == |c|
  {
    seq(|c|, i requires 0 <= i < |c| => if 'a' <= c[i] <= 'f' then (c[i] as int - 32) as char else c[i])
  }

  /** The upper-case form of a printed UUID names the same UUID. */
  lemma UpperCaseParses(c: string)
    requires IsCanonical(c)
    ensures ParseUuid(UpperHex(c)) == Some(c)
  {
    var u := UpperHex(c);
    assert forall i | 0 <= i < 36 :: Strings.LowerChar(u[i]) == c[i];
    HexOfPlain(u);
    HyphenateDigits(u, c);
  }

  /** The braced form "{...}" of a printed UUID names the same UUID. */
  lemma BracedParses(c: string)
    requires IsCanonical(c)
    ensures ParseUuid("{" + c + "}") == Some(c)
  {
    var b := "{" + c + "}";
    EraseAbsent(b, "urn:");
    EraseAbsent(b, "uuid:");
    assert b[1..] == c + "}";
    assert (c + "}")[..|c + "}"| - 1] == c;
    assert StripBraces(c) == c;
    assert StripBraces(c + "}") == StripBraces(c);
    assert StripBraces(b) == c;
    HexOfBare(c);
    assert HexOf(b) == HexOf(c);
    CanonicalParses(c);
    assert ParseUuid(b) == ParseUuid(c);
  }

  /** A text shorter than 32 characters never leaves 32 digits, so `UUID()` refuses it. */
  lemma ShortTextRefused(text: string)
    requires |text| < 32
    ensures ParseUuid(text) == None
  {
  }
}
