/** The parts of java.lang that the core relies on: String case mapping, comparison,
    trimming and blankness, Integer/Long decimal rendering and Long.hashCode.
    A Dafny `char` is one Unicode scalar value (a Java code point). */
module JavaLang {

  // ---------------------------------------------------------------- characters

  predicate IsAsciiUpper(c: char) { 'A' <= c <= 'Z' }
  predicate IsAsciiLower(c: char) { 'a' <= c <= 'z' }
  predicate IsAsciiDigit(c: char) { '0' <= c <= '9' }
  predicate IsAsciiAlphanumeric(c: char) { IsAsciiUpper(c) || IsAsciiLower(c) || IsAsciiDigit(c) }

  /** Character.toLowerCase restricted to the ASCII letters. */
  function LowerChar(c: char): (r: char)
    ensures !IsAsciiUpper(r)
    ensures IsAsciiUpper(c) <==> r != c
  {
    if IsAsciiUpper(c) then (c as int + 32) as char else c
  }

  /** Character.toUpperCase restricted to the ASCII letters. */
  function UpperChar(c: char): (r: char)
    ensures !IsAsciiLower(r)
    ensures IsAsciiLower(c) <==> r != c
  {
    if IsAsciiLower(c) then (c as int - 32) as char else c
  }

  /** Character.isWhitespace: the Unicode space, line and paragraph separators other than the
      no-break spaces U+00A0, U+2007 and U+202F, plus U+0009..U+000D and U+001C..U+001F. */
  predicate IsWhitespace(c: char) {
    ('\U{9}' <= c <= '\U{D}') || ('\U{1C}' <= c <= ' ')
    || c == '\U{1680}' || ('\U{2000}' <= c <= '\U{2006}') || ('\U{2008}' <= c <= '\U{200A}')
    || c == '\U{2028}' || c == '\U{2029}' || c == '\U{205F}' || c == '\U{3000}'
  }

  // ---------------------------------------------------------------- strings

  /** String.toLowerCase, with the case mapping restricted to ASCII letters. */
  function ToLower(s: string): (r: string)
    ensures |r| == |s|
    ensures forall i :: 0 <= i < |s| ==> r[i] == LowerChar(s[i])
  {
    seq(|s|, i requires 0 <= i < |s| => LowerChar(s[i]))
  }

  /** String.toUpperCase, with the case mapping restricted to ASCII letters. */
  function ToUpper(s: string): (r: string)
    ensures |r| == |s|
    ensures forall i :: 0 <= i < |s| ==> r[i] == UpperChar(s[i])
  {
    seq(|s|, i requires 0 <= i < |s| => UpperChar(s[i]))
  }

  /** Lower-casing twice is lower-casing once, and the result has no upper-case letter. */
  lemma ToLowerIdempotent(s: string)
    ensures ToLower(ToLower(s)) == ToLower(s)
    ensures forall i :: 0 <= i < |s| ==> !IsAsciiUpper(ToLower(s)[i])
  {
  }

  /** The per-character test of String.regionMatches(ignoreCase = true), which
      String.equalsIgnoreCase applies to two strings of equal length. */
  predicate CharsEqualIgnoringCase(a: char, b: char) {
    a == b || UpperChar(a) == UpperChar(b) || LowerChar(UpperChar(a)) == LowerChar(UpperChar(b))
  }

  /** String.equalsIgnoreCase. */
  predicate EqualsIgnoreCase(a: string, b: string) {
    |a| == |b| && forall i :: 0 <= i < |a| ==> CharsEqualIgnoringCase(a[i], b[i])
  }

  /** Java's character-by-character comparison agrees with comparing the lower-cased strings. */
  lemma EqualsIgnoreCaseIffSameLower(a: string, b: string)
    ensures EqualsIgnoreCase(a, b) <==> ToLower(a) == ToLower(b)
  {
    if |a| == |b| {
      forall i | 0 <= i < |a|
        ensures CharsEqualIgnoringCase(a[i], b[i]) <==> LowerChar(a[i]) == LowerChar(b[i])
      {
      }
      if ToLower(a) == ToLower(b) {
        assert forall i :: 0 <= i < |a| ==> LowerChar(a[i]) == ToLower(a)[i];
      }
    } else {
      assert |ToLower(a)| != |ToLower(b)|;
    }
  }

  /** String.startsWith. */
  predicate StartsWith(s: string, prefix: string) {
    |prefix| <= |s| && s[..|prefix|] == prefix
  }

  /** `sub` occurs in `s` starting at index `i`. */
  predicate OccursAt(s: string, sub: string, i: nat) {
    i + |sub| <= |s| && s[i..i + |sub|] == sub
  }

  /** String.contains. */
  predicate Contains(s: string, sub: string) {
    exists i: nat | i <= |s| :: OccursAt(s, sub, i)
  }

  /** String.isBlank: empty or only Character.isWhitespace code points. */
  predicate IsBlank(s: string) {
    forall i :: 0 <= i < |s| ==> IsWhitespace(s[i])
  }

  /** The number of leading characters that String.trim removes (code point <= U+0020). */
  function LeadingSpaces(s: string): (n: nat)
    ensures n <= |s|
    ensures forall k :: 0 <= k < n ==> s[k] <= ' '
    ensures n < |s| ==> s[n] > ' '
    decreases |s|
  {
    if |s| > 0 && s[0] <= ' ' then 1 + LeadingSpaces(s[1..]) else 0
  }

  /** The number of trailing characters that String.trim removes. */
  function TrailingSpaces(s: string): (n: nat)
    ensures n <= |s|
    ensures forall k :: |s| - n <= k < |s| ==> s[k] <= ' '
    ensures n < |s| ==> s[|s| - 1 - n] > ' '
    decreases |s|
  {
    if |s| > 0 && s[|s| - 1] <= ' ' then 1 + TrailingSpaces(s[..|s| - 1]) else 0
  }

  /** String.trim: drops every leading and trailing character whose code point is at most U+0020. */
  function Trim(s: string): (r: string)
    ensures LeadingSpaces(s) + |r| <= |s|
    ensures r == s[LeadingSpaces(s)..LeadingSpaces(s) + |r|]
    ensures forall k :: LeadingSpaces(s) + |r| <= k < |s| ==> s[k] <= ' '
    ensures r != [] ==> r[0] > ' ' && r[|r| - 1] > ' '
    ensures r == [] <==> forall k :: 0 <= k < |s| ==> s[k] <= ' '
  {
    var st := LeadingSpaces(s);
    var rest := s[st..];
    var r := rest[..|rest| - TrailingSpaces(rest)];
    assert forall k :: 0 <= k < |r| ==> r[k] == s[st + k];
    r
  }

  /** A string without leading or trailing characters <= U+0020 is its own trim. */
  lemma TrimOfTrimmed(s: string)
    requires s != [] ==> s[0] > ' ' && s[|s| - 1] > ' '
    ensures Trim(s) == s
  {
    assert LeadingSpaces(s) == 0;
    assert s[0..] == s;
    assert TrailingSpaces(s) == 0;
  }

  /** String.length: the number of UTF-16 code units; a code point above U+FFFF takes two. */
  function Utf16Length(s: string): (n: nat)
    ensures |s| <= n <= 2 * |s|
  {
    if s == [] then 0 else (if s[0] as int > 0xFFFF then 2 else 1) + Utf16Length(s[1..])
  }

  /** A string of Basic Multilingual Plane characters (ASCII text among them) has one UTF-16 code
      unit per character, so String.length is its number of characters. */
  lemma {:induction false} BmpUtf16Length(s: string)
    requires forall i :: 0 <= i < |s| ==> s[i] as int <= 0xFFFF
    ensures Utf16Length(s) == |s|
  {
    if s != [] {
      BmpUtf16Length(s[1..]);
    }
  }

  // ---------------------------------------------------------------- numbers

  function DigitChar(d: nat): (c: char)
    requires d < 10
    ensures IsAsciiDigit(c)
  {
    ('0' as int + d) as char
  }

  /** Long.toString for a non-negative value: its decimal digits, without leading zeros. */
  function NatToString(n: nat): (r: string)
    ensures 1 <= |r|
    ensures forall i :: 0 <= i < |r| ==> IsAsciiDigit(r[i])
    ensures n < 10 <==> |r| == 1
    decreases n
  {
    if n < 10 then [DigitChar(n)] else NatToString(n / 10) + [DigitChar(n % 10)]
  }

  /** Distinct numbers have distinct decimal renderings. */
  lemma {:induction false} NatToStringInjective(a: nat, b: nat)
    requires NatToString(a) == NatToString(b)
    ensures a == b
  {
    if a >= 10 && b >= 10 {
      var ra, rb := NatToString(a), NatToString(b);
      assert ra == NatToString(a / 10) + [DigitChar(a % 10)];
      assert rb == NatToString(b / 10) + [DigitChar(b % 10)];
      assert ra[|ra| - 1] == DigitChar(a % 10) && rb[|rb| - 1] == DigitChar(b % 10);
      assert a % 10 == b % 10;
      assert NatToString(a / 10) == ra[..|ra| - 1] == rb[..|rb| - 1] == NatToString(b / 10);
      NatToStringInjective(a / 10, b / 10);
    } else if a < 10 && b < 10 {
      assert NatToString(a)[0] == DigitChar(a);
    }
  }

  const INT_MIN: int := -0x8000_0000
  const INT_MAX: int := 0x7FFF_FFFF
  const LONG_MIN: int := -0x8000_0000_0000_0000
  const LONG_MAX: int := 0x7FFF_FFFF_FFFF_FFFF

  /** Long.hashCode: (int)(value ^ (value >>> 32)), on the two's-complement bits of a long. */
  function LongHashCode(v: int): (h: int)
    requires LONG_MIN <= v <= LONG_MAX
    ensures INT_MIN <= h <= INT_MAX
  {
    var bits := (if v < 0 then v + 0x1_0000_0000_0000_0000 else v) as bv64;
    var low := ((bits ^ (bits >> 32)) & 0xFFFF_FFFF) as int;
    if low > INT_MAX then low - 0x1_0000_0000 else low
  }
}
