/** The meaning of the Bean Validation constraints the request records use, and the password
    policy both password fields share. A missing (null) value passes every constraint except
    @NotBlank. @Size counts UTF-16 code units; a regular expression counts code points. */
module BeanValidation {
  import opened Wrappers
  import opened JavaLang

  /** @NotBlank: present, and not empty once trimmed. */
  predicate NotBlank(v: Option<string>) {
    v.Some? && Trim(v.value) != []
  }

  /** @Size(min, max). */
  predicate Size(v: Option<string>, min: nat, max: nat) {
    v.None? || min <= Utf16Length(v.value) <= max
  }

  /** The characters `.` does not match: the line terminators of java.util.regex. */
  predicate IsLineTerminator(c: char) {
    c == '\n' || c == '\r' || c == '\U{85}' || c == '\U{2028}' || c == '\U{2029}'
  }

  /** The special-character class of the password expression. Its inner `[{}]` is a union, so the
      class holds exactly these characters: U+2013 EN DASH rather than the ASCII hyphen, and
      neither square bracket. */
  predicate IsPasswordSpecial(c: char) {
    c == '!' || c == '@' || c == '#' || c == '&' || c == '(' || c == ')' || c == '\U{2013}'
    || c == '{' || c == '}' || c == ':' || c == ';' || c == '\'' || c == ',' || c == '?'
    || c == '/' || c == '*' || c == '~' || c == '$' || c == '^' || c == '+' || c == '=' || c == '<' || c == '>'
  }

  /** The whole string matches the password expression (four look-aheads, then `.{8,20}`):
      8 to 20 code points, none a line terminator, with an ASCII digit, an ASCII lower-case letter,
      an ASCII upper-case letter and a special character somewhere. */
  predicate MatchesPasswordPattern(s: string) {
    8 <= |s| <= 20
    && (forall i :: 0 <= i < |s| ==> !IsLineTerminator(s[i]))
    && (exists i :: 0 <= i < |s| && IsAsciiDigit(s[i]))
    && (exists i :: 0 <= i < |s| && IsAsciiLower(s[i]))
    && (exists i :: 0 <= i < |s| && IsAsciiUpper(s[i]))
    && (exists i :: 0 <= i < |s| && IsPasswordSpecial(s[i]))
  }

  /** @Pattern with the password expression: a null value passes. */
  predicate PasswordPatternAccepts(v: Option<string>) {
    v.None? || MatchesPasswordPattern(v.value)
  }

  /** The three constraints on a password field: @NotBlank, @Size(min = 8, max = 255) and the pattern. */
  predicate IsValidPassword(v: Option<string>) {
    NotBlank(v) && Size(v, 8, 255) && PasswordPatternAccepts(v)
  }

  /** The pattern alone decides: it implies both @NotBlank and @Size(8, 255), and its 20-code-point
      limit is the effective maximum. */
  lemma PasswordPolicyIsThePattern(v: Option<string>)
    ensures IsValidPassword(v) <==> v.Some? && MatchesPasswordPattern(v.value)
    ensures IsValidPassword(v) ==> 8 <= |v.value| <= 20
  {
    if v.Some? && MatchesPasswordPattern(v.value) {
      var s := v.value;
      var i :| 0 <= i < |s| && IsAsciiDigit(s[i]);
      assert s[i] > ' ';
      assert Trim(s) != [];
    }
  }

  /** Spaces are accepted: a password with a space in it satisfies the policy. */
  lemma SpacesAreAccepted()
    ensures IsValidPassword(Some("Aa1! bcd"))
  {
    var s := "Aa1! bcd";
    assert IsAsciiDigit(s[2]) && IsAsciiLower(s[1]) && IsAsciiUpper(s[0]) && IsPasswordSpecial(s[3]);
    PasswordPolicyIsThePattern(Some(s));
  }

  /** The ASCII hyphen does not count as a special character. */
  lemma HyphenIsNotSpecial()
    ensures !IsValidPassword(Some("Aa1-bcde"))
  {
    var s := "Aa1-bcde";
    assert s[0] == 'A' && s[1] == 'a' && s[2] == '1' && s[3] == '-';
    assert s[4] == 'b' && s[5] == 'c' && s[6] == 'd' && s[7] == 'e';
    assert forall i :: 0 <= i < |s| ==> !IsPasswordSpecial(s[i]);
  }

  /** The en dash (U+2013) does count as a special character. */
  lemma EnDashIsSpecial()
    ensures IsValidPassword(Some("Aa1\U{2013}bcde"))
  {
    var t := "Aa1\U{2013}bcde";
    assert IsAsciiDigit(t[2]) && IsAsciiLower(t[1]) && IsAsciiUpper(t[0]) && IsPasswordSpecial(t[3]);
    PasswordPolicyIsThePattern(Some(t));
  }

  /** @Size gives an upper bound on code points too, since each takes at least one UTF-16 unit. */
  lemma SizeBoundsCodePoints(v: Option<string>, min: nat, max: nat)
    requires Size(v, min, max) && v.Some?
    ensures |v.value| <= max
  {
  }

  /** @NotBlank rejects the empty string and strings of spaces and control characters only. */
  lemma NotBlankMeaning(s: string)
    ensures NotBlank(Some(s)) <==> exists i :: 0 <= i < |s| && s[i] > ' '
  {
  }
}
