/** The security principal derived from a user and its role's permission string. Its
    authorities are the permission string split on commas, each piece trimmed and empty pieces
    dropped (Spring's comma-separated authority list). */
module CustomUserDetails {
  import opened Wrappers
  import opened JavaLang
  import opened Users

  // ---------------------------------------------------------------- comma-separated lists

  /** The pieces of `s` between commas, empty pieces included (so there is always one). */
  function SplitOnComma(s: string): (parts: seq<string>)
    ensures |parts| >= 1
    ensures forall i :: 0 <= i < |parts| ==> ',' !in parts[i]
    decreases |s|
  {
    if s == [] then [[]]
    else
      var rest := SplitOnComma(s[1..]);
      if s[0] == ',' then [[]] + rest else [[s[0]] + rest[0]] + rest[1..]
  }

  /** The pieces joined with commas between them. */
  function JoinWithCommas(parts: seq<string>): string {
    if |parts| == 0 then ""
    else if |parts| == 1 then parts[0]
    else parts[0] + "," + JoinWithCommas(parts[1..])
  }

  /** A string that survives tokenizing unchanged: non-empty, comma-free and already trimmed. */
  predicate IsToken(a: string) {
    a != [] && ',' !in a && a[0] > ' ' && a[|a| - 1] > ' '
  }

  /** Each piece trimmed, and the pieces that are then empty dropped. */
  function TrimAndDropEmpty(parts: seq<string>): (r: seq<string>)
    requires forall i :: 0 <= i < |parts| ==> ',' !in parts[i]
    ensures |r| <= |parts|
    ensures forall i :: 0 <= i < |r| ==> IsToken(r[i])
  {
    if parts == [] then []
    else
      var t := Trim(parts[0]);
      TrimKeepsCommaFree(parts[0]);
      var rest := TrimAndDropEmpty(parts[1..]);
      if t == [] then rest
      else
        assert IsToken(t);
        assert forall i :: 1 <= i < |rest| + 1 ==> ([t] + rest)[i] == rest[i - 1];
        [t] + rest
  }

  lemma TrimKeepsCommaFree(s: string)
    requires ',' !in s
    ensures ',' !in Trim(s)
  {
  }

  /** StringUtils.tokenizeToStringArray(s, ","), with trimming and empty tokens ignored. */
  function Tokenize(s: string): (r: seq<string>)
    ensures forall i :: 0 <= i < |r| ==> IsToken(r[i])
  {
    TrimAndDropEmpty(SplitOnComma(s))
  }

  /** Splitting a comma-free prefix followed by `t` extends the first piece of `t`. */
  lemma {:induction false} SplitCommaFreePrefix(a: string, t: string)
    requires ',' !in a
    ensures SplitOnComma(a + t) == [a + SplitOnComma(t)[0]] + SplitOnComma(t)[1..]
    decreases |a|
  {
    if a != [] {
      assert (a + t)[1..] == a[1..] + t;
      assert (a + t)[0] == a[0];
      SplitCommaFreePrefix(a[1..], t);
      assert [a[0]] + (a[1..] + SplitOnComma(t)[0]) == a + SplitOnComma(t)[0];
    } else {
      var p := SplitOnComma(t);
      assert a + t == t;
      assert p == [p[0]] + p[1..];
      assert a + p[0] == p[0];
    }
  }

  /** Splitting a comma-joined list of comma-free pieces gives the pieces back. */
  lemma {:induction false} SplitJoinRoundTrip(parts: seq<string>)
    requires |parts| >= 1
    requires forall i :: 0 <= i < |parts| ==> ',' !in parts[i]
    ensures SplitOnComma(JoinWithCommas(parts)) == parts
    decreases |parts|
  {
    if |parts| == 1 {
      SplitCommaFreePrefix(parts[0], []);
      assert parts[0] + [] == parts[0];
    } else {
      var rest := JoinWithCommas(parts[1..]);
      SplitJoinRoundTrip(parts[1..]);
      assert parts[0] + "," + rest == parts[0] + ("," + rest);
      SplitCommaFreePrefix(parts[0], "," + rest);
      assert JoinWithCommas(parts) == parts[0] + "," + rest;
      assert ("," + rest)[0] == ',' && ("," + rest)[1..] == rest;
      var q := SplitOnComma("," + rest);
      assert q == [[]] + parts[1..];
      assert q[0] == [] && q[1..] == parts[1..];
      assert parts[0] + q[0] == parts[0];
      assert parts == [parts[0]] + parts[1..];
    }
  }

  lemma {:induction false} TrimAndDropEmptyOfTokens(parts: seq<string>)
    requires forall i :: 0 <= i < |parts| ==> IsToken(parts[i])
    ensures forall i :: 0 <= i < |parts| ==> ',' !in parts[i]
    ensures TrimAndDropEmpty(parts) == parts
    decreases |parts|
  {
    assert forall i :: 0 <= i < |parts| ==> ',' !in parts[i] by {
      forall i | 0 <= i < |parts| ensures ',' !in parts[i] { assert IsToken(parts[i]); }
    }
    if parts != [] {
      TrimOfTrimmed(parts[0]);
      TrimAndDropEmptyOfTokens(parts[1..]);
      assert parts == [parts[0]] + parts[1..];
    }
  }

  /** Joining authority names with commas and tokenizing the result gives the names back. */
  lemma TokenizeJoinRoundTrip(names: seq<string>)
    requires forall i :: 0 <= i < |names| ==> IsToken(names[i])
    ensures Tokenize(JoinWithCommas(names)) == names
  {
    if names == [] {
      assert SplitOnComma("") == [[]];
      assert Trim("") == "";
    } else {
      SplitJoinRoundTrip(names);
      TrimAndDropEmptyOfTokens(names);
    }
  }

  /** Tokenizing normalises: re-joining and re-tokenizing a tokenized string changes nothing. */
  lemma TokenizeIsNormalForm(s: string)
    ensures Tokenize(JoinWithCommas(Tokenize(s))) == Tokenize(s)
  {
    TokenizeJoinRoundTrip(Tokenize(s));
  }

  // ---------------------------------------------------------------- the principal

  /** A granted authority holding its name. */
  datatype GrantedAuthority = SimpleGrantedAuthority(authority: string)

  /** Maps each name to an authority, in order. */
  function AuthorityList(names: seq<string>): (r: seq<GrantedAuthority>)
    ensures |r| == |names|
    ensures forall i :: 0 <= i < |r| ==> r[i].authority == names[i]
  {
    seq(|names|, i requires 0 <= i < |names| => SimpleGrantedAuthority(names[i]))
  }

  /** The name of each authority, in order. */
  function AuthorityNames(authorities: seq<GrantedAuthority>): (r: seq<string>)
    ensures |r| == |authorities|
    ensures forall i :: 0 <= i < |r| ==> r[i] == authorities[i].authority
  {
    seq(|authorities|, i requires 0 <= i < |authorities| => authorities[i].authority)
  }

  lemma AuthorityNamesOfList(names: seq<string>)
    ensures AuthorityNames(AuthorityList(names)) == names
  {
  }

  datatype UserDetails = UserDetails(user: User, permissions: string) {
    function Username(): string { user.email }
    function Password(): Option<string> { user.password }
    function IsEnabled(): bool { user.enabled }
    function IsAccountNonLocked(): bool { user.nonLocked }
    /** Not overridden: the interface default. */
    function IsAccountNonExpired(): bool { true }
    /** Not overridden: the interface default. */
    function IsCredentialsNonExpired(): bool { true }
    /** The permissions as a comma-separated authority list. */
    function Authorities(): seq<GrantedAuthority> { AuthorityList(Tokenize(permissions)) }
  }

  /** The principal reports the user's e-mail and stored hash, mirrors its enabled and locked
      flags, never expires, and grants exactly the role's comma-separated permissions. */
  lemma PrincipalMirrorsUser(d: UserDetails, names: seq<string>)
    requires forall i :: 0 <= i < |names| ==> IsToken(names[i])
    requires d.permissions == JoinWithCommas(names)
    ensures d.Username() == d.user.email && d.Password() == d.user.password
    ensures d.IsEnabled() == d.user.enabled && d.IsAccountNonLocked() == d.user.nonLocked
    ensures d.IsAccountNonExpired() && d.IsCredentialsNonExpired()
    ensures AuthorityNames(d.Authorities()) == names
  {
    TokenizeJoinRoundTrip(names);
  }
}
