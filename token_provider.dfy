/** Issuing and checking JSON Web Tokens. Signing is abstract: a decoded token records the claims
    and the secret its HMAC-SHA512 signature was computed over, and the signature checks exactly
    when that secret is the provider's and the claims are unchanged. The verifier follows the order
    of java-jwt: algorithm, signature, issuer, then the expiry, not-before and issued-at instants
    (whole seconds, no leeway). */
module TokenProviders {
  import opened Wrappers
  import opened JavaLang
  import opened Errors
  import opened CustomUserDetails

  const ISSUER: string := "JV_LEAL_DEV"
  const AUDIENCE: string := "SECURECAPITA_API"
  const AUTHORITIES: string := "authorities"
  const ACCESS_TOKEN_EXPIRATION_TIME_MILLIS: nat := 1_800_000
  const REFRESH_TOKEN_EXPIRATION_TIME_MILLIS: nat := 432_000_000
  const HMAC512: string := "HS512"

  const MESSAGE_TOKEN_EXPIRED: string := "Your session has expired. Please log in again."
  const MESSAGE_TOKEN_INVALID: string := "Invalid security token."
  const MESSAGE_TOKEN_ERROR: string := "Authentication failed. Please try again."

  /** The registered claims plus the authorities array claim; instants are in seconds. */
  datatype Claims = Claims(
    issuer: Option<string>,
    audience: seq<string>,
    issuedAt: Option<int>,
    notBefore: Option<int>,
    subject: Option<string>,
    authorities: Option<seq<string>>,
    expiresAt: Option<int>)

  /** A decoded token: its header algorithm, its claims, and the claims and secret it was signed over. */
  datatype Jwt = Jwt(algorithm: string, claims: Claims, signedClaims: Claims, signingSecret: string)

  /** The provider's configured secret and the (abstract) decoding of token strings. */
  datatype TokenProvider = TokenProvider(secret: string, decode: string -> Option<Jwt>)

  /** Why a token fails verification; the two claim failures are the library's InvalidClaimException. */
  datatype VerifyError =
    | DecodeFailed
    | AlgorithmMismatch
    | SignatureInvalid
    | MissingClaim(claim: string)
    | IncorrectClaim(claim: string)
    | TokenExpired(expiresAt: int)
  {
    predicate IsInvalidClaim() { MissingClaim? || IncorrectClaim? }
  }

  /** HMAC512(secret) applied to the given claims. */
  function Sign(secret: string, claims: Claims): Jwt {
    Jwt(HMAC512, claims, claims, secret)
  }

  /** The principal's authorities as claim strings, in order. */
  function ClaimsFromUser(principal: UserDetails): seq<string> {
    AuthorityNames(principal.Authorities())
  }

  /** createAccessToken: issuer, audience, issue instant, subject = username, the authorities claim,
      and expiry 30 minutes after issue. */
  function CreateAccessToken(secret: string, principal: UserDetails, nowMs: nat): (t: Jwt)
    ensures t.claims.issuer == Some(ISSUER) && t.claims.audience == [AUDIENCE]
    ensures t.claims.subject == Some(principal.Username())
    ensures t.claims.authorities == Some(ClaimsFromUser(principal))
    ensures t.claims.issuedAt == Some(nowMs / 1000) && t.claims.notBefore.None?
    ensures t.claims.expiresAt == Some((nowMs + ACCESS_TOKEN_EXPIRATION_TIME_MILLIS) / 1000)
  {
    Sign(secret, Claims(Some(ISSUER), [AUDIENCE], Some(nowMs / 1000), None, Some(principal.Username()),
                        Some(ClaimsFromUser(principal)), Some((nowMs + ACCESS_TOKEN_EXPIRATION_TIME_MILLIS) / 1000)))
  }

  /** createRefreshToken: the same issuer, audience and subject, no authorities claim, and expiry
      five days after issue. */
  function CreateRefreshToken(secret: string, principal: UserDetails, nowMs: nat): (t: Jwt)
    ensures t.claims.issuer == Some(ISSUER) && t.claims.audience == [AUDIENCE]
    ensures t.claims.subject == Some(principal.Username())
    ensures t.claims.authorities.None?
    ensures t.claims.issuedAt == Some(nowMs / 1000) && t.claims.notBefore.None?
    ensures t.claims.expiresAt == Some((nowMs + REFRESH_TOKEN_EXPIRATION_TIME_MILLIS) / 1000)
  {
    Sign(secret, Claims(Some(ISSUER), [AUDIENCE], Some(nowMs / 1000), None, Some(principal.Username()),
                        None, Some((nowMs + REFRESH_TOKEN_EXPIRATION_TIME_MILLIS) / 1000)))
  }

  /** The verifier built by getJWTVerifier, applied to a decoded token at `nowMs`. */
  function VerifyJwt(secret: string, t: Jwt, nowMs: nat): Result<Claims, VerifyError> {
    var now := nowMs / 1000;
    if t.algorithm != HMAC512 then Err(AlgorithmMismatch)
    else if t.signingSecret != secret || t.signedClaims != t.claims then Err(SignatureInvalid)
    else if t.claims.issuer.None? then Err(MissingClaim("iss"))
    else if t.claims.issuer.value != ISSUER then Err(IncorrectClaim("iss"))
    else if t.claims.expiresAt.Some? && !(now < t.claims.expiresAt.value) then Err(TokenExpired(t.claims.expiresAt.value))
    else if t.claims.notBefore.Some? && now < t.claims.notBefore.value then Err(IncorrectClaim("nbf"))
    else if t.claims.issuedAt.Some? && now < t.claims.issuedAt.value then Err(IncorrectClaim("iat"))
    else Ok(t.claims)
  }

  /** JWTVerifier.verify(token): decode, then verify. */
  function Verify(p: TokenProvider, token: string, nowMs: nat): Result<Claims, VerifyError> {
    match p.decode(token)
    case None => Err(DecodeFailed)
    case Some(t) => VerifyJwt(p.secret, t, nowMs)
  }

  /** A token the provider accepts carries the provider's issuer, and its signature was made with the
      provider's secret over exactly these claims. */
  lemma VerifiedTokenIsGenuine(secret: string, t: Jwt, nowMs: nat)
    requires VerifyJwt(secret, t, nowMs).Ok?
    ensures VerifyJwt(secret, t, nowMs).value == t.claims
    ensures t == Sign(secret, t.claims)
    ensures t.claims.issuer == Some(ISSUER)
    ensures t.claims.expiresAt.None? || nowMs / 1000 < t.claims.expiresAt.value
  {
  }

  /** The audience is never checked: tokens differing only in their audience verify alike. */
  lemma AudienceIsNotChecked(secret: string, c: Claims, audience: seq<string>, nowMs: nat)
    ensures VerifyJwt(secret, Sign(secret, c.(audience := audience)), nowMs).Ok?
            <==> VerifyJwt(secret, Sign(secret, c), nowMs).Ok?
  {
  }

  /** The outcome of getSubject: the subject or the exception thrown, and the request attribute set. */
  datatype SubjectOutcome = SubjectOutcome(result: Result<Option<string>, AppError>, attribute: Option<string>)

  /** getSubject: the subject of a token that verifies; otherwise a JwtAuthenticationInvalid whose
      message tells an expired token, an invalid claim and any other failure apart. */
  function GetSubject(p: TokenProvider, token: string, nowMs: nat): (o: SubjectOutcome)
    ensures o.result.Err? ==> o.result.error.JwtAuthenticationInvalid?
    ensures o.result.Ok? <==> Verify(p, token, nowMs).Ok?
  {
    match Verify(p, token, nowMs)
    case Ok(claims) => SubjectOutcome(Ok(claims.subject), None)
    case Err(TokenExpired(_)) => SubjectOutcome(Err(JwtAuthenticationInvalid(MESSAGE_TOKEN_EXPIRED)), Some("expiredMessage"))
    case Err(e) =>
      if e.IsInvalidClaim() then SubjectOutcome(Err(JwtAuthenticationInvalid(MESSAGE_TOKEN_INVALID)), Some("invalidClaim"))
      else SubjectOutcome(Err(JwtAuthenticationInvalid(MESSAGE_TOKEN_ERROR)), None)
  }

  /** The three failure messages of getSubject and the attribute recorded with each. */
  lemma GetSubjectFailureClassification(p: TokenProvider, token: string, nowMs: nat)
    requires Verify(p, token, nowMs).Err?
    ensures var o := GetSubject(p, token, nowMs);
            var e := Verify(p, token, nowMs).error;
            && (e.TokenExpired? <==> o.result.error.message == MESSAGE_TOKEN_EXPIRED)
            && (e.IsInvalidClaim() <==> o.result.error.message == MESSAGE_TOKEN_INVALID)
            && (!e.TokenExpired? && !e.IsInvalidClaim() <==> o.result.error.message == MESSAGE_TOKEN_ERROR)
            && (e.TokenExpired? <==> o.attribute == Some("expiredMessage"))
            && (e.IsInvalidClaim() <==> o.attribute == Some("invalidClaim"))
  {
  }

  /** getAuthorities: the authorities claim of a verified token, one authority per string in order.
      A verification failure becomes JwtAuthenticationInvalid; a token without the claim (the claim's
      array is null) makes the stream throw NullPointerException. */
  function GetAuthorities(p: TokenProvider, token: string, nowMs: nat): (r: Result<seq<GrantedAuthority>, AppError>)
    ensures Verify(p, token, nowMs).Err? ==> r == Err(JwtAuthenticationInvalid(MESSAGE_TOKEN_INVALID))
    ensures r.Ok? ==> Verify(p, token, nowMs).Ok? && Verify(p, token, nowMs).value.authorities.Some?
                      && AuthorityNames(r.value) == Verify(p, token, nowMs).value.authorities.value
  {
    match Verify(p, token, nowMs)
    case Err(_) => Err(JwtAuthenticationInvalid(MESSAGE_TOKEN_INVALID))
    case Ok(claims) =>
      match claims.authorities
      case None => Err(NullPointer)
      case Some(names) => Ok(AuthorityList(names))
  }

  /** An authenticated username/password token. */
  datatype Authentication = Authentication(
    principal: string, credentials: Option<string>, authorities: seq<GrantedAuthority>, authenticated: bool)

  /** getAuthentication: principal = the e-mail, no credentials, exactly the given authorities. */
  function GetAuthentication(email: string, authorities: seq<GrantedAuthority>): (a: Authentication)
    ensures a.principal == email && a.credentials.None? && a.authorities == authorities && a.authenticated
  {
    Authentication(email, None, authorities, true)
  }

  /** Within its lifetime an access token verifies, and gives back the principal's username as subject
      and exactly the principal's authorities in order. */
  lemma AccessTokenRoundTrip(p: TokenProvider, token: string, principal: UserDetails, issuedMs: nat, nowMs: nat)
    requires p.decode(token) == Some(CreateAccessToken(p.secret, principal, issuedMs))
    requires issuedMs <= nowMs
    requires nowMs / 1000 < (issuedMs + ACCESS_TOKEN_EXPIRATION_TIME_MILLIS) / 1000
    ensures GetSubject(p, token, nowMs) == SubjectOutcome(Ok(Some(principal.Username())), None)
    ensures GetAuthorities(p, token, nowMs) == Ok(principal.Authorities())
  {
    var names := ClaimsFromUser(principal);
    assert AuthorityList(names) == principal.Authorities();
  }

  /** From the second of its expiry on, an access token is rejected as expired. */
  lemma AccessTokenExpires(p: TokenProvider, token: string, principal: UserDetails, issuedMs: nat, nowMs: nat)
    requires p.decode(token) == Some(CreateAccessToken(p.secret, principal, issuedMs))
    requires (issuedMs + ACCESS_TOKEN_EXPIRATION_TIME_MILLIS) / 1000 <= nowMs / 1000
    ensures GetSubject(p, token, nowMs).result == Err(JwtAuthenticationInvalid(MESSAGE_TOKEN_EXPIRED))
    ensures GetSubject(p, token, nowMs).attribute == Some("expiredMessage")
    ensures GetAuthorities(p, token, nowMs) == Err(JwtAuthenticationInvalid(MESSAGE_TOKEN_INVALID))
  {
  }

  /** A refresh token verifies for its subject, but asking it for authorities throws
      NullPointerException, since it has no authorities claim. */
  lemma RefreshTokenHasNoAuthorities(p: TokenProvider, token: string, principal: UserDetails, issuedMs: nat, nowMs: nat)
    requires p.decode(token) == Some(CreateRefreshToken(p.secret, principal, issuedMs))
    requires issuedMs <= nowMs
    requires nowMs / 1000 < (issuedMs + REFRESH_TOKEN_EXPIRATION_TIME_MILLIS) / 1000
    ensures GetSubject(p, token, nowMs).result == Ok(Some(principal.Username()))
    ensures GetAuthorities(p, token, nowMs) == Err(NullPointer)
  {
  }

  /** A token signed with another secret is refused with the generic failure message. */
  lemma ForeignSecretIsRejected(p: TokenProvider, token: string, secret: string, c: Claims, nowMs: nat)
    requires p.decode(token) == Some(Sign(secret, c))
    requires secret != p.secret
    ensures GetSubject(p, token, nowMs).result == Err(JwtAuthenticationInvalid(MESSAGE_TOKEN_ERROR))
    ensures GetAuthorities(p, token, nowMs) == Err(JwtAuthenticationInvalid(MESSAGE_TOKEN_INVALID))
  {
  }
}
