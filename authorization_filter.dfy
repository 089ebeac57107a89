/** The per-request authorization filter: which requests skip token checking, how the bearer token
    is taken from the Authorization header, and how the outcome of checking it changes the security
    context. Every exception raised while filtering, including one from further down the chain,
    clears the context and is answered by the application's exception handler. */
module AuthorizationFilter {
  import opened Wrappers
  import opened JavaLang
  import opened Errors
  import opened ExceptionHandler
  import opened CustomUserDetails
  import opened TokenProviders

  const TOKEN_PREFIX: string := "Bearer "
  const PUBLIC_ROUTES: seq<string> := ["/users/login", "/users/verify/code", "/users/refresh/token"]

  /** What the filter reads of a request: its method, its URI and its Authorization header. */
  datatype HttpRequest = HttpRequest(httpMethod: string, uri: string, authorization: Option<string>)

  /** The header carries a bearer token (the prefix, with its space, is case-sensitive). */
  predicate HasBearerPrefix(header: Option<string>) {
    header.Some? && StartsWith(header.value, TOKEN_PREFIX)
  }

  /** shouldNotFilter: CORS preflight, a public route, registration, or no bearer header. */
  predicate ShouldNotFilter(r: HttpRequest) {
    EqualsIgnoreCase("OPTIONS", r.httpMethod)
    || r.uri in PUBLIC_ROUTES
    || (r.uri == "/users" && EqualsIgnoreCase(r.httpMethod, "POST"))
    || !HasBearerPrefix(r.authorization)
  }

  lemma LowerOfOptionsAndPost()
    ensures ToLower("OPTIONS") == "options" && ToLower("POST") == "post"
  {
    var o, p := ToLower("OPTIONS"), ToLower("POST");
    assert o[0] == 'o' && o[1] == 'p' && o[2] == 't' && o[3] == 'i' && o[4] == 'o' && o[5] == 'n' && o[6] == 's';
    assert p[0] == 'p' && p[1] == 'o' && p[2] == 's' && p[3] == 't';
  }

  /** The skip rule, restated with the methods' lower-case forms: the method compares in any letter
      case, the routes compare exactly. */
  lemma ShouldNotFilterCharacterization(r: HttpRequest)
    ensures ShouldNotFilter(r) <==>
              ToLower(r.httpMethod) == "options"
              || r.uri == "/users/login" || r.uri == "/users/verify/code" || r.uri == "/users/refresh/token"
              || (r.uri == "/users" && ToLower(r.httpMethod) == "post")
              || r.authorization.None?
              || !(|r.authorization.value| >= 7 && r.authorization.value[..7] == "Bearer ")
  {
    LowerOfOptionsAndPost();
    EqualsIgnoreCaseIffSameLower("OPTIONS", r.httpMethod);
    EqualsIgnoreCaseIffSameLower(r.httpMethod, "POST");
  }

  /** Only the exact public paths are exempt: a longer path that starts with one of them is not. */
  lemma PublicRoutesMatchExactly(route: string, suffix: string)
    requires route in PUBLIC_ROUTES
    requires suffix != []
    ensures route + suffix !in PUBLIC_ROUTES
  {
    var s := route + suffix;
    assert s[7] == route[7];
    assert PUBLIC_ROUTES[0][7] == 'l' && PUBLIC_ROUTES[1][7] == 'v' && PUBLIC_ROUTES[2][7] == 'r';
    assert s[..|route|] == route;
  }

  /** getToken: what follows "Bearer ", trimmed, or nothing without that prefix. */
  function GetToken(header: Option<string>): (t: Option<string>)
    ensures t.Some? <==> HasBearerPrefix(header)
    ensures t.Some? ==> |t.value| <= |header.value| - |TOKEN_PREFIX|
  {
    if HasBearerPrefix(header) then Some(Trim(header.value[|TOKEN_PREFIX|..])) else None
  }

  /** A trimmed token sent as "Bearer " + token is extracted unchanged. */
  lemma GetTokenRoundTrip(token: string)
    requires token != [] ==> token[0] > ' ' && token[|token| - 1] > ' '
    ensures GetToken(Some(TOKEN_PREFIX + token)) == Some(token)
  {
    var h := TOKEN_PREFIX + token;
    assert h[..|TOKEN_PREFIX|] == TOKEN_PREFIX;
    assert h[|TOKEN_PREFIX|..] == token;
    TrimOfTrimmed(token);
  }

  /** A request the filter does not skip always yields a token to check. */
  lemma FilteredRequestsCarryToken(r: HttpRequest)
    requires !ShouldNotFilter(r)
    ensures GetToken(r.authorization).Some?
    ensures ToLower(r.httpMethod) != "options"
  {
    ShouldNotFilterCharacterization(r);
  }

  // ---------------------------------------------------------------- doFilterInternal

  /** What the filter does to the security context. */
  datatype ContextChange = Unchanged | SetTo(authentication: Authentication) | Cleared

  /** The effect of the filter on one request: the context change, the request attribute recorded,
      whether the rest of the chain ran, the response produced by the exception handler, and an
      exception the filter lets escape. */
  datatype FilterOutcome = FilterOutcome(
    context: ContextChange, attribute: Option<string>, chainInvoked: bool,
    resolved: Option<ProblemDetail>, escaped: Option<AppError>)

  /** The context after a change. */
  function ApplyChange(before: Option<Authentication>, c: ContextChange): Option<Authentication> {
    match c
    case Unchanged => before
    case SetTo(a) => Some(a)
    case Cleared => None
  }

  /** Run the rest of the chain, whose outcome is `downstream` (an exception it throws, if any). */
  function ContinueChain(c: ContextChange, attribute: Option<string>, downstream: Option<AppError>, uri: string): FilterOutcome {
    match downstream
    case None => FilterOutcome(c, attribute, true, None, None)
    case Some(e) => FilterOutcome(Cleared, attribute, true, Some(Handle(e, uri)), None)
  }

  /** A failure before the chain: the context is cleared and the exception resolved. */
  function Fail(e: AppError, attribute: Option<string>, uri: string): FilterOutcome {
    FilterOutcome(Cleared, attribute, false, Some(Handle(e, uri)), None)
  }

  /** What checking the token leaves behind: the context change it asks for, the request attribute
      it records, and the exception it throws, if any. */
  datatype TokenCheck = TokenCheck(change: ContextChange, attribute: Option<string>, failure: Option<AppError>)

  /** The try block up to the chain: a non-blank token's subject is checked, and a non-blank subject
      with the token's authorities becomes the context's authentication. */
  function CheckToken(p: TokenProvider, r: HttpRequest, nowMs: nat): (c: TokenCheck)
    ensures c.failure.Some? ==> c.change.Unchanged?
    ensures !c.change.Cleared?
  {
    var token := GetToken(r.authorization);
    if token.Some? && !IsBlank(token.value) then
      var subject := GetSubject(p, token.value, nowMs);
      match subject.result
      case Err(e) => TokenCheck(Unchanged, subject.attribute, Some(e))
      case Ok(email) =>
        if email.Some? && !IsBlank(email.value) then
          match GetAuthorities(p, token.value, nowMs)
          case Err(e) => TokenCheck(Unchanged, None, Some(e))
          case Ok(authorities) => TokenCheck(SetTo(GetAuthentication(email.value, authorities)), None, None)
        else TokenCheck(Unchanged, None, None)
    else TokenCheck(Unchanged, None, None)
  }

  /** doFilterInternal: check the token, then run the chain; an exception from either clears the
      context and is resolved. */
  function FilterInternal(p: TokenProvider, r: HttpRequest, nowMs: nat, downstream: Option<AppError>): (o: FilterOutcome)
    ensures o.resolved.Some? <==> o.context.Cleared?
    ensures o.escaped.None?
  {
    var c := CheckToken(p, r, nowMs);
    match c.failure
    case Some(e) => Fail(e, c.attribute, r.uri)
    case None => ContinueChain(c.change, c.attribute, downstream, r.uri)
  }

  /** OncePerRequestFilter.doFilter: a skipped request goes straight down the chain, and an exception
      from there is not this filter's to handle. */
  function Filter(p: TokenProvider, r: HttpRequest, nowMs: nat, downstream: Option<AppError>): (o: FilterOutcome)
    ensures ShouldNotFilter(r) ==> o == FilterOutcome(Unchanged, None, true, None, downstream)
    ensures !ShouldNotFilter(r) ==> o == FilterInternal(p, r, nowMs, downstream)
  {
    if ShouldNotFilter(r) then FilterOutcome(Unchanged, None, true, None, downstream)
    else FilterInternal(p, r, nowMs, downstream)
  }

  /** A token that fails verification never reaches the chain: the context is cleared and the
      answer is the uniform 401, with the expired or invalid-claim attribute recorded. */
  lemma RejectedTokenStopsTheChain(p: TokenProvider, r: HttpRequest, nowMs: nat, downstream: Option<AppError>)
    requires GetToken(r.authorization).Some? && !IsBlank(GetToken(r.authorization).value)
    requires Verify(p, GetToken(r.authorization).value, nowMs).Err?
    ensures var o := FilterInternal(p, r, nowMs, downstream);
            && !o.chainInvoked && o.context == Cleared
            && o.resolved == Some(AuthenticationFailure(r.uri))
            && o.attribute == GetSubject(p, GetToken(r.authorization).value, nowMs).attribute
  {
    var t := GetToken(r.authorization).value;
    var e := GetSubject(p, t, nowMs).result.error;
    AuthenticationFailuresIndistinguishable(e, JwtAuthenticationInvalid(""), r.uri);
  }

  /** A live access token for a principal with a non-blank username authenticates that principal with
      exactly its authorities, and the chain runs. */
  lemma AccessTokenAuthenticates(p: TokenProvider, r: HttpRequest, principal: UserDetails, issuedMs: nat, nowMs: nat)
    requires GetToken(r.authorization).Some? && !IsBlank(GetToken(r.authorization).value)
    requires p.decode(GetToken(r.authorization).value) == Some(CreateAccessToken(p.secret, principal, issuedMs))
    requires issuedMs <= nowMs && nowMs / 1000 < (issuedMs + ACCESS_TOKEN_EXPIRATION_TIME_MILLIS) / 1000
    requires !IsBlank(principal.Username())
    ensures FilterInternal(p, r, nowMs, None)
            == FilterOutcome(SetTo(Authentication(principal.Username(), None, principal.Authorities(), true)), None, true, None, None)
  {
    AccessTokenRoundTrip(p, GetToken(r.authorization).value, principal, issuedMs, nowMs);
  }

  /** A live refresh token sent as a bearer token ends in a 500: reading its missing authorities claim
      throws, the context is cleared and the chain does not run. */
  lemma RefreshTokenAsBearerIsInternalError(p: TokenProvider, r: HttpRequest, principal: UserDetails, issuedMs: nat, nowMs: nat)
    requires GetToken(r.authorization).Some? && !IsBlank(GetToken(r.authorization).value)
    requires p.decode(GetToken(r.authorization).value) == Some(CreateRefreshToken(p.secret, principal, issuedMs))
    requires issuedMs <= nowMs && nowMs / 1000 < (issuedMs + REFRESH_TOKEN_EXPIRATION_TIME_MILLIS) / 1000
    requires !IsBlank(principal.Username())
    ensures FilterInternal(p, r, nowMs, None) == FilterOutcome(Cleared, None, false, Some(InternalError(r.uri)), None)
  {
    RefreshTokenHasNoAuthorities(p, GetToken(r.authorization).value, principal, issuedMs, nowMs);
  }

  /** A blank token, or a verified token whose subject is missing or blank, leaves the context as it
      was and the chain runs. */
  lemma NoSubjectLeavesContextAlone(p: TokenProvider, r: HttpRequest, nowMs: nat)
    requires var t := GetToken(r.authorization);
             t.Some? && (IsBlank(t.value)
                         || (Verify(p, t.value, nowMs).Ok?
                             && (Verify(p, t.value, nowMs).value.subject.None?
                                 || IsBlank(Verify(p, t.value, nowMs).value.subject.value))))
    ensures FilterInternal(p, r, nowMs, None) == FilterOutcome(Unchanged, None, true, None, None)
  {
  }

  // ---------------------------------------------------------------- the servlet objects

  /** The thread's security context. */
  class SecurityContext {
    var authentication: Option<Authentication>

    constructor()
      ensures authentication.None?
    {
      authentication := None;
    }
  }

  /** A request: fixed method, URI and header, and the names of the attributes set on it. */
  class ServletRequest {
    const httpMethod: string
    const uri: string
    const authorization: Option<string>
    var attributeNames: set<string>

    constructor(httpMethod: string, uri: string, authorization: Option<string>)
      ensures this.httpMethod == httpMethod && this.uri == uri && this.authorization == authorization
      ensures attributeNames == {}
    {
      this.httpMethod := httpMethod;
      this.uri := uri;
      this.authorization := authorization;
      attributeNames := {};
    }

    function View(): HttpRequest {
      HttpRequest(httpMethod, uri, authorization)
    }
  }

  /** The attribute names after recording `attribute`. */
  function WithAttribute(names: set<string>, attribute: Option<string>): set<string> {
    if attribute.Some? then names + {attribute.value} else names
  }

  class CustomAuthorizationFilter {
    const provider: TokenProvider

    constructor(provider: TokenProvider)
      ensures this.provider == provider
    {
      this.provider := provider;
    }

    /** The token check, step by step: records the attribute, sets the authentication, and returns
        the exception raised, if any. */
    method CheckRequestToken(request: ServletRequest, context: SecurityContext, nowMs: nat) returns (failure: Option<AppError>)
      modifies request, context
      ensures var c := CheckToken(provider, request.View(), nowMs);
              && failure == c.failure
              && context.authentication == ApplyChange(old(context.authentication), c.change)
              && request.attributeNames == WithAttribute(old(request.attributeNames), c.attribute)
    {
      failure := None;
      var token := GetToken(request.authorization);
      if token.Some? && !IsBlank(token.value) {
        var subject := GetSubject(provider, token.value, nowMs);
        request.attributeNames := WithAttribute(request.attributeNames, subject.attribute);
        if subject.result.Err? {
          failure := Some(subject.result.error);
        } else if subject.result.value.Some? && !IsBlank(subject.result.value.value) {
          var authorities := GetAuthorities(provider, token.value, nowMs);
          if authorities.Err? {
            failure := Some(authorities.error);
          } else {
            context.authentication := Some(GetAuthentication(subject.result.value.value, authorities.value));
          }
        }
      }
    }

    /** doFilterInternal; `downstream` is what the rest of the chain throws, if anything. */
    method DoFilterInternal(request: ServletRequest, context: SecurityContext, nowMs: nat, downstream: Option<AppError>)
      returns (chainInvoked: bool, resolved: Option<ProblemDetail>)
      modifies request, context
      ensures var o := FilterInternal(provider, request.View(), nowMs, downstream);
              && chainInvoked == o.chainInvoked && resolved == o.resolved
              && context.authentication == ApplyChange(old(context.authentication), o.context)
              && request.attributeNames == WithAttribute(old(request.attributeNames), o.attribute)
    {
      var failure := CheckRequestToken(request, context, nowMs);
      chainInvoked := false;
      if failure.None? {
        chainInvoked := true;
        failure := downstream;
      }
      if failure.Some? {
        context.authentication := None;
        resolved := Some(Handle(failure.value, request.uri));
      } else {
        resolved := None;
      }
    }

    /** doFilter: skip the token check when shouldNotFilter says so; `escaped` is an exception the
        filter passes on to its caller. */
    method DoFilter(request: ServletRequest, context: SecurityContext, nowMs: nat, downstream: Option<AppError>)
      returns (chainInvoked: bool, resolved: Option<ProblemDetail>, escaped: Option<AppError>)
      modifies request, context
      ensures var o := Filter(provider, request.View(), nowMs, downstream);
              && chainInvoked == o.chainInvoked && resolved == o.resolved && escaped == o.escaped
              && context.authentication == ApplyChange(old(context.authentication), o.context)
              && request.attributeNames == WithAttribute(old(request.attributeNames), o.attribute)
    {
      if ShouldNotFilter(request.View()) {
        chainInvoked, resolved, escaped := true, None, downstream;
      } else {
        chainInvoked, resolved := DoFilterInternal(request, context, nowMs, downstream);
        escaped := None;
      }
    }
  }
}
