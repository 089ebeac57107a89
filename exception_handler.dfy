/** The application-wide exception handler: which response (status, title, detail) each
    exception becomes, and the problem-detail records it builds. */
module ExceptionHandler {
  import opened Wrappers
  import opened JavaLang
  import opened Errors
  import opened SqlErrors

  /** An RFC 7807 problem detail; `typeUri` is the `type` member and `instance` the request URI. */
  datatype ProblemDetail = ProblemDetail(status: nat, title: string, detail: string, typeUri: string, instance: string)

  const INTERNAL_SERVER_ERROR_TITLE: string := "Internal Server Error"
  const INTERNAL_SERVER_ERROR_MESSAGE: string := "An unexpected error occurred. Please try again later."
  const AUTHENTICATION_ERROR_TITLE: string := "Authentication Failed"
  const AUTHENTICATION_ERROR_MESSAGE: string := "Authentication failed."
  const MALFORMED_JSON_MESSAGE: string := "Malformed JSON request or invalid field type."
  const TYPE_PREFIX: string := "urn:error:"

  /** createProblemDetail: the type URI names the status code and the instance is the request URI. */
  function CreateProblemDetail(status: nat, detail: string, title: string, uri: string): (p: ProblemDetail)
    ensures p.status == status && p.detail == detail && p.title == title && p.instance == uri
    ensures StartsWith(p.typeUri, TYPE_PREFIX)
  {
    ProblemDetail(status, title, detail, TYPE_PREFIX + NatToString(status), uri)
  }

  /** Problem details built by the helper have the same type URI exactly when they have the same status. */
  lemma TypeUriIdentifiesStatus(s1: nat, d1: string, t1: string, u1: string, s2: nat, d2: string, t2: string, u2: string)
    ensures CreateProblemDetail(s1, d1, t1, u1).typeUri == CreateProblemDetail(s2, d2, t2, u2).typeUri <==> s1 == s2
  {
    var a, b := CreateProblemDetail(s1, d1, t1, u1).typeUri, CreateProblemDetail(s2, d2, t2, u2).typeUri;
    if a == b {
      assert a[|TYPE_PREFIX|..] == NatToString(s1);
      assert b[|TYPE_PREFIX|..] == NatToString(s2);
      NatToStringInjective(s1, s2);
    }
  }

  /** The handler that catches `e`, chosen by the most specific exception class it is an instance of. */
  function Handle(e: AppError, uri: string): (p: ProblemDetail)
    ensures p.instance == uri
    ensures p.typeUri == TYPE_PREFIX + NatToString(p.status)
  {
    match e
    case EmailAlreadyExists(_) => CreateProblemDetail(409, Message(e), "Email Already Exists", uri)
    case UserNotFoundById(_) => CreateProblemDetail(404, Message(e), "Resource Not Found", uri)
    case RoleNotFoundByName(_) => CreateProblemDetail(404, Message(e), "Resource Not Found", uri)
    case AccountVerificationNotFoundByUrl(_) => CreateProblemDetail(404, Message(e), "Resource Not Found", uri)
    case NotificationFailure(_) => CreateProblemDetail(502, Message(e), "Message Delivery Failed", uri)
    case PasswordMismatch(_) => CreateProblemDetail(400, Message(e), "Password Mismatch", uri)
    case ResetPasswordVerificationInvalid(_) => CreateProblemDetail(400, Message(e), "Reset Password Link Invalid", uri)
    case ResetPasswordVerificationExpired(_) => CreateProblemDetail(400, Message(e), "Reset Password Link Expired", uri)
    case AuthenticatedPasswordIncorrect(_) => CreateProblemDetail(400, Message(e), "Password Incorrect", uri)
    case MfaCodeInvalid(_) => AuthenticationFailure(uri)
    case MfaCodeExpired(_) => AuthenticationFailure(uri)
    case MfaVerificationNotFoundByUserId(_) => AuthenticationFailure(uri)
    case JwtAuthenticationInvalid(_) => AuthenticationFailure(uri)
    case BadCredentials(_) => CreateProblemDetail(401, "Invalid email or password.", AUTHENTICATION_ERROR_TITLE, uri)
    case UsernameNotFound(_) => CreateProblemDetail(401, "Invalid email or password.", AUTHENTICATION_ERROR_TITLE, uri)
    case Locked(_) => CreateProblemDetail(403, "Account is locked.", "Account Locked", uri)
    case Disabled(_) => CreateProblemDetail(403, "Account is disabled.", "Account Disabled", uri)
    case OtherAuthentication(_) => AuthenticationFailure(uri)
    case DataIntegrityViolation(cause) =>
      if cause.Some? && Contains(ToLower(SqlMessage(cause.value)), "duplicate entry")
      then CreateProblemDetail(409, "Value already exists.", "Data Conflict", uri)
      else CreateProblemDetail(400, "Please check your input.", "Integrity Violation", uri)
    case OtherApiException(_) => InternalError(uri)
    case UserNotFoundByEmail(_) => InternalError(uri)
    case NullPointer => InternalError(uri)
    case Unexpected(_) => InternalError(uri)
  }

  /** The response shared by the MFA handler, the JWT handler and the generic authentication handler. */
  function AuthenticationFailure(uri: string): ProblemDetail {
    CreateProblemDetail(401, AUTHENTICATION_ERROR_MESSAGE, AUTHENTICATION_ERROR_TITLE, uri)
  }

  /** The response of the ApiException handler and of the catch-all Exception handler. */
  function InternalError(uri: string): ProblemDetail {
    CreateProblemDetail(500, INTERNAL_SERVER_ERROR_MESSAGE, INTERNAL_SERVER_ERROR_TITLE, uri)
  }

  /** The failed-MFA and failed-token exceptions give one and the same response, whatever their message. */
  lemma AuthenticationFailuresIndistinguishable(e1: AppError, e2: AppError, uri: string)
    requires e1.MfaCodeInvalid? || e1.MfaCodeExpired? || e1.MfaVerificationNotFoundByUserId? || e1.JwtAuthenticationInvalid?
    requires e2.MfaCodeInvalid? || e2.MfaCodeExpired? || e2.MfaVerificationNotFoundByUserId? || e2.JwtAuthenticationInvalid?
    ensures Handle(e1, uri) == Handle(e2, uri)
    ensures Handle(e1, uri).status == 401 && Handle(e1, uri).detail == AUTHENTICATION_ERROR_MESSAGE
  {
  }

  /** Every authentication exception is answered with 401 or, for an account-status problem, 403,
      and never shows the exception's own message. */
  lemma AuthenticationExceptionsAreUnauthorized(e: AppError, uri: string)
    requires IsAuthenticationException(e)
    ensures Handle(e, uri).status == (if e.Locked? || e.Disabled? then 403 else 401)
    ensures Handle(e, uri).detail in {AUTHENTICATION_ERROR_MESSAGE, "Invalid email or password.", "Account is locked.", "Account is disabled."}
    ensures e.BadCredentials? || e.UsernameNotFound? <==> Handle(e, uri).detail == "Invalid email or password."
  {
  }

  /** A data-integrity violation is a conflict (409) exactly when its root cause's message mentions a
      duplicate entry in any letter case; otherwise, a missing cause included, it is a bad request (400). */
  lemma DataIntegrityViolationClassification(cause: Option<SqlError>, uri: string)
    ensures Handle(DataIntegrityViolation(cause), uri).status == 409
            <==> cause.Some? && Contains(ToLower(SqlMessage(cause.value)), "duplicate entry")
    ensures Handle(DataIntegrityViolation(cause), uri).status in {400, 409}
    ensures cause.None? ==> Handle(DataIntegrityViolation(cause), uri).title == "Integrity Violation"
  {
  }

  /** Every unique-key violation reaches the client as 409 Data Conflict. */
  lemma DuplicateEntryIsConflict(value: string, key: UniqueKey, uri: string)
    ensures Handle(DataIntegrityViolation(Some(DuplicateEntry(value, key))), uri).status == 409
    ensures Handle(DataIntegrityViolation(Some(DuplicateEntry(value, key))), uri).title == "Data Conflict"
  {
    DuplicateEntryMessageSaysSo(value, key);
  }

  /** A 500 response never carries the exception's message: it is always the generic text. */
  lemma InternalErrorsHideDetails(e: AppError, uri: string)
    ensures Handle(e, uri).status == 500 ==> Handle(e, uri) == InternalError(uri)
    ensures Handle(e, uri).status == 500
            <==> e.OtherApiException? || e.UserNotFoundByEmail? || e.NullPointer? || e.Unexpected?
  {
  }

  /** The password handler shows the exception's own message with status 400 and a title per class. */
  lemma PasswordExceptionsShowTheirMessage(e: AppError, uri: string)
    requires e.PasswordMismatch? || e.ResetPasswordVerificationInvalid? || e.ResetPasswordVerificationExpired?
             || e.AuthenticatedPasswordIncorrect?
    ensures Handle(e, uri).status == 400 && Handle(e, uri).detail == e.message
    ensures Handle(e, uri).title == (if e.PasswordMismatch? then "Password Mismatch"
                                     else if e.ResetPasswordVerificationInvalid? then "Reset Password Link Invalid"
                                     else if e.ResetPasswordVerificationExpired? then "Reset Password Link Expired"
                                     else "Password Incorrect")
  {
  }

  // ---------------------------------------------------------------- framework-raised errors

  /** One step of a JSON path: a field name, or null for an array index. */
  datatype JsonReference = JsonReference(fieldName: Option<string>)

  /** The cause of an unreadable request body. */
  datatype NotReadableCause = InvalidFormat(path: seq<JsonReference>) | OtherCause

  /** How a nullable string is rendered by string concatenation. */
  function NameOrNull(r: JsonReference): string {
    r.fieldName.GetOr("null")
  }

  /** The names along a path, folded left to right with "." between them. */
  function JoinWithDots(path: seq<JsonReference>): string
    requires |path| >= 1
  {
    if |path| == 1 then NameOrNull(path[0]) else JoinWithDots(path[..|path| - 1]) + "." + NameOrNull(path[|path| - 1])
  }

  /** The field path the malformed-JSON handler reports: "unknown" for an empty path, else the
      names joined by "."; `None` when the reduction's result is null (a single null name), where
      Optional.of throws NullPointerException. */
  function FieldPath(path: seq<JsonReference>): (r: Option<string>)
    ensures r.None? <==> |path| == 1 && path[0].fieldName.None?
    ensures path == [] ==> r == Some("unknown")
    ensures |path| == 1 && path[0].fieldName.Some? ==> r == path[0].fieldName
  {
    if path == [] then Some("unknown")
    else if |path| == 1 then path[0].fieldName
    else Some(JoinWithDots(path))
  }

  /** handleHttpMessageNotReadable: 400 "Malformed JSON"; for an invalid-format cause the field path is
      appended. `None` when building the field path throws. */
  function HandleMessageNotReadable(cause: NotReadableCause, uri: string): (r: Option<ProblemDetail>)
    ensures r.None? <==> cause.InvalidFormat? && FieldPath(cause.path).None?
    ensures r.Some? ==> r.value.status == 400 && r.value.title == "Malformed JSON" && r.value.instance == uri
    ensures r.Some? ==> StartsWith(r.value.detail, MALFORMED_JSON_MESSAGE)
    ensures cause.OtherCause? ==> r.Some? && r.value.detail == MALFORMED_JSON_MESSAGE
    ensures r.Some? && cause.InvalidFormat? ==>
              r.value.detail == MALFORMED_JSON_MESSAGE + " Field: " + FieldPath(cause.path).value
  {
    match cause
    case OtherCause => Some(CreateProblemDetail(400, MALFORMED_JSON_MESSAGE, "Malformed JSON", uri))
    case InvalidFormat(path) =>
      match FieldPath(path)
      case None => None
      case Some(name) =>
        var detail := MALFORMED_JSON_MESSAGE + " Field: " + name;
        assert detail[..|MALFORMED_JSON_MESSAGE|] == MALFORMED_JSON_MESSAGE;
        Some(CreateProblemDetail(400, detail, "Malformed JSON", uri))
  }

  /** handleNoHandlerFoundException: 404 naming the unknown URI. */
  function HandleNoHandlerFound(uri: string): (p: ProblemDetail)
    ensures p.status == 404 && p.title == "Resource Not Found" && p.instance == uri
    ensures Contains(p.detail, uri)
  {
    var head := "The URI ";
    var detail := head + uri + " does not exist on server.";
    assert OccursAt(detail, uri, |head|) by { assert detail[|head|..|head| + |uri|] == uri; }
    CreateProblemDetail(404, detail, "Resource Not Found", uri)
  }

  /** handleHttpRequestMethodNotSupported: 405 naming the rejected method. */
  function HandleMethodNotSupported(httpMethod: string, uri: string): (p: ProblemDetail)
    ensures p.status == 405 && p.title == "Method Not Allowed" && p.instance == uri
    ensures Contains(p.detail, httpMethod)
  {
    var head := "Method ";
    var detail := head + httpMethod + " is not allowed on this resource.";
    assert OccursAt(detail, httpMethod, |head|) by { assert detail[|head|..|head| + |httpMethod|] == httpMethod; }
    CreateProblemDetail(405, detail, "Method Not Allowed", uri)
  }
}
