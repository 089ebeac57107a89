/** The exceptions the core throws or meets, as one datatype. Application exceptions carry
    the message they are constructed with; the framework's own exceptions are tagged by kind. */
module Errors {
  import opened Wrappers
  import opened JavaLang
  import opened SqlErrors

  datatype AppError =
    // application exceptions
    | EmailAlreadyExists(email: string)
    | UserNotFoundById(userId: int)
    | UserNotFoundByEmail(email: string)
    | RoleNotFoundByName(roleName: string)
    | AccountVerificationNotFoundByUrl(message: string)
    | MfaVerificationNotFoundByUserId(message: string)
    | MfaCodeInvalid(message: string)
    | MfaCodeExpired(message: string)
    | PasswordMismatch(message: string)
    | ResetPasswordVerificationInvalid(message: string)
    | ResetPasswordVerificationExpired(message: string)
    | AuthenticatedPasswordIncorrect(message: string)
    | NotificationFailure(message: string)
    | OtherApiException(message: string)
    | JwtAuthenticationInvalid(message: string)
    // Spring Security's authentication exceptions
    | BadCredentials(message: string)
    | UsernameNotFound(message: string)
    | Locked(message: string)
    | Disabled(message: string)
    | OtherAuthentication(message: string)
    // persistence and the JVM
    | DataIntegrityViolation(cause: Option<SqlError>)
    | NullPointer
    | Unexpected(message: string)

  /** Long.toString: negative numbers are rendered with a leading minus, as Long.toString does. */
  function LongToString(v: int): string {
    if v < 0 then "-" + NatToString(-v) else NatToString(v)
  }

  /** getMessage of an application exception whose message a response may show. */
  function Message(e: AppError): string
    requires !e.DataIntegrityViolation? && !e.NullPointer?
  {
    if e.EmailAlreadyExists? then
      "Email '" + e.email + "' already exists. Please use a different email and try again."
    else if e.UserNotFoundById? then "User not found with id: " + LongToString(e.userId)
    else if e.UserNotFoundByEmail? then e.email
    else if e.RoleNotFoundByName? then "Role not found with name: " + e.roleName
    else e.message
  }

  /** The exceptions the authentication machinery treats as a failed login or token check. */
  predicate IsAuthenticationException(e: AppError) {
    e.MfaVerificationNotFoundByUserId? || e.MfaCodeInvalid? || e.MfaCodeExpired?
    || e.JwtAuthenticationInvalid? || e.BadCredentials? || e.UsernameNotFound?
    || e.Locked? || e.Disabled? || e.OtherAuthentication?
  }

  // Messages thrown by the service.
  const MSG_MFA_NOT_FOUND: string := "MFA code not found."
  const MSG_MFA_INVALID: string := "Invalid MFA code."
  const MSG_MFA_EXPIRED: string := "MFA code expired."
  const MSG_RESET_INVALID: string := "This reset link is invalid or has already been used."
  const MSG_RESET_EXPIRED: string := "The reset link has expired. Please request a new one."
  const MSG_PASSWORD_MISMATCH: string := "Passwords do not match."
  const MSG_ACCOUNT_LINK_INVALID: string := "This link is not valid."
}
