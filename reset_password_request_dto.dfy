/** The password-reset request: the new password and its confirmation. */
module ResetPasswordRequests {
  import opened Wrappers
  import opened BeanValidation

  datatype ResetPasswordRequestDto = ResetPasswordRequestDto(newPassword: Option<string>, confirmPassword: Option<string>)

  /** newPassword follows the password policy; confirmPassword need only be non-blank. */
  predicate IsValid(r: ResetPasswordRequestDto) {
    IsValidPassword(r.newPassword) && NotBlank(r.confirmPassword)
  }

  /** Validation does not compare the two fields: a valid request may have them differ (the service
      checks equality itself). */
  lemma ValidationDoesNotCompareFields()
    ensures IsValid(ResetPasswordRequestDto(Some("Aa1! bcd"), Some("x")))
  {
    SpacesAreAccepted();
  }

  /** A valid request carries a new password the pattern accepts, and some confirmation. */
  lemma ValidResetRequestMeaning(r: ResetPasswordRequestDto)
    requires IsValid(r)
    ensures r.newPassword.Some? && MatchesPasswordPattern(r.newPassword.value)
    ensures r.confirmPassword.Some?
  {
    PasswordPolicyIsThePattern(r.newPassword);
  }
}
