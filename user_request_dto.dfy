/** The registration request, with the validation the record declares. The e-mail syntax check
    of @Email belongs to the validation library and is a parameter here. */
module UserRequests {
  import opened Wrappers
  import opened JavaLang
  import opened BeanValidation

  datatype UserRequestDto = UserRequestDto(
    firstName: Option<string>, lastName: Option<string>, email: Option<string>, password: Option<string>)

  /** A person's name field: @NotBlank and @Size(min = 2, max = 40). */
  predicate IsValidName(v: Option<string>) {
    NotBlank(v) && Size(v, 2, 40)
  }

  /** The e-mail field: @NotBlank, @Email (when present) and @Size(max = 100). */
  predicate IsValidEmail(v: Option<string>, isEmail: string -> bool) {
    NotBlank(v) && (v.None? || isEmail(v.value)) && Size(v, 0, 100)
  }

  predicate IsValid(r: UserRequestDto, isEmail: string -> bool) {
    IsValidName(r.firstName) && IsValidName(r.lastName) && IsValidEmail(r.email, isEmail) && IsValidPassword(r.password)
  }

  /** What a valid registration request guarantees: every field present, names of 2 to 40 code
      units (so at most 40 characters), an e-mail of at most 100 characters in the accepted syntax
      and a password the pattern accepts. */
  lemma ValidRequestMeaning(r: UserRequestDto, isEmail: string -> bool)
    requires IsValid(r, isEmail)
    ensures r.firstName.Some? && r.lastName.Some? && r.email.Some? && r.password.Some?
    ensures |r.firstName.value| <= 40 && |r.lastName.value| <= 40 && |r.email.value| <= 100
    ensures isEmail(r.email.value)
    ensures MatchesPasswordPattern(r.password.value)
    ensures Trim(r.firstName.value) != [] && Trim(r.lastName.value) != []
  {
    PasswordPolicyIsThePattern(r.password);
  }
}
