/** The profile-update request: names and e-mail as at registration, plus an optional phone,
    title and biography. */
module UserUpdateRequests {
  import opened Wrappers
  import opened JavaLang
  import opened BeanValidation
  import UserRequests

  datatype UserUpdateRequestDto = UserUpdateRequestDto(
    firstName: Option<string>, lastName: Option<string>, email: Option<string>,
    phone: Option<string>, title: Option<string>, bio: Option<string>)

  /** @Pattern("^\d+$"): one or more ASCII digits and nothing else (null passes). */
  predicate PhonePatternAccepts(v: Option<string>) {
    v.None? || (|v.value| >= 1 && forall i :: 0 <= i < |v.value| ==> IsAsciiDigit(v.value[i]))
  }

  predicate IsValid(r: UserUpdateRequestDto, isEmail: string -> bool) {
    UserRequests.IsValidName(r.firstName) && UserRequests.IsValidName(r.lastName)
    && UserRequests.IsValidEmail(r.email, isEmail)
    && PhonePatternAccepts(r.phone) && Size(r.phone, 7, 30)
    && Size(r.title, 0, 50) && Size(r.bio, 0, 500)
  }

  /** The phone rule: absent, or 7 to 30 ASCII digits. */
  lemma PhoneRule(v: Option<string>)
    ensures PhonePatternAccepts(v) && Size(v, 7, 30)
            <==> v.None? || (7 <= |v.value| <= 30 && forall i :: 0 <= i < |v.value| ==> IsAsciiDigit(v.value[i]))
  {
    if v.Some? && forall i :: 0 <= i < |v.value| ==> IsAsciiDigit(v.value[i]) {
      BmpUtf16Length(v.value);
    }
  }

  /** What a valid update request guarantees: names and e-mail present and within their columns,
      phone, title and biography optional and within theirs. */
  lemma ValidUpdateMeaning(r: UserUpdateRequestDto, isEmail: string -> bool)
    requires IsValid(r, isEmail)
    ensures r.firstName.Some? && r.lastName.Some? && r.email.Some?
    ensures |r.firstName.value| <= 40 && |r.lastName.value| <= 40 && |r.email.value| <= 100
    ensures r.phone.None? || |r.phone.value| <= 30
    ensures r.title.None? || |r.title.value| <= 50
    ensures r.bio.None? || |r.bio.value| <= 500
  {
  }
}
