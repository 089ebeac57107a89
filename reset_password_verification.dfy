/** The password-reset record (table `reset_password_verifications`): one per user, with a
    unique link URL and an expiry instant. */
module ResetPasswordVerifications {
  import opened Wrappers
  import opened JavaLang
  import opened Users

  /** `expirationDate` is a date-time in whole seconds. */
  datatype ResetPasswordVerification = ResetPasswordVerification(id: Option<nat>, user: UserId, url: string, expirationDate: int)

  /** The convenience constructor: the given user, URL and expiry, and no id until saved. */
  function Create(user: UserId, url: string, expirationDate: int): (r: ResetPasswordVerification)
    ensures r.id.None?
    ensures r.user == user && r.url == url && r.expirationDate == expirationDate
  {
    ResetPasswordVerification(None, user, url, expirationDate)
  }

  /** expirationDate.isBefore(now). */
  predicate IsExpired(r: ResetPasswordVerification, now: int) {
    r.expirationDate < now
  }

  /** equals: another record whose id equals this one's. */
  predicate Equals(r: ResetPasswordVerification, other: Option<ResetPasswordVerification>) {
    other.Some? && r.id == other.value.id
  }

  /** hashCode: Objects.hashCode of the id, 0 for no id. */
  function HashCode(r: ResetPasswordVerification): (h: int)
    requires r.id.None? || r.id.value <= LONG_MAX
    ensures INT_MIN <= h <= INT_MAX
    ensures r.id.None? ==> h == 0
  {
    match r.id
    case None => 0
    case Some(v) => LongHashCode(v)
  }

  /** Equality is by id only: an equivalence, consistent with hashCode, blind to every other field. */
  lemma EqualsById(a: ResetPasswordVerification, b: ResetPasswordVerification, c: ResetPasswordVerification)
    requires a.id.None? || a.id.value <= LONG_MAX
    requires b.id.None? || b.id.value <= LONG_MAX
    ensures Equals(a, Some(a)) && !Equals(a, None)
    ensures Equals(a, Some(b)) <==> Equals(b, Some(a))
    ensures Equals(a, Some(b)) && Equals(b, Some(c)) ==> Equals(a, Some(c))
    ensures Equals(a, Some(b)) ==> HashCode(a) == HashCode(b)
    ensures Equals(a, Some(b)) <==> a.id == b.id
  {
  }

  function IdString(id: Option<nat>): string {
    match id
    case None => "null"
    case Some(v) => NatToString(v)
  }

  /** toString, with the URL printed as "[PROTECTED]"; `dateString` renders the expiry. */
  function ToString(r: ResetPasswordVerification, dateString: int -> string): (s: string)
    ensures StartsWith(s, "ResetPasswordVerification{id=")
  {
    "ResetPasswordVerification{id=" + IdString(r.id) + ", userId=" + NatToString(r.user)
    + ", url='[PROTECTED]', expirationDate=" + dateString(r.expirationDate) + "}"
  }

  /** The rendering does not depend on the URL: records differing only in their URL print alike. */
  lemma ToStringMasksUrl(r: ResetPasswordVerification, url: string, dateString: int -> string)
    ensures ToString(r.(url := url), dateString) == ToString(r, dateString)
  {
  }
}
