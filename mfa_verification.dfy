/** The MFA login-code record (table `mfa_verifications`): one per user, with a unique code of
    at most eight characters and an expiry instant. */
module MfaVerifications {
  import opened Wrappers
  import opened JavaLang
  import opened Users

  const CODE_LENGTH: nat := 8

  /** `expirationDate` is a date-time in whole seconds. */
  datatype MfaVerification = MfaVerification(id: Option<nat>, user: UserId, code: string, expirationDate: int)

  /** The three-argument constructor: the given user, code and expiry, and no id until saved. */
  function Create(user: UserId, code: string, expirationDate: int): (r: MfaVerification)
    ensures r.id.None?
    ensures r.user == user && r.code == code && r.expirationDate == expirationDate
  {
    MfaVerification(None, user, code, expirationDate)
  }

  /** expirationDate.isBefore(now). */
  predicate IsExpired(r: MfaVerification, now: int) {
    r.expirationDate < now
  }

  /** equals: another record whose id equals this one's (two unsaved records are equal). */
  predicate Equals(r: MfaVerification, other: Option<MfaVerification>) {
    other.Some? && r.id == other.value.id
  }

  /** hashCode: Objects.hashCode of the id, 0 for no id. */
  function HashCode(r: MfaVerification): (h: int)
    requires r.id.None? || r.id.value <= LONG_MAX
    ensures INT_MIN <= h <= INT_MAX
    ensures r.id.None? ==> h == 0
  {
    match r.id
    case None => 0
    case Some(v) => LongHashCode(v)
  }

  /** Equality is by id only: an equivalence, consistent with hashCode, blind to every other field. */
  lemma EqualsById(a: MfaVerification, b: MfaVerification, c: MfaVerification)
    requires a.id.None? || a.id.value <= LONG_MAX
    requires b.id.None? || b.id.value <= LONG_MAX
    ensures Equals(a, Some(a)) && !Equals(a, None)
    ensures Equals(a, Some(b)) <==> Equals(b, Some(a))
    ensures Equals(a, Some(b)) && Equals(b, Some(c)) ==> Equals(a, Some(c))
    ensures Equals(a, Some(b)) ==> HashCode(a) == HashCode(b)
    ensures Equals(a, Some(b)) <==> a.id == b.id
  {
  }

  /** Any two records built by the constructor are equal, whatever their users and codes. */
  lemma UnsavedRecordsAreEqual(u1: UserId, c1: string, e1: int, u2: UserId, c2: string, e2: int)
    ensures Equals(Create(u1, c1, e1), Some(Create(u2, c2, e2)))
    ensures HashCode(Create(u1, c1, e1)) == 0
  {
  }

  /** How a nullable Long is rendered by string concatenation. */
  function IdString(id: Option<nat>): string {
    match id
    case None => "null"
    case Some(v) => NatToString(v)
  }

  /** toString, with the code masked; `dateString` renders the expiry as LocalDateTime.toString does. */
  function ToString(r: MfaVerification, dateString: int -> string): (s: string)
    ensures StartsWith(s, "MfaVerification{id=")
  {
    "MfaVerification{id=" + IdString(r.id) + ", userId=" + NatToString(r.user)
    + ", code='***', expirationDate=" + dateString(r.expirationDate) + "}"
  }

  /** The rendering does not depend on the code: records differing only in their code print alike. */
  lemma ToStringMasksCode(r: MfaVerification, code: string, dateString: int -> string)
    ensures ToString(r.(code := code), dateString) == ToString(r, dateString)
  {
  }
}
