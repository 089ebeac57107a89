/** The account-activation record (table `account_verifications`): one per user, with a unique
    link URL. It has no expiry column, so an activation link never times out. */
module AccountVerifications {
  import opened Wrappers
  import opened JavaLang
  import opened Users

  datatype AccountVerification = AccountVerification(id: Option<nat>, user: UserId, url: string)

  /** The two-argument constructor: the given user and URL, and no id until saved. */
  function Create(user: UserId, url: string): (r: AccountVerification)
    ensures r.id.None?
    ensures r.user == user && r.url == url
  {
    AccountVerification(None, user, url)
  }

  /** equals: another record whose id equals this one's. */
  predicate Equals(r: AccountVerification, other: Option<AccountVerification>) {
    other.Some? && r.id == other.value.id
  }

  /** hashCode: Objects.hashCode of the id, 0 for no id. */
  function HashCode(r: AccountVerification): (h: int)
    requires r.id.None? || r.id.value <= LONG_MAX
    ensures INT_MIN <= h <= INT_MAX
    ensures r.id.None? ==> h == 0
  {
    match r.id
    case None => 0
    case Some(v) => LongHashCode(v)
  }

  /** Equality is by id only: an equivalence, consistent with hashCode, blind to every other field. */
  lemma EqualsById(a: AccountVerification, b: AccountVerification, c: AccountVerification)
    requires a.id.None? || a.id.value <= LONG_MAX
    requires b.id.None? || b.id.value <= LONG_MAX
    ensures Equals(a, Some(a)) && !Equals(a, None)
    ensures Equals(a, Some(b)) <==> Equals(b, Some(a))
    ensures Equals(a, Some(b)) && Equals(b, Some(c)) ==> Equals(a, Some(c))
    ensures Equals(a, Some(b)) ==> HashCode(a) == HashCode(b)
    ensures Equals(a, Some(b)) <==> a.id == b.id
  {
  }

  function IdString(id: Option<nat>): string {
    match id
    case None => "null"
    case Some(v) => NatToString(v)
  }

  /** toString: unlike the other two records, this one prints its URL in the clear. */
  function ToString(r: AccountVerification): (s: string)
    ensures Contains(s, r.url)
  {
    var head := "AccountVerification{id=" + IdString(r.id) + ", userId=" + NatToString(r.user) + ", url='";
    var s := head + r.url + "'}";
    assert OccursAt(s, r.url, |head|) by { assert s[|head|..|head| + |r.url|] == r.url; }
    s
  }
}
