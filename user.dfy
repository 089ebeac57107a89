/** The user entity (table `users`) and its role, with the column constraints and defaults
    the entity declares. */
module Users {
  import opened Wrappers
  import opened JavaLang
  import opened SqlErrors

  /** A user's database identifier (an identity column, so never negative). */
  type UserId = nat

  /** How a user receives MFA codes. */
  datatype MfaType = Sms | Email

  datatype Role = Role(id: nat, name: string, permission: string)

  /** A user row. Nullable columns are `Option`s; `id` is empty until the row is first saved. */
  datatype User = User(
    id: Option<UserId>,
    firstName: string,
    lastName: string,
    email: string,
    password: Option<string>,
    phone: Option<string>,
    address: Option<string>,
    title: Option<string>,
    bio: Option<string>,
    enabled: bool,
    nonLocked: bool,
    usingMfa: bool,
    imageUrl: Option<string>,
    role: Option<Role>)

  const DEFAULT_IMAGE_URL: string := "https://cdn-icons-png.flaticon.com/512/3033/3033143.png"

  const FIRST_NAME_LENGTH: nat := 40
  const LAST_NAME_LENGTH: nat := 40
  const EMAIL_LENGTH: nat := 100
  const PHONE_LENGTH: nat := 30
  const TITLE_LENGTH: nat := 50
  const BIO_LENGTH: nat := 500

  /** A nullable column value fits a column of `max` characters. */
  predicate FitsColumn(v: Option<string>, max: nat) {
    v.None? || |v.value| <= max
  }

  /** Every bounded column of the row is within its declared length. */
  predicate ColumnsFit(u: User) {
    |u.firstName| <= FIRST_NAME_LENGTH && |u.lastName| <= LAST_NAME_LENGTH && |u.email| <= EMAIL_LENGTH
    && FitsColumn(u.phone, PHONE_LENGTH) && FitsColumn(u.title, TITLE_LENGTH) && FitsColumn(u.bio, BIO_LENGTH)
  }

  /** The name of the first bounded column the value does not fit, if any. */
  function OverlongColumn(u: User): (c: Option<Column>)
    ensures c.None? <==> ColumnsFit(u)
  {
    if |u.firstName| > FIRST_NAME_LENGTH then Some(FirstNameColumn)
    else if |u.lastName| > LAST_NAME_LENGTH then Some(LastNameColumn)
    else if |u.email| > EMAIL_LENGTH then Some(EmailColumn)
    else if !FitsColumn(u.phone, PHONE_LENGTH) then Some(PhoneColumn)
    else if !FitsColumn(u.title, TITLE_LENGTH) then Some(TitleColumn)
    else if !FitsColumn(u.bio, BIO_LENGTH) then Some(BioColumn)
    else None
  }

  /** A new entity with the registration fields copied in: not yet saved, disabled, not locked,
      not using MFA, the default picture and no role. */
  function NewUser(firstName: string, lastName: string, email: string, password: string): (u: User)
    ensures u.id.None? && u.role.None?
    ensures !u.enabled && u.nonLocked && !u.usingMfa
    ensures u.imageUrl == Some(DEFAULT_IMAGE_URL)
    ensures u.firstName == firstName && u.lastName == lastName && u.email == email && u.password == Some(password)
    ensures u.phone.None? && u.address.None? && u.title.None? && u.bio.None?
  {
    User(None, firstName, lastName, email, Some(password), None, None, None, None,
         false, true, false, Some(DEFAULT_IMAGE_URL), None)
  }
}
