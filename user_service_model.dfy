/** The state the user service works on and each of its operations as a function of that state.

    The state is the users and roles tables, the three verification tables (each keyed by the
    user it belongs to, since `user_id` is unique in all three), the next identity value of each
    table, and the notifications handed to the e-mail and SMS senders so far. Repository calls
    are map operations. The database constraints the entities declare (column lengths, unique
    columns, foreign keys) are checked where the service saves or deletes a row, and a violation
    is a DataIntegrityViolation whose cause is the database's reason for refusing it.

    Every operation runs in one transaction: when it ends with an exception the tables are put
    back as they were, while a notification already handed to a sender stays sent. The
    exception is an expired verification record, which the model deletes for good; see
    `Committed` for what the unmodified transaction does instead. */
module UserServiceModel {
  import opened Wrappers
  import opened JavaLang
  import opened Users
  import opened Errors
  import opened SqlErrors
  import opened Notifications
  import opened VerificationTypes
  import Mfa = MfaVerifications
  import Reset = ResetPasswordVerifications
  import Acct = AccountVerifications
  import UserUpdateRequests

  type MfaRecord = Mfa.MfaVerification
  type ResetRecord = Reset.ResetPasswordVerification
  type AccountRecord = Acct.AccountVerification

  /** What the service takes from its surroundings: the scheme, host and context path of the
      current request, and the password encoder, a one-way function left uninterpreted. */
  datatype Config = Config(contextPath: string, encode: string -> string)

  datatype Store = Store(
    users: map<UserId, User>,
    roles: map<string, Role>,
    mfa: map<UserId, MfaRecord>,
    reset: map<UserId, ResetRecord>,
    account: map<UserId, AccountRecord>,
    nextUserId: nat,
    nextMfaId: nat,
    nextResetId: nat,
    nextAccountId: nat,
    outbox: seq<Notification>)

  /** The state after an operation and what it returned or threw. */
  datatype Outcome<T> = Outcome(store: Store, result: Result<T, AppError>)

  /** plusDays(1) and plusMinutes(10), in seconds. */
  const MFA_CODE_LIFETIME: int := 24 * 60 * 60
  const RESET_LINK_LIFETIME: int := 10 * 60

  const ROLE_USER: string := "ROLE_USER"

  // ---------------------------------------------------------------- invariant

  /** Users are stored under their own id, below the next identity value, within their column
      lengths, and no two share an e-mail. */
  ghost predicate UsersValid(s: Store) {
    (forall k | k in s.users :: s.users[k].id == Some(k) && k < s.nextUserId && ColumnsFit(s.users[k]))
    && (forall a, b | a in s.users && b in s.users && s.users[a].email == s.users[b].email :: a == b)
  }

  /** MFA records belong to the user they are stored under, who exists; codes fit their column;
      ids and codes are unique. */
  ghost predicate MfaValid(s: Store) {
    (forall k | k in s.mfa ::
       s.mfa[k].user == k && k in s.users && |s.mfa[k].code| <= Mfa.CODE_LENGTH
       && s.mfa[k].id.Some? && s.mfa[k].id.value < s.nextMfaId)
    && (forall a, b | a in s.mfa && b in s.mfa && (s.mfa[a].code == s.mfa[b].code || s.mfa[a].id == s.mfa[b].id) :: a == b)
  }

  /** Reset records belong to the user they are stored under, who exists; ids and URLs are unique. */
  ghost predicate ResetValid(s: Store) {
    (forall k | k in s.reset ::
       s.reset[k].user == k && k in s.users && s.reset[k].id.Some? && s.reset[k].id.value < s.nextResetId)
    && (forall a, b | a in s.reset && b in s.reset && (s.reset[a].url == s.reset[b].url || s.reset[a].id == s.reset[b].id) :: a == b)
  }

  /** Activation records belong to the user they are stored under, who exists; ids and URLs are unique. */
  ghost predicate AccountValid(s: Store) {
    (forall k | k in s.account ::
       s.account[k].user == k && k in s.users && s.account[k].id.Some? && s.account[k].id.value < s.nextAccountId)
    && (forall a, b | a in s.account && b in s.account && (s.account[a].url == s.account[b].url || s.account[a].id == s.account[b].id) :: a == b)
  }

  /** What the database's constraints guarantee about every committed state. */
  ghost predicate Valid(s: Store) {
    UsersValid(s) && MfaValid(s) && ResetValid(s) && AccountValid(s)
  }

  // ---------------------------------------------------------------- repository reads

  /** existsByEmail: some user's stored e-mail is exactly `email`. */
  predicate EmailTaken(users: map<UserId, User>, email: string) {
    exists k | k in users :: users[k].email == email
  }

  /** findByEmail: the user whose stored e-mail is exactly `email`. */
  ghost function UserByEmail(users: map<UserId, User>, email: string): (r: Option<UserId>)
    ensures r.Some? ==> r.value in users && users[r.value].email == email
    ensures r.None? <==> !EmailTaken(users, email)
  {
    if EmailTaken(users, email) then var k :| k in users && users[k].email == email; Some(k) else None
  }

  /** findById for a Long id: present only for a stored, hence non-negative, id. */
  predicate IsUserId(s: Store, id: int) {
    0 <= id && id as nat in s.users
  }

  /** findByUrl on the reset table. */
  ghost function ResetByUrl(reset: map<UserId, ResetRecord>, url: string): (r: Option<UserId>)
    ensures r.Some? ==> r.value in reset && reset[r.value].url == url
    ensures r.None? <==> forall k | k in reset :: reset[k].url != url
  {
    if exists k | k in reset :: reset[k].url == url then var k :| k in reset && reset[k].url == url; Some(k) else None
  }

  /** findByUrl on the activation table. */
  ghost function AccountByUrl(account: map<UserId, AccountRecord>, url: string): (r: Option<UserId>)
    ensures r.Some? ==> r.value in account && account[r.value].url == url
    ensures r.None? <==> forall k | k in account :: account[k].url != url
  {
    if exists k | k in account :: account[k].url == url then var k :| k in account && account[k].url == url; Some(k) else None
  }

  /** Unique keys make each lookup return the one row that matches. */
  lemma LookupsAreExact(s: Store, k: UserId)
    requires Valid(s)
    ensures k in s.users ==> UserByEmail(s.users, s.users[k].email) == Some(k)
    ensures k in s.reset ==> ResetByUrl(s.reset, s.reset[k].url) == Some(k)
    ensures k in s.account ==> AccountByUrl(s.account, s.account[k].url) == Some(k)
  {
  }

  // ---------------------------------------------------------------- database errors

  /** The DataIntegrityViolationException Spring raises for a refused statement. */
  function IntegrityError(cause: SqlError): AppError {
    DataIntegrityViolation(Some(cause))
  }

  // ---------------------------------------------------------------- repository writes

  /** The id a saved user row gets: its own, or the next identity value for a new row. */
  function SavedUserId(s: Store, u: User): UserId {
    if u.id.Some? then u.id.value else s.nextUserId
  }

  /** The entity as save returns it, its id filled in. */
  function SavedUser(s: Store, u: User): User {
    u.(id := Some(SavedUserId(s, u)))
  }

  /** userRepository.save: an insert for a new entity, an update of its row otherwise. */
  function SaveUser(s: Store, u: User): (r: Result<Store, AppError>)
    ensures r.Ok? <==> ColumnsFit(u) && forall k | k in s.users :: s.users[k].email == u.email ==> k == SavedUserId(s, u)
    ensures r.Err? ==> r.error.DataIntegrityViolation?
    ensures r.Ok? ==> r.value == s.(users := s.users[SavedUserId(s, u) := SavedUser(s, u)],
                                    nextUserId := if u.id.None? then s.nextUserId + 1 else s.nextUserId)
  {
    var id := SavedUserId(s, u);
    var column := OverlongColumn(u);
    if column.Some? then Err(IntegrityError(DataTooLong(column.value)))
    else if exists k | k in s.users :: k != id && s.users[k].email == u.email then
      Err(IntegrityError(DuplicateEntry(u.email, UsersEmailKey)))
    else
      Ok(s.(users := s.users[id := SavedUser(s, u)],
            nextUserId := if u.id.None? then s.nextUserId + 1 else s.nextUserId))
  }

  /** mfaVerificationRepository.save of a new record. */
  function SaveMfa(s: Store, r: MfaRecord): (out: Result<Store, AppError>)
    ensures out.Ok? <==> |r.code| <= Mfa.CODE_LENGTH && r.user in s.users && r.user !in s.mfa
                         && forall k | k in s.mfa :: s.mfa[k].code != r.code
    ensures out.Err? ==> out.error.DataIntegrityViolation?
    ensures out.Ok? ==> out.value == s.(mfa := s.mfa[r.user := r.(id := Some(s.nextMfaId))], nextMfaId := s.nextMfaId + 1)
  {
    if |r.code| > Mfa.CODE_LENGTH then Err(IntegrityError(DataTooLong(CodeColumn)))
    else if r.user !in s.users then Err(IntegrityError(ChildRowForeignKey))
    else if r.user in s.mfa then Err(IntegrityError(DuplicateEntry(NatToString(r.user), UserIdKey)))
    else if exists k | k in s.mfa :: s.mfa[k].code == r.code then Err(IntegrityError(DuplicateEntry(r.code, CodeKey)))
    else Ok(s.(mfa := s.mfa[r.user := r.(id := Some(s.nextMfaId))], nextMfaId := s.nextMfaId + 1))
  }

  /** resetPasswordVerificationRepository.save of a new record. */
  function SaveReset(s: Store, r: ResetRecord): (out: Result<Store, AppError>)
    ensures out.Ok? <==> r.user in s.users && r.user !in s.reset && forall k | k in s.reset :: s.reset[k].url != r.url
    ensures out.Err? ==> out.error.DataIntegrityViolation?
    ensures out.Ok? ==> out.value == s.(reset := s.reset[r.user := r.(id := Some(s.nextResetId))], nextResetId := s.nextResetId + 1)
  {
    if r.user !in s.users then Err(IntegrityError(ChildRowForeignKey))
    else if r.user in s.reset then Err(IntegrityError(DuplicateEntry(NatToString(r.user), UserIdKey)))
    else if exists k | k in s.reset :: s.reset[k].url == r.url then Err(IntegrityError(DuplicateEntry(r.url, UrlKey)))
    else Ok(s.(reset := s.reset[r.user := r.(id := Some(s.nextResetId))], nextResetId := s.nextResetId + 1))
  }

  /** accountVerificationRepository.save of a new record. */
  function SaveAccount(s: Store, r: AccountRecord): (out: Result<Store, AppError>)
    ensures out.Ok? <==> r.user in s.users && r.user !in s.account && forall k | k in s.account :: s.account[k].url != r.url
    ensures out.Err? ==> out.error.DataIntegrityViolation?
    ensures out.Ok? ==> out.value == s.(account := s.account[r.user := r.(id := Some(s.nextAccountId))], nextAccountId := s.nextAccountId + 1)
  {
    if r.user !in s.users then Err(IntegrityError(ChildRowForeignKey))
    else if r.user in s.account then Err(IntegrityError(DuplicateEntry(NatToString(r.user), UserIdKey)))
    else if exists k | k in s.account :: s.account[k].url == r.url then Err(IntegrityError(DuplicateEntry(r.url, UrlKey)))
    else Ok(s.(account := s.account[r.user := r.(id := Some(s.nextAccountId))], nextAccountId := s.nextAccountId + 1))
  }

  /** deleteByUserId, and delete of the record itself (which is the record stored under its user). */
  function DeleteMfa(s: Store, user: int): (r: Store)
  {
    if user < 0 then s else s.(mfa := s.mfa - {user as nat})
  }

  function DeleteReset(s: Store, user: UserId): (r: Store)
  {
    s.(reset := s.reset - {user})
  }

  function DeleteAccount(s: Store, user: UserId): (r: Store)
  {
    s.(account := s.account - {user})
  }

  /** A call to one of the senders. */
  function Send(s: Store, n: Notification): (r: Store)
  {
    s.(outbox := s.outbox + [n])
  }

  /** Every table and identity counter is as it was; only notifications may have been added. */
  predicate TablesUnchanged(before: Store, after: Store) {
    after == before.(outbox := after.outbox)
  }

  /** The tables as they were before the transaction, the notifications as they are now. */
  function RolledBack(before: Store, after: Store): (r: Store)
    ensures TablesUnchanged(before, r) && r.outbox == after.outbox
    ensures Valid(before) ==> Valid(r)
  {
    before.(outbox := after.outbox)
  }

  /** The state a transaction leaves behind as Spring commits it: every exception the service
      throws is unchecked, so every failed call is rolled back, its deletes included. */
  function Committed<T>(before: Store, o: Outcome<T>): (r: Store)
    ensures r.outbox == o.store.outbox
    ensures o.result.Err? ==> TablesUnchanged(before, r)
    ensures o.result.Ok? ==> r == o.store
  {
    if o.result.Err? then RolledBack(before, o.store) else o.store
  }

  /** Whether the save succeeded, and the state after it. */
  function Applied(s: Store, r: Result<Store, AppError>): Store {
    if r.Ok? then r.value else s
  }

  function ErrorOf(r: Result<Store, AppError>): Option<AppError> {
    if r.Ok? then None else Some(r.error)
  }

  // ---------------------------------------------------------------- links

  /** buildVerificationUrl: the current context path followed by /users/verify/<type>/<token>. */
  function BuildVerificationUrl(contextPath: string, token: string, t: VerificationType): (url: string)
    ensures |contextPath| + |token| < |url|
    ensures url[..|contextPath|] == contextPath && url[|url| - |token|..] == token
  {
    contextPath + "/users/verify/" + t.GetType() + "/" + token
  }

  /** Two links built under one context path are the same link exactly when they have the same
      kind and the same token; in particular an activation link is never a reset link. */
  lemma {:induction false} VerificationUrlIdentifiesKindAndToken(ctx: string, t1: VerificationType, token1: string,
                                                                 t2: VerificationType, token2: string)
    ensures BuildVerificationUrl(ctx, token1, t1) == BuildVerificationUrl(ctx, token2, t2)
            <==> t1 == t2 && token1 == token2
  {
    var a, b := BuildVerificationUrl(ctx, token1, t1), BuildVerificationUrl(ctx, token2, t2);
    var n := |ctx + "/users/verify/"|;
    if a == b {
      assert a[n] == t1.GetType()[0] && b[n] == t2.GetType()[0];
      GetTypeDistinguishesKinds(t1, t2);
      var m := n + |t1.GetType() + "/"|;
      assert a[m..] == token1 && b[m..] == token2;
    }
  }

  // ---------------------------------------------------------------- operations

  /** The role every new user gets: the roles table's ROLE_USER, or RoleNotFoundByName. */
  function ResolveUserRole(roles: map<string, Role>): (r: Result<Role, AppError>)
    ensures r.Ok? <==> ROLE_USER in roles
    ensures r.Ok? ==> r.value == roles[ROLE_USER]
    ensures r.Err? ==> r.error == RoleNotFoundByName(ROLE_USER)
  {
    if ROLE_USER in roles then Ok(roles[ROLE_USER]) else Err(RoleNotFoundByName(ROLE_USER))
  }

  /** The role lookup as written: the exception supplier reads the new entity's role, which is
      still null, so a missing ROLE_USER ends in a NullPointerException instead. */
  function ResolveUserRoleAsWritten(roles: map<string, Role>, entity: User): (r: Result<Role, AppError>)
    ensures r.Ok? <==> ROLE_USER in roles
    ensures r.Ok? ==> r.value == roles[ROLE_USER]
    ensures r.Err? && entity.role.None? ==> r.error == NullPointer
  {
    if ROLE_USER in roles then Ok(roles[ROLE_USER])
    else if entity.role.None? then Err(NullPointer)
    else Err(RoleNotFoundByName(entity.role.value.name))
  }

  /** createUser: reject an e-mail that is stored exactly as given, store the user with the
      e-mail lower-cased, the password encoded and the ROLE_USER role, store an activation record
      for a new link and send the link by e-mail. */
  ghost function CreateUser(s: Store, cfg: Config, firstName: string, lastName: string, email: string,
                            password: string, token: string): (o: Outcome<User>)
    ensures o.result.Err? ==> o.store == s
    ensures o.result.Ok? ==> !EmailTaken(s.users, email) && ROLE_USER in s.roles
    ensures o.result.Ok? ==> o.result.value.email == ToLower(email) && !o.result.value.enabled
                             && o.result.value.role == Some(s.roles[ROLE_USER])
  {
    if EmailTaken(s.users, email) then Outcome(s, Err(EmailAlreadyExists(email)))
    else
      var entity := NewUser(firstName, lastName, ToLower(email), cfg.encode(password));
      match ResolveUserRole(s.roles)
      case Err(e) => Outcome(s, Err(e))
      case Ok(role) =>
        var user := entity.(role := Some(role));
        match SaveUser(s, user)
        case Err(e) => Outcome(s, Err(e))
        case Ok(s1) =>
          var created := SavedUser(s, user);
          var url := BuildVerificationUrl(cfg.contextPath, token, Account);
          match SaveAccount(s1, Acct.Create(created.id.value, url))
          case Err(e) => Outcome(RolledBack(s, s1), Err(e))
          case Ok(s2) =>
            Outcome(Send(s2, Notification(EmailChannel, created.firstName, Some(created.email), AccountVerificationUrl(url))),
                    Ok(created))
  }

  /** getUserByEmail: the user stored with exactly this e-mail, or UserNotFoundByEmail. */
  ghost function GetUserByEmail(s: Store, email: string): (r: Result<User, AppError>)
    ensures r.Ok? <==> EmailTaken(s.users, email)
    ensures r.Ok? ==> r.value.email == email && r.value in s.users.Values
    ensures r.Err? ==> r.error == UserNotFoundByEmail(email)
  {
    match UserByEmail(s.users, email)
    case None => Err(UserNotFoundByEmail(email))
    case Some(k) => Ok(s.users[k])
  }

  /** A nullable request field overwrites the entity's value only when present. */
  function Overwrite(v: Option<string>, current: Option<string>): Option<string> {
    if v.Some? then v else current
  }

  /** The entity after the unconditional setters of updateUser. */
  function WithProfile(u: User, dto: UserUpdateRequests.UserUpdateRequestDto): User {
    u.(firstName := dto.firstName.GetOr(u.firstName), lastName := dto.lastName.GetOr(u.lastName),
       phone := Overwrite(dto.phone, u.phone), title := Overwrite(dto.title, u.title), bio := Overwrite(dto.bio, u.bio))
  }

  /** The request changes the e-mail: it has a non-blank e-mail whose lower case differs, ignoring
      case, from the stored one. */
  predicate ChangesEmail(dto: UserUpdateRequests.UserUpdateRequestDto, current: string) {
    dto.email.Some? && !IsBlank(dto.email.value) && !EqualsIgnoreCase(ToLower(dto.email.value), current)
  }

  /** The final save of updateUser. */
  function SaveProfile(before: Store, s: Store, u: User): (o: Outcome<User>)
    ensures o.store.outbox == s.outbox
    ensures o.result.Err? ==> TablesUnchanged(before, o.store)
    ensures o.result.Ok? ==> o.result.value == u && ColumnsFit(u)
  {
    match SaveUser(s, u)
    case Err(e) => Outcome(RolledBack(before, s), Err(e))
    case Ok(s1) => Outcome(s1, Ok(u))
  }

  /** The e-mail change of updateUser: reject an e-mail that is already stored; otherwise store it
      lower-cased, disable the account, replace its activation record, send the new link and save. */
  ghost function ChangeEmail(s: Store, cfg: Config, u: User, email: string, token: string): (o: Outcome<User>)
    requires u.id.Some?
    ensures o.result.Err? ==> TablesUnchanged(s, o.store)
    ensures o.result.Ok? ==> !EmailTaken(s.users, ToLower(email))
                             && o.result.value.email == ToLower(email) && !o.result.value.enabled
  {
    var lower := ToLower(email);
    if EmailTaken(s.users, lower) then Outcome(s, Err(EmailAlreadyExists(email)))
    else
      var id := u.id.value;
      var u2 := u.(email := lower, enabled := false);
      var url := BuildVerificationUrl(cfg.contextPath, token, Account);
      var s1 := DeleteAccount(s, id);
      match SaveAccount(s1, Acct.Create(id, url))
      case Err(e) => Outcome(RolledBack(s, s1), Err(e))
      case Ok(s2) =>
        var s3 := Send(s2, Notification(EmailChannel, u2.firstName, Some(u2.email), AccountVerificationUrl(url)));
        SaveProfile(s, s3, u2)
  }

  /** The e-mail change in the order the persistence layer runs it: the account table's
      deleteByUserId is a derived query, so it only schedules the removal of the old record
      until the next flush, while the new record, whose id is an identity column, is inserted at
      once; the insert therefore meets the old record's `user_id`. */
  ghost function ChangeEmailAsFlushed(s: Store, cfg: Config, u: User, email: string, token: string): (o: Outcome<User>)
    requires u.id.Some?
    ensures o.result.Err? ==> TablesUnchanged(s, o.store)
  {
    var lower := ToLower(email);
    if EmailTaken(s.users, lower) then Outcome(s, Err(EmailAlreadyExists(email)))
    else
      var id := u.id.value;
      var u2 := u.(email := lower, enabled := false);
      var url := BuildVerificationUrl(cfg.contextPath, token, Account);
      match SaveAccount(s, Acct.Create(id, url))
      case Err(e) => Outcome(s, Err(e))
      case Ok(s2) =>
        // the insert succeeded only because the user had no record, so the queued delete finds none
        var s3 := Send(s2, Notification(EmailChannel, u2.firstName, Some(u2.email), AccountVerificationUrl(url)));
        SaveProfile(s, s3, u2)
  }

  /** updateUser: copy the present profile fields, change the e-mail when the request changes
      it, and save the user. */
  ghost function UpdateUser(s: Store, cfg: Config, userId: int, dto: UserUpdateRequests.UserUpdateRequestDto,
                            token: string): (o: Outcome<User>)
    requires Valid(s)
    ensures o.result.Err? ==> TablesUnchanged(s, o.store)
    ensures o.result.Ok? ==> IsUserId(s, userId) && o.result.value.id == Some(userId as nat)
  {
    if !IsUserId(s, userId) then Outcome(s, Err(UserNotFoundById(userId)))
    else
      var u1 := WithProfile(s.users[userId as nat], dto);
      if ChangesEmail(dto, u1.email) then ChangeEmail(s, cfg, u1, dto.email.value, token)
      else SaveProfile(s, s, u1)
  }

  /** deleteUserById as written: it throws UserNotFoundById when the user exists, and otherwise
      deletes the missing id, which changes nothing. */
  function DeleteUserByIdAsWritten(s: Store, userId: int): (o: Outcome<()>)
    ensures o.store == s
    ensures o.result.Err? <==> IsUserId(s, userId)
  {
    if IsUserId(s, userId) then Outcome(s, Err(UserNotFoundById(userId))) else Outcome(s, Ok(()))
  }

  /** deleteUserById with the intended check: a missing user is UserNotFoundById; a user that a
      verification record still references cannot be deleted (foreign key); otherwise the row goes. */
  function DeleteUserById(s: Store, userId: int): (o: Outcome<()>)
    ensures o.result.Err? ==> o.store == s
    ensures o.result.Ok? ==> IsUserId(s, userId) && o.store == s.(users := s.users - {userId as nat})
  {
    if !IsUserId(s, userId) then Outcome(s, Err(UserNotFoundById(userId)))
    else
      var id := userId as nat;
      if id in s.mfa || id in s.reset || id in s.account then Outcome(s, Err(IntegrityError(ParentRowForeignKey)))
      else Outcome(s.(users := s.users - {id}), Ok(()))
  }

  /** The message carrying an MFA code: by SMS to the user's phone, otherwise by e-mail. */
  function MfaCodeNotification(user: User, mfaType: MfaType, code: string): (n: Notification)
    ensures n.message == MfaCode(code) && n.firstName == user.firstName
    ensures n.channel == SmsChannel <==> mfaType == Sms
    ensures n.to == (if mfaType == Sms then user.phone else Some(user.email))
  {
    if mfaType == Sms then Notification(SmsChannel, user.firstName, user.phone, MfaCode(code))
    else Notification(EmailChannel, user.firstName, Some(user.email), MfaCode(code))
  }

  /** sendMfaCode: delete the user's MFA record, store a new one with the generated code in upper
      case expiring a day from now, and send the code by SMS or by e-mail. `mfaType` is the
      response object's field, which may be null. */
  function SendMfaCode(s: Store, userId: UserId, mfaType: Option<MfaType>, generated: string, now: int): (o: Outcome<()>)
    ensures o.result.Err? ==> o.store == s
    ensures o.result.Ok? ==> userId in o.store.mfa && o.store.mfa[userId].code == ToUpper(generated)
                             && o.store.mfa[userId].expirationDate == now + MFA_CODE_LIFETIME
                             && |o.store.outbox| == |s.outbox| + 1
  {
    var code := ToUpper(generated);
    var s1 := DeleteMfa(s, userId);
    if userId !in s1.users then Outcome(RolledBack(s, s1), Err(UserNotFoundById(userId)))
    else
      var user := s1.users[userId];
      match SaveMfa(s1, Mfa.Create(userId, code, now + MFA_CODE_LIFETIME))
      case Err(e) => Outcome(RolledBack(s, s1), Err(e))
      case Ok(s2) =>
        if mfaType.None? then Outcome(RolledBack(s, s2), Err(NullPointer))
        else Outcome(Send(s2, MfaCodeNotification(user, mfaType.value, code)), Ok(()))
  }

  /** The body of verifyMfaCode's try block. */
  ghost function CheckMfaCode(s: Store, email: string, code: string, now: int): (o: Outcome<User>)
    ensures o.store != s ==> UserByEmail(s.users, email).Some? && o.store == s.(mfa := s.mfa - {UserByEmail(s.users, email).value})
    ensures o.result.Err? && !o.result.error.MfaCodeExpired? ==> o.store == s
    ensures o.result.Ok? ==> o.result.value.email == email
  {
    match UserByEmail(s.users, email)
    case None => Outcome(s, Err(UserNotFoundByEmail(email)))
    case Some(id) =>
      if id !in s.mfa then Outcome(s, Err(MfaVerificationNotFoundByUserId(MSG_MFA_NOT_FOUND)))
      else if s.mfa[id].code != code then Outcome(s, Err(MfaCodeInvalid(MSG_MFA_INVALID)))
      else if Mfa.IsExpired(s.mfa[id], now) then Outcome(DeleteMfa(s, id), Err(MfaCodeExpired(MSG_MFA_EXPIRED)))
      else Outcome(DeleteMfa(s, id), Ok(s.users[id]))
  }

  /** The catch clause of verifyMfaCode: an unknown e-mail and a missing record become an invalid code. */
  function HideLookupFailure(e: AppError): AppError {
    if e.UserNotFoundByEmail? || e.MfaVerificationNotFoundByUserId? then MfaCodeInvalid(MSG_MFA_INVALID) else e
  }

  /** verifyMfaCode: the code must be the user's stored code and not expired; the record is
      consumed on success and on expiry. */
  ghost function VerifyMfaCode(s: Store, email: string, code: string, now: int): (o: Outcome<User>)
    ensures o.result.Err? ==> o.result.error.MfaCodeInvalid? || o.result.error.MfaCodeExpired?
    ensures o.result.Err? && o.result.error.MfaCodeInvalid? ==> o.store == s
    ensures o.result.Ok? ==> o.result.value.email == email
  {
    var inner := CheckMfaCode(s, email, code, now);
    Outcome(inner.store, inner.result.MapError(HideLookupFailure))
  }

  /** resetPassword(email): for a stored e-mail, replace the user's reset record by one for a new
      link expiring in ten minutes and send the link by e-mail. */
  ghost function ResetPassword(s: Store, cfg: Config, email: string, token: string, now: int): (o: Outcome<()>)
    ensures o.result.Err? ==> o.store == s
    ensures o.result.Ok? ==> EmailTaken(s.users, email) && |o.store.outbox| == |s.outbox| + 1
  {
    match UserByEmail(s.users, email)
    case None => Outcome(s, Err(UserNotFoundByEmail(email)))
    case Some(id) =>
      var user := s.users[id];
      var s1 := DeleteReset(s, id);
      var url := BuildVerificationUrl(cfg.contextPath, token, Password);
      match SaveReset(s1, Reset.Create(id, url, now + RESET_LINK_LIFETIME))
      case Err(e) => Outcome(RolledBack(s, s1), Err(e))
      case Ok(s2) => Outcome(Send(s2, Notification(EmailChannel, user.firstName, Some(user.email), ResetPasswordUrl(url))), Ok(()))
  }

  /** The reset record a key designates, or ResetPasswordVerificationInvalid; an expired one is
      deleted and ResetPasswordVerificationExpired. Shared by the two key-taking operations. */
  ghost function CheckResetKey(s: Store, cfg: Config, key: string, now: int): (o: Outcome<UserId>)
    requires Valid(s)
    ensures o.result.Ok? ==> o.result.value in s.reset && o.result.value in s.users && o.store == s
  {
    match ResetByUrl(s.reset, BuildVerificationUrl(cfg.contextPath, key, Password))
    case None => Outcome(s, Err(ResetPasswordVerificationInvalid(MSG_RESET_INVALID)))
    case Some(id) =>
      if Reset.IsExpired(s.reset[id], now) then
        Outcome(DeleteReset(s, id), Err(ResetPasswordVerificationExpired(MSG_RESET_EXPIRED)))
      else Outcome(s, Ok(id))
  }

  /** verifyResetPasswordKey: the user a live reset link belongs to. */
  ghost function VerifyResetPasswordKey(s: Store, cfg: Config, key: string, now: int): (o: Outcome<User>)
    requires Valid(s)
    ensures o.store.users == s.users && o.store.mfa == s.mfa && o.store.account == s.account && o.store.outbox == s.outbox
    ensures o.result.Ok? ==> o.store == s && o.result.value in s.users.Values
  {
    var c := CheckResetKey(s, cfg, key, now);
    match c.result
    case Err(e) => Outcome(c.store, Err(e))
    case Ok(id) => Outcome(s, Ok(s.users[id]))
  }

  /** resetPassword(key, newPassword, confirmPassword): the two passwords must match; then, for a
      live link, store the encoded new password, consume the record and send a confirmation. */
  ghost function ResetPasswordWithKey(s: Store, cfg: Config, key: string, newPassword: string, confirmPassword: string,
                                      now: int): (o: Outcome<()>)
    requires Valid(s)
    ensures o.result.Err? && !o.result.error.ResetPasswordVerificationExpired? ==> o.store == s
    ensures o.result.Ok? ==> newPassword == confirmPassword && o.store.mfa == s.mfa && o.store.account == s.account
  {
    if newPassword != confirmPassword then Outcome(s, Err(PasswordMismatch(MSG_PASSWORD_MISMATCH)))
    else
      var c := CheckResetKey(s, cfg, key, now);
      match c.result
      case Err(e) => Outcome(c.store, Err(e))
      case Ok(id) =>
        var user := s.users[id].(password := Some(cfg.encode(newPassword)));
        match SaveUser(s, user)
        case Err(e) => Outcome(s, Err(e))
        case Ok(s1) =>
          var s2 := DeleteReset(s1, id);
          Outcome(Send(s2, Notification(EmailChannel, user.firstName, Some(user.email), ResetPasswordConfirmation)), Ok(()))
  }

  /** activateAccount: enable the user an activation link belongs to, answering whether the
      account was disabled until now. */
  ghost function ActivateAccount(s: Store, cfg: Config, key: string): (o: Outcome<bool>)
    requires Valid(s)
    ensures o.store.account == s.account && o.store.mfa == s.mfa && o.store.reset == s.reset
    ensures o.result.Err? || o.result == Ok(false) ==> o.store == s
  {
    match AccountByUrl(s.account, BuildVerificationUrl(cfg.contextPath, key, Account))
    case None => Outcome(s, Err(AccountVerificationNotFoundByUrl(MSG_ACCOUNT_LINK_INVALID)))
    case Some(id) =>
      var user := s.users[id];
      if !user.enabled then
        match SaveUser(s, user.(enabled := true))
        case Err(e) => Outcome(s, Err(e))
        case Ok(s1) => Outcome(Send(s1, Notification(EmailChannel, user.firstName, Some(user.email), AccountVerified)), Ok(true))
      else Outcome(s, Ok(false))
  }
}
