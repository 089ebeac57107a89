/** The user service as an object over its tables: each repository call updates one field, and
    each service method runs the same steps as the service, in the same order. Every method is
    proved to leave the state and return the result that `UserServiceModel` gives for the state
    it started from, and to keep the database invariant. */
module UserServices {
  import opened Wrappers
  import opened JavaLang
  import opened Users
  import opened Errors
  import opened SqlErrors
  import opened Notifications
  import opened VerificationTypes
  import Mfa = MfaVerifications
  import Reset = ResetPasswordVerifications
  import Acct = AccountVerifications
  import UserUpdateRequests
  import M = UserServiceModel
  import I = UserServiceInvariant

  class UserService {
    var users: map<UserId, User>
    var roles: map<string, Role>
    var mfa: map<UserId, M.MfaRecord>
    var reset: map<UserId, M.ResetRecord>
    var account: map<UserId, M.AccountRecord>
    var nextUserId: nat
    var nextMfaId: nat
    var nextResetId: nat
    var nextAccountId: nat
    var outbox: seq<Notification>
    const config: M.Config

    function Snapshot(): M.Store
      reads this
    {
      M.Store(users, roles, mfa, reset, account, nextUserId, nextMfaId, nextResetId, nextAccountId, outbox)
    }

    ghost predicate Valid()
      reads this
    {
      M.Valid(Snapshot())
    }

    /** A service over empty tables, with the given roles. */
    constructor (config: M.Config, roles: map<string, Role>)
      ensures this.config == config
      ensures Snapshot() == M.Store(map[], roles, map[], map[], map[], 0, 0, 0, 0, [])
      ensures Valid()
    {
      this.config := config;
      this.roles := roles;
      users, mfa, reset, account := map[], map[], map[], map[];
      nextUserId, nextMfaId, nextResetId, nextAccountId := 0, 0, 0, 0;
      outbox := [];
    }

    // -------------------------------------------------------------- repositories

    /** The transaction's rollback: every table as it was in `before`. */
    method RollBack(before: M.Store)
      modifies this
      ensures Snapshot() == M.RolledBack(before, old(Snapshot()))
    {
      users, roles, mfa, reset, account := before.users, before.roles, before.mfa, before.reset, before.account;
      nextUserId, nextMfaId, nextResetId, nextAccountId := before.nextUserId, before.nextMfaId, before.nextResetId, before.nextAccountId;
    }

    method ExistsByEmail(email: string) returns (b: bool)
      ensures b == M.EmailTaken(users, email)
    {
      b := exists k | k in users :: users[k].email == email;
    }

    method FindUserByEmail(email: string) returns (r: Option<UserId>)
      requires Valid()
      ensures r == M.UserByEmail(users, email)
    {
      if exists k | k in users :: users[k].email == email {
        var k :| k in users && users[k].email == email;
        r := Some(k);
      } else {
        r := None;
      }
    }

    method FindResetByUrl(url: string) returns (r: Option<UserId>)
      requires Valid()
      ensures r == M.ResetByUrl(reset, url)
    {
      if exists k | k in reset :: reset[k].url == url {
        var k :| k in reset && reset[k].url == url;
        r := Some(k);
      } else {
        r := None;
      }
    }

    method FindAccountByUrl(url: string) returns (r: Option<UserId>)
      requires Valid()
      ensures r == M.AccountByUrl(account, url)
    {
      if exists k | k in account :: account[k].url == url {
        var k :| k in account && account[k].url == url;
        r := Some(k);
      } else {
        r := None;
      }
    }

    method SaveUser(u: User) returns (err: Option<AppError>)
      modifies this
      ensures Snapshot() == M.Applied(old(Snapshot()), M.SaveUser(old(Snapshot()), u))
      ensures err == M.ErrorOf(M.SaveUser(old(Snapshot()), u))
    {
      var id := if u.id.Some? then u.id.value else nextUserId;
      var column := OverlongColumn(u);
      if column.Some? {
        return Some(M.IntegrityError(DataTooLong(column.value)));
      }
      if exists k | k in users :: k != id && users[k].email == u.email {
        return Some(M.IntegrityError(DuplicateEntry(u.email, UsersEmailKey)));
      }
      users := users[id := u.(id := Some(id))];
      if u.id.None? {
        nextUserId := nextUserId + 1;
      }
      err := None;
    }

    method SaveMfa(r: M.MfaRecord) returns (err: Option<AppError>)
      modifies this
      ensures Snapshot() == M.Applied(old(Snapshot()), M.SaveMfa(old(Snapshot()), r))
      ensures err == M.ErrorOf(M.SaveMfa(old(Snapshot()), r))
    {
      if |r.code| > Mfa.CODE_LENGTH {
        return Some(M.IntegrityError(DataTooLong(CodeColumn)));
      }
      if r.user !in users {
        return Some(M.IntegrityError(ChildRowForeignKey));
      }
      if r.user in mfa {
        return Some(M.IntegrityError(DuplicateEntry(NatToString(r.user), UserIdKey)));
      }
      if exists k | k in mfa :: mfa[k].code == r.code {
        return Some(M.IntegrityError(DuplicateEntry(r.code, CodeKey)));
      }
      mfa := mfa[r.user := r.(id := Some(nextMfaId))];
      nextMfaId := nextMfaId + 1;
      err := None;
    }

    method SaveReset(r: M.ResetRecord) returns (err: Option<AppError>)
      modifies this
      ensures Snapshot() == M.Applied(old(Snapshot()), M.SaveReset(old(Snapshot()), r))
      ensures err == M.ErrorOf(M.SaveReset(old(Snapshot()), r))
    {
      if r.user !in users {
        return Some(M.IntegrityError(ChildRowForeignKey));
      }
      if r.user in reset {
        return Some(M.IntegrityError(DuplicateEntry(NatToString(r.user), UserIdKey)));
      }
      if exists k | k in reset :: reset[k].url == r.url {
        return Some(M.IntegrityError(DuplicateEntry(r.url, UrlKey)));
      }
      reset := reset[r.user := r.(id := Some(nextResetId))];
      nextResetId := nextResetId + 1;
      err := None;
    }

    method SaveAccount(r: M.AccountRecord) returns (err: Option<AppError>)
      modifies this
      ensures Snapshot() == M.Applied(old(Snapshot()), M.SaveAccount(old(Snapshot()), r))
      ensures err == M.ErrorOf(M.SaveAccount(old(Snapshot()), r))
    {
      if r.user !in users {
        return Some(M.IntegrityError(ChildRowForeignKey));
      }
      if r.user in account {
        return Some(M.IntegrityError(DuplicateEntry(NatToString(r.user), UserIdKey)));
      }
      if exists k | k in account :: account[k].url == r.url {
        return Some(M.IntegrityError(DuplicateEntry(r.url, UrlKey)));
      }
      account := account[r.user := r.(id := Some(nextAccountId))];
      nextAccountId := nextAccountId + 1;
      err := None;
    }

    method DeleteMfaByUserId(user: int)
      modifies this
      ensures Snapshot() == M.DeleteMfa(old(Snapshot()), user)
    {
      if user >= 0 {
        mfa := mfa - {user as nat};
      }
    }

    method DeleteResetByUserId(user: UserId)
      modifies this
      ensures Snapshot() == M.DeleteReset(old(Snapshot()), user)
    {
      reset := reset - {user};
    }

    method DeleteAccountByUserId(user: UserId)
      modifies this
      ensures Snapshot() == M.DeleteAccount(old(Snapshot()), user)
    {
      account := account - {user};
    }

    /** Hands a message to the e-mail or SMS sender. */
    method Send(n: Notification)
      modifies this
      ensures Snapshot() == M.Send(old(Snapshot()), n)
    {
      outbox := outbox + [n];
    }

    // -------------------------------------------------------------- service operations

    method CreateUser(firstName: string, lastName: string, email: string, password: string, token: string)
      returns (r: Result<User, AppError>)
      requires Valid()
      modifies this
      ensures Valid()
      ensures M.Outcome(Snapshot(), r) == M.CreateUser(old(Snapshot()), config, firstName, lastName, email, password, token)
    {
      I.CreateUserKeepsValid(Snapshot(), config, firstName, lastName, email, password, token);
      var before := Snapshot();
      var taken := ExistsByEmail(email);
      if taken {
        return Err(EmailAlreadyExists(email));
      }
      var emailLower := ToLower(email);
      var user := NewUser(firstName, lastName, emailLower, config.encode(password));
      if M.ROLE_USER !in roles {
        return Err(RoleNotFoundByName(M.ROLE_USER));
      }
      user := user.(role := Some(roles[M.ROLE_USER]));
      var createdUser := user.(id := Some(nextUserId));
      var err := SaveUser(user);
      if err.Some? {
        return Err(err.value);
      }
      var verificationUrl := M.BuildVerificationUrl(config.contextPath, token, Account);
      err := SaveAccount(Acct.Create(createdUser.id.value, verificationUrl));
      if err.Some? {
        RollBack(before);
        return Err(err.value);
      }
      Send(Notification(EmailChannel, createdUser.firstName, Some(createdUser.email), AccountVerificationUrl(verificationUrl)));
      r := Ok(createdUser);
    }

    method GetUserByEmail(email: string) returns (r: Result<User, AppError>)
      requires Valid()
      ensures r == M.GetUserByEmail(Snapshot(), email)
    {
      var found := FindUserByEmail(email);
      if found.None? {
        return Err(UserNotFoundByEmail(email));
      }
      r := Ok(users[found.value]);
    }

    method UpdateUser(userId: int, dto: UserUpdateRequests.UserUpdateRequestDto, token: string)
      returns (r: Result<User, AppError>)
      requires Valid()
      modifies this
      ensures Valid()
      ensures M.Outcome(Snapshot(), r) == M.UpdateUser(old(Snapshot()), config, userId, dto, token)
    {
      I.UpdateUserKeepsValid(Snapshot(), config, userId, dto, token);
      var before := Snapshot();
      if userId < 0 || userId as nat !in users {
        return Err(UserNotFoundById(userId));
      }
      var id := userId as nat;
      var user := users[id];
      // each setter runs only when its request field is present
      user := user.(firstName := dto.firstName.GetOr(user.firstName));
      user := user.(lastName := dto.lastName.GetOr(user.lastName));
      user := user.(phone := M.Overwrite(dto.phone, user.phone));
      user := user.(title := M.Overwrite(dto.title, user.title));
      user := user.(bio := M.Overwrite(dto.bio, user.bio));
      assert user == M.WithProfile(before.users[id], dto);
      if dto.email.Some? && !IsBlank(dto.email.value) {
        var newEmailLower := ToLower(dto.email.value);
        if !EqualsIgnoreCase(newEmailLower, user.email) {
          r := ChangeEmail(user, dto.email.value, token);
          return;
        }
      }
      r := SaveProfile(before, user);
    }

    /** The e-mail change inside updateUser, for the entity `user` being updated. */
    method ChangeEmail(user: User, email: string, token: string) returns (r: Result<User, AppError>)
      requires Valid() && user.id.Some? && user.id.value in users
      modifies this
      ensures Valid()
      ensures M.Outcome(Snapshot(), r) == M.ChangeEmail(old(Snapshot()), config, user, email, token)
    {
      I.ChangeEmailKeepsValid(Snapshot(), config, user, email, token);
      var before := Snapshot();
      var newEmailLower := ToLower(email);
      var taken := ExistsByEmail(newEmailLower);
      if taken {
        return Err(EmailAlreadyExists(email));
      }
      var changed := user.(email := newEmailLower, enabled := false);
      var verificationUrl := M.BuildVerificationUrl(config.contextPath, token, Account);
      DeleteAccountByUserId(user.id.value);
      var err := SaveAccount(Acct.Create(user.id.value, verificationUrl));
      if err.Some? {
        RollBack(before);
        return Err(err.value);
      }
      Send(Notification(EmailChannel, changed.firstName, Some(changed.email), AccountVerificationUrl(verificationUrl)));
      r := SaveProfile(before, changed);
    }

    /** The save that ends updateUser, rolled back to `before` when it fails. */
    method SaveProfile(before: M.Store, user: User) returns (r: Result<User, AppError>)
      modifies this
      ensures M.Outcome(Snapshot(), r) == M.SaveProfile(before, old(Snapshot()), user)
    {
      var err := SaveUser(user);
      if err.Some? {
        RollBack(before);
        return Err(err.value);
      }
      r := Ok(user);
    }

    /** deleteUserById with the existence check the right way round. */
    method DeleteUserById(userId: int) returns (r: Result<(), AppError>)
      requires Valid()
      modifies this
      ensures Valid()
      ensures M.Outcome(Snapshot(), r) == M.DeleteUserById(old(Snapshot()), userId)
    {
      I.DeleteUserByIdKeepsValid(Snapshot(), userId);
      if userId < 0 || userId as nat !in users {
        return Err(UserNotFoundById(userId));
      }
      var id := userId as nat;
      if id in mfa || id in reset || id in account {
        return Err(M.IntegrityError(ParentRowForeignKey));
      }
      ghost var o := M.DeleteUserById(Snapshot(), userId);
      assert o.store.users == users - {id};
      users := users - {id};
      r := Ok(());
      assert o.store == Snapshot();
    }

    method SendMfaCode(userId: UserId, mfaType: Option<MfaType>, generated: string, now: int)
      returns (r: Result<(), AppError>)
      requires Valid()
      modifies this
      ensures Valid()
      ensures M.Outcome(Snapshot(), r) == M.SendMfaCode(old(Snapshot()), userId, mfaType, generated, now)
    {
      I.SendMfaCodeKeepsValid(Snapshot(), userId, mfaType, generated, now);
      var before := Snapshot();
      var expirationDate := now + M.MFA_CODE_LIFETIME;
      var code := ToUpper(generated);
      DeleteMfaByUserId(userId);
      if userId !in users {
        RollBack(before);
        return Err(UserNotFoundById(userId));
      }
      var existingUser := users[userId];
      var err := SaveMfa(Mfa.Create(userId, code, expirationDate));
      if err.Some? {
        RollBack(before);
        return Err(err.value);
      }
      if mfaType.None? {
        RollBack(before);
        return Err(NullPointer);
      }
      Send(M.MfaCodeNotification(existingUser, mfaType.value, code));
      r := Ok(());
    }

    /** The try block of verifyMfaCode. */
    method CheckMfaCode(email: string, code: string, now: int) returns (r: Result<User, AppError>)
      requires Valid()
      modifies this
      ensures Valid()
      ensures M.Outcome(Snapshot(), r) == M.CheckMfaCode(old(Snapshot()), email, code, now)
    {
      I.VerifyMfaCodeKeepsValid(Snapshot(), email, code, now);
      var found := FindUserByEmail(email);
      if found.None? {
        return Err(UserNotFoundByEmail(email));
      }
      var id := found.value;
      var user := users[id];
      if id !in mfa {
        return Err(MfaVerificationNotFoundByUserId(MSG_MFA_NOT_FOUND));
      }
      var verification := mfa[id];
      if verification.code != code {
        return Err(MfaCodeInvalid(MSG_MFA_INVALID));
      }
      if Mfa.IsExpired(verification, now) {
        DeleteMfaByUserId(id);
        return Err(MfaCodeExpired(MSG_MFA_EXPIRED));
      }
      DeleteMfaByUserId(id);
      r := Ok(user);
    }

    method VerifyMfaCode(email: string, code: string, now: int) returns (r: Result<User, AppError>)
      requires Valid()
      modifies this
      ensures Valid()
      ensures M.Outcome(Snapshot(), r) == M.VerifyMfaCode(old(Snapshot()), email, code, now)
    {
      I.VerifyMfaCodeKeepsValid(Snapshot(), email, code, now);
      r := CheckMfaCode(email, code, now);
      if r.Err? && (r.error.UserNotFoundByEmail? || r.error.MfaVerificationNotFoundByUserId?) {
        r := Err(MfaCodeInvalid(MSG_MFA_INVALID));
      }
    }

    method ResetPassword(email: string, token: string, now: int) returns (r: Result<(), AppError>)
      requires Valid()
      modifies this
      ensures Valid()
      ensures M.Outcome(Snapshot(), r) == M.ResetPassword(old(Snapshot()), config, email, token, now)
    {
      I.ResetPasswordKeepsValid(Snapshot(), config, email, token, now);
      var before := Snapshot();
      var found := FindUserByEmail(email);
      if found.None? {
        return Err(UserNotFoundByEmail(email));
      }
      var user := users[found.value];
      DeleteResetByUserId(found.value);
      var expirationDate := now + M.RESET_LINK_LIFETIME;
      var verificationUrl := M.BuildVerificationUrl(config.contextPath, token, Password);
      var err := SaveReset(Reset.Create(found.value, verificationUrl, expirationDate));
      if err.Some? {
        RollBack(before);
        return Err(err.value);
      }
      Send(Notification(EmailChannel, user.firstName, Some(user.email), ResetPasswordUrl(verificationUrl)));
      r := Ok(());
    }

    /** The lookup and expiry check both key-taking reset operations start with. */
    method CheckResetKey(key: string, now: int) returns (r: Result<UserId, AppError>)
      requires Valid()
      modifies this
      ensures Valid()
      ensures M.Outcome(Snapshot(), r) == M.CheckResetKey(old(Snapshot()), config, key, now)
    {
      I.CheckResetKeyKeepsValid(Snapshot(), config, key, now);
      var found := FindResetByUrl(M.BuildVerificationUrl(config.contextPath, key, Password));
      if found.None? {
        return Err(ResetPasswordVerificationInvalid(MSG_RESET_INVALID));
      }
      if Reset.IsExpired(reset[found.value], now) {
        DeleteResetByUserId(found.value);
        return Err(ResetPasswordVerificationExpired(MSG_RESET_EXPIRED));
      }
      r := Ok(found.value);
    }

    method VerifyResetPasswordKey(key: string, now: int) returns (r: Result<User, AppError>)
      requires Valid()
      modifies this
      ensures Valid()
      ensures M.Outcome(Snapshot(), r) == M.VerifyResetPasswordKey(old(Snapshot()), config, key, now)
    {
      I.CheckResetKeyKeepsValid(Snapshot(), config, key, now);
      var found := CheckResetKey(key, now);
      if found.Err? {
        return Err(found.error);
      }
      r := Ok(users[found.value]);
    }

    method ResetPasswordWithKey(key: string, newPassword: string, confirmPassword: string, now: int)
      returns (r: Result<(), AppError>)
      requires Valid()
      modifies this
      ensures Valid()
      ensures M.Outcome(Snapshot(), r) == M.ResetPasswordWithKey(old(Snapshot()), config, key, newPassword, confirmPassword, now)
    {
      I.ResetPasswordWithKeyKeepsValid(Snapshot(), config, key, newPassword, confirmPassword, now);
      if newPassword != confirmPassword {
        return Err(PasswordMismatch(MSG_PASSWORD_MISMATCH));
      }
      var found := CheckResetKey(key, now);
      if found.Err? {
        return Err(found.error);
      }
      var user := users[found.value];
      user := user.(password := Some(config.encode(newPassword)));
      var err := SaveUser(user);
      if err.Some? {
        return Err(err.value);
      }
      DeleteResetByUserId(found.value);
      Send(Notification(EmailChannel, user.firstName, Some(user.email), ResetPasswordConfirmation));
      r := Ok(());
    }

    method ActivateAccount(key: string) returns (r: Result<bool, AppError>)
      requires Valid()
      modifies this
      ensures Valid()
      ensures M.Outcome(Snapshot(), r) == M.ActivateAccount(old(Snapshot()), config, key)
    {
      I.ActivateAccountKeepsValid(Snapshot(), config, key);
      var found := FindAccountByUrl(M.BuildVerificationUrl(config.contextPath, key, Account));
      if found.None? {
        return Err(AccountVerificationNotFoundByUrl(MSG_ACCOUNT_LINK_INVALID));
      }
      var user := users[found.value];
      if !user.enabled {
        user := user.(enabled := true);
        var err := SaveUser(user);
        if err.Some? {
          return Err(err.value);
        }
        Send(Notification(EmailChannel, user.firstName, Some(user.email), AccountVerified));
        return Ok(true);
      }
      r := Ok(false);
    }
  }
}
