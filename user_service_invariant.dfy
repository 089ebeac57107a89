/** Every operation of the user service keeps the database's constraints (`Valid`): each
    repository write does, and so each operation, on every path, success or failure. */
module UserServiceInvariant {
  import opened Wrappers
  import opened JavaLang
  import opened Users
  import opened Notifications
  import opened VerificationTypes
  import opened UserServiceModel
  import Mfa = MfaVerifications
  import Reset = ResetPasswordVerifications
  import Acct = AccountVerifications
  import UserUpdateRequests

  // ---------------------------------------------------------------- repository writes

  /** Saving a stored or a new user keeps the constraints when the database accepts it. */
  lemma SaveUserKeepsValid(s: Store, u: User)
    requires Valid(s) && (u.id.None? || u.id.value in s.users) && SaveUser(s, u).Ok?
    ensures Valid(SaveUser(s, u).value)
  {
  }

  lemma SaveMfaKeepsValid(s: Store, r: MfaRecord)
    requires Valid(s) && SaveMfa(s, r).Ok?
    ensures Valid(SaveMfa(s, r).value)
  {
    var s2 := SaveMfa(s, r).value;
    var m := s2.mfa;
    assert UsersValid(s2) && ResetValid(s2) && AccountValid(s2) by {
      assert s2.users == s.users && s2.reset == s.reset && s2.account == s.account;
      assert s2.nextUserId == s.nextUserId && s2.nextResetId == s.nextResetId && s2.nextAccountId == s.nextAccountId;
    }
    forall a, b | a in m && b in m && a != b
      ensures m[a].code != m[b].code && m[a].id != m[b].id
    {
      if a != r.user {
        assert m[a] == s.mfa[a];
      }
      if b != r.user {
        assert m[b] == s.mfa[b];
      }
    }
  }

  lemma SaveResetKeepsValid(s: Store, r: ResetRecord)
    requires Valid(s) && SaveReset(s, r).Ok?
    ensures Valid(SaveReset(s, r).value)
  {
    var s2 := SaveReset(s, r).value;
    var m := s2.reset;
    assert UsersValid(s2) && MfaValid(s2) && AccountValid(s2) by {
      assert s2.users == s.users && s2.mfa == s.mfa && s2.account == s.account;
      assert s2.nextUserId == s.nextUserId && s2.nextMfaId == s.nextMfaId && s2.nextAccountId == s.nextAccountId;
    }
    forall a, b | a in m && b in m && a != b
      ensures m[a].url != m[b].url && m[a].id != m[b].id
    {
      if a != r.user {
        assert m[a] == s.reset[a];
      }
      if b != r.user {
        assert m[b] == s.reset[b];
      }
    }
  }

  lemma SaveAccountKeepsValid(s: Store, r: AccountRecord)
    requires Valid(s) && SaveAccount(s, r).Ok?
    ensures Valid(SaveAccount(s, r).value)
  {
    var s2 := SaveAccount(s, r).value;
    var m := s2.account;
    assert UsersValid(s2) && MfaValid(s2) && ResetValid(s2) by {
      assert s2.users == s.users && s2.mfa == s.mfa && s2.reset == s.reset;
      assert s2.nextUserId == s.nextUserId && s2.nextMfaId == s.nextMfaId && s2.nextResetId == s.nextResetId;
    }
    forall a, b | a in m && b in m && a != b
      ensures m[a].url != m[b].url && m[a].id != m[b].id
    {
      if a != r.user {
        assert m[a] == s.account[a];
      }
      if b != r.user {
        assert m[b] == s.account[b];
      }
    }
  }

  /** Deleting a verification record keeps the constraints. */
  lemma DeleteMfaKeepsValid(s: Store, user: int)
    requires Valid(s)
    ensures Valid(DeleteMfa(s, user))
  {
  }

  lemma DeleteResetKeepsValid(s: Store, user: UserId)
    requires Valid(s)
    ensures Valid(DeleteReset(s, user))
  {
  }

  lemma DeleteAccountKeepsValid(s: Store, user: UserId)
    requires Valid(s)
    ensures Valid(DeleteAccount(s, user))
  {
  }

  /** The constraints do not look at the notifications sent. */
  lemma ValidIgnoresOutbox(s: Store, outbox: seq<Notification>)
    requires Valid(s)
    ensures Valid(s.(outbox := outbox))
  {
  }

  // ---------------------------------------------------------------- operations

  lemma CreateUserKeepsValid(s: Store, cfg: Config, firstName: string, lastName: string, email: string,
                             password: string, token: string)
    requires Valid(s)
    ensures Valid(CreateUser(s, cfg, firstName, lastName, email, password, token).store)
  {
    if !EmailTaken(s.users, email) && ROLE_USER in s.roles {
      var user := NewUser(firstName, lastName, ToLower(email), cfg.encode(password)).(role := Some(s.roles[ROLE_USER]));
      if SaveUser(s, user).Ok? {
        SaveUserKeepsValid(s, user);
        var s1 := SaveUser(s, user).value;
        var rec := Acct.Create(SavedUser(s, user).id.value, BuildVerificationUrl(cfg.contextPath, token, Account));
        if SaveAccount(s1, rec).Ok? {
          SaveAccountKeepsValid(s1, rec);
          var s2 := SaveAccount(s1, rec).value;
          ValidIgnoresOutbox(s2, CreateUser(s, cfg, firstName, lastName, email, password, token).store.outbox);
        } else {
          ValidIgnoresOutbox(s, s1.outbox);
        }
      }
    }
  }

  lemma SaveProfileKeepsValid(before: Store, s: Store, u: User)
    requires Valid(before) && Valid(s) && u.id.Some? && u.id.value in s.users
    ensures Valid(SaveProfile(before, s, u).store)
  {
    if SaveUser(s, u).Ok? {
      SaveUserKeepsValid(s, u);
    } else {
      ValidIgnoresOutbox(before, s.outbox);
    }
  }

  lemma ChangeEmailKeepsValid(s: Store, cfg: Config, u: User, email: string, token: string)
    requires Valid(s) && u.id.Some? && u.id.value in s.users
    ensures Valid(ChangeEmail(s, cfg, u, email, token).store)
  {
    var lower := ToLower(email);
    if !EmailTaken(s.users, lower) {
      var id := u.id.value;
      var u2 := u.(email := lower, enabled := false);
      var url := BuildVerificationUrl(cfg.contextPath, token, Account);
      var s1 := DeleteAccount(s, id);
      DeleteAccountKeepsValid(s, id);
      var rec := Acct.Create(id, url);
      if SaveAccount(s1, rec).Ok? {
        SaveAccountKeepsValid(s1, rec);
        var s2 := SaveAccount(s1, rec).value;
        var s3 := Send(s2, Notification(EmailChannel, u2.firstName, Some(u2.email), AccountVerificationUrl(url)));
        ValidIgnoresOutbox(s2, s3.outbox);
        SaveProfileKeepsValid(s, s3, u2);
      } else {
        ValidIgnoresOutbox(s, s1.outbox);
      }
    }
  }

  lemma UpdateUserKeepsValid(s: Store, cfg: Config, userId: int, dto: UserUpdateRequests.UserUpdateRequestDto, token: string)
    requires Valid(s)
    ensures Valid(UpdateUser(s, cfg, userId, dto, token).store)
  {
    if IsUserId(s, userId) {
      var u1 := WithProfile(s.users[userId as nat], dto);
      if ChangesEmail(dto, u1.email) {
        ChangeEmailKeepsValid(s, cfg, u1, dto.email.value, token);
      } else {
        SaveProfileKeepsValid(s, s, u1);
      }
    }
  }

  /** Removing a user no record references keeps the constraints. */
  lemma RemoveUnreferencedUserKeepsValid(s: Store, id: UserId)
    requires Valid(s) && id !in s.mfa && id !in s.reset && id !in s.account
    ensures Valid(s.(users := s.users - {id}))
  {
    var s2 := s.(users := s.users - {id});
    assert UsersValid(s2);
    assert MfaValid(s2) by {
      assert forall k | k in s2.mfa :: k in s2.users;
    }
    assert ResetValid(s2) by {
      assert forall k | k in s2.reset :: k in s2.users;
    }
    assert AccountValid(s2) by {
      assert forall k | k in s2.account :: k in s2.users;
    }
  }

  lemma DeleteUserByIdKeepsValid(s: Store, userId: int)
    requires Valid(s)
    ensures Valid(DeleteUserById(s, userId).store)
  {
    if IsUserId(s, userId) && userId as nat !in s.mfa && userId as nat !in s.reset && userId as nat !in s.account {
      RemoveUnreferencedUserKeepsValid(s, userId as nat);
    }
  }

  lemma SendMfaCodeKeepsValid(s: Store, userId: UserId, mfaType: Option<MfaType>, generated: string, now: int)
    requires Valid(s)
    ensures Valid(SendMfaCode(s, userId, mfaType, generated, now).store)
  {
    var o := SendMfaCode(s, userId, mfaType, generated, now);
    var s1 := DeleteMfa(s, userId);
    var rec := Mfa.Create(userId, ToUpper(generated), now + MFA_CODE_LIFETIME);
    if userId in s1.users && SaveMfa(s1, rec).Ok? && mfaType.Some? {
      DeleteMfaKeepsValid(s, userId);
      SaveMfaKeepsValid(s1, rec);
      ValidIgnoresOutbox(SaveMfa(s1, rec).value, o.store.outbox);
    } else {
      ValidIgnoresOutbox(s, o.store.outbox);
    }
  }

  lemma VerifyMfaCodeKeepsValid(s: Store, email: string, code: string, now: int)
    requires Valid(s)
    ensures Valid(CheckMfaCode(s, email, code, now).store)
    ensures Valid(VerifyMfaCode(s, email, code, now).store)
  {
    var id := UserByEmail(s.users, email);
    if id.Some? {
      DeleteMfaKeepsValid(s, id.value);
    }
  }

  lemma ResetPasswordKeepsValid(s: Store, cfg: Config, email: string, token: string, now: int)
    requires Valid(s)
    ensures Valid(ResetPassword(s, cfg, email, token, now).store)
  {
    var id := UserByEmail(s.users, email);
    if id.Some? {
      var s1 := DeleteReset(s, id.value);
      DeleteResetKeepsValid(s, id.value);
      var rec := Reset.Create(id.value, BuildVerificationUrl(cfg.contextPath, token, Password), now + RESET_LINK_LIFETIME);
      var o := ResetPassword(s, cfg, email, token, now);
      if SaveReset(s1, rec).Ok? {
        SaveResetKeepsValid(s1, rec);
        ValidIgnoresOutbox(SaveReset(s1, rec).value, o.store.outbox);
      } else {
        ValidIgnoresOutbox(s, o.store.outbox);
      }
    }
  }

  lemma CheckResetKeyKeepsValid(s: Store, cfg: Config, key: string, now: int)
    requires Valid(s)
    ensures Valid(CheckResetKey(s, cfg, key, now).store)
    ensures Valid(VerifyResetPasswordKey(s, cfg, key, now).store)
  {
    var id := ResetByUrl(s.reset, BuildVerificationUrl(cfg.contextPath, key, Password));
    if id.Some? {
      DeleteResetKeepsValid(s, id.value);
    }
  }

  lemma ResetPasswordWithKeyKeepsValid(s: Store, cfg: Config, key: string, newPassword: string, confirmPassword: string, now: int)
    requires Valid(s)
    ensures Valid(ResetPasswordWithKey(s, cfg, key, newPassword, confirmPassword, now).store)
  {
    if newPassword == confirmPassword {
      CheckResetKeyKeepsValid(s, cfg, key, now);
      var c := CheckResetKey(s, cfg, key, now);
      if c.result.Ok? {
        var id := c.result.value;
        var user := s.users[id].(password := Some(cfg.encode(newPassword)));
        if SaveUser(s, user).Ok? {
          SaveUserKeepsValid(s, user);
          var s1 := SaveUser(s, user).value;
          DeleteResetKeepsValid(s1, id);
          var o := ResetPasswordWithKey(s, cfg, key, newPassword, confirmPassword, now);
          ValidIgnoresOutbox(DeleteReset(s1, id), o.store.outbox);
        }
      }
    }
  }

  lemma ActivateAccountKeepsValid(s: Store, cfg: Config, key: string)
    requires Valid(s)
    ensures Valid(ActivateAccount(s, cfg, key).store)
  {
    var id := AccountByUrl(s.account, BuildVerificationUrl(cfg.contextPath, key, Account));
    if id.Some? && !s.users[id.value].enabled {
      var user := s.users[id.value].(enabled := true);
      if SaveUser(s, user).Ok? {
        SaveUserKeepsValid(s, user);
        ValidIgnoresOutbox(SaveUser(s, user).value, ActivateAccount(s, cfg, key).store.outbox);
      }
    }
  }

  /** Real rollback also lands in a state that keeps the constraints. */
  lemma CommittedKeepsValid<T>(before: Store, o: Outcome<T>)
    requires Valid(before) && Valid(o.store)
    ensures Valid(Committed(before, o))
  {
    ValidIgnoresOutbox(before, o.store.outbox);
  }
}
