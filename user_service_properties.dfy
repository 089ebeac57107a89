/** What the user service's operations guarantee, stated over `UserServiceModel`: how each
    verification record is issued, checked and consumed, what registration and profile updates
    store, and how the responses of failed calls look. */
module UserServiceProperties {
  import opened Wrappers
  import opened JavaLang
  import opened Users
  import opened Errors
  import opened SqlErrors
  import opened Notifications
  import opened VerificationTypes
  import opened ExceptionHandler
  import opened UserServiceModel
  import opened UserServiceInvariant
  import Mfa = MfaVerifications
  import Reset = ResetPasswordVerifications
  import Acct = AccountVerifications
  import UserRequests
  import UserUpdateRequests

  /** What RandomStringUtils.secure().nextAlphanumeric(8) yields: eight ASCII letters and digits. */
  predicate IsGeneratedCode(g: string) {
    |g| == Mfa.CODE_LENGTH && forall i | 0 <= i < |g| :: IsAsciiAlphanumeric(g[i])
  }

  /** No MFA record of another user already holds `code`. */
  predicate CodeIsFree(s: Store, userId: UserId, code: string) {
    forall k | k in s.mfa && k != userId :: s.mfa[k].code != code
  }

  /** No reset record of another user already holds `url`. */
  predicate ResetUrlIsFree(s: Store, userId: UserId, url: string) {
    forall k | k in s.reset && k != userId :: s.reset[k].url != url
  }

  /** No activation record of another user already holds `url`. */
  predicate AccountUrlIsFree(s: Store, userId: UserId, url: string) {
    forall k | k in s.account && k != userId :: s.account[k].url != url
  }

  // ---------------------------------------------------------------- MFA codes

  /** Upper-casing a generated code gives eight upper-case letters and digits. */
  lemma {:induction false} GeneratedCodeShape(g: string)
    requires IsGeneratedCode(g)
    ensures |ToUpper(g)| == Mfa.CODE_LENGTH
    ensures forall i | 0 <= i < |ToUpper(g)| :: IsAsciiUpper(ToUpper(g)[i]) || IsAsciiDigit(ToUpper(g)[i])
  {
    forall i | 0 <= i < |g| ensures IsAsciiUpper(ToUpper(g)[i]) || IsAsciiDigit(ToUpper(g)[i]) {
      assert ToUpper(g)[i] == UpperChar(g[i]);
    }
  }

  /** The state a successful sendMfaCode leaves behind, written out. */
  lemma SendMfaCodeSucceeds(s: Store, userId: UserId, mfaType: MfaType, generated: string, now: int)
    requires userId in s.users && |generated| <= Mfa.CODE_LENGTH
    requires CodeIsFree(s, userId, ToUpper(generated))
    ensures SendMfaCode(s, userId, Some(mfaType), generated, now)
            == Outcome(s.(mfa := (s.mfa - {userId})[userId := Mfa.MfaVerification(Some(s.nextMfaId), userId, ToUpper(generated), now + MFA_CODE_LIFETIME)],
                          nextMfaId := s.nextMfaId + 1,
                          outbox := s.outbox + [MfaCodeNotification(s.users[userId], mfaType, ToUpper(generated))]),
                       Ok(()))
  {
    var code := ToUpper(generated);
    var s1 := DeleteMfa(s, userId);
    assert forall k | k in s1.mfa :: s1.mfa[k].code != code;
    assert SaveMfa(s1, Mfa.Create(userId, code, now + MFA_CODE_LIFETIME)).Ok?;
  }

  /** sendMfaCode replaces whatever MFA record the user had by exactly one new record: the
      generated code in upper case, eight letters and digits, expiring a day from now. Nothing
      else is stored or removed, and the code is sent over the channel the MFA type names. */
  lemma SendMfaCodeReplacesTheRecord(s: Store, userId: UserId, mfaType: MfaType, generated: string, now: int)
    requires userId in s.users && IsGeneratedCode(generated)
    requires CodeIsFree(s, userId, ToUpper(generated))
    ensures var o := SendMfaCode(s, userId, Some(mfaType), generated, now);
            && o.result == Ok(())
            && o.store.mfa.Keys == s.mfa.Keys + {userId}
            && (forall k | k in s.mfa && k != userId :: o.store.mfa[k] == s.mfa[k])
            && o.store.mfa[userId].user == userId
            && o.store.mfa[userId].code == ToUpper(generated)
            && o.store.mfa[userId].expirationDate == now + MFA_CODE_LIFETIME
            && o.store.users == s.users && o.store.reset == s.reset && o.store.account == s.account
            && o.store.outbox == s.outbox + [MfaCodeNotification(s.users[userId], mfaType, ToUpper(generated))]
    ensures var r := SendMfaCode(s, userId, Some(mfaType), generated, now).store.mfa[userId];
            |r.code| == Mfa.CODE_LENGTH
            && forall i | 0 <= i < |r.code| :: IsAsciiUpper(r.code[i]) || IsAsciiDigit(r.code[i])
  {
    GeneratedCodeShape(generated);
    SendMfaCodeSucceeds(s, userId, mfaType, generated, now);
  }

  /** A failed sendMfaCode leaves every table and the outbox as they were. */
  lemma SendMfaCodeFailureChangesNothing(s: Store, userId: UserId, mfaType: Option<MfaType>, generated: string, now: int)
    ensures var o := SendMfaCode(s, userId, mfaType, generated, now);
            o.result.Err? ==> o.store == s
  {
  }

  /** sendMfaCode for an id no user has: UserNotFoundById. */
  lemma SendMfaCodeToUnknownUser(s: Store, userId: UserId, mfaType: Option<MfaType>, generated: string, now: int)
    requires userId !in s.users
    ensures SendMfaCode(s, userId, mfaType, generated, now) == Outcome(s, Err(UserNotFoundById(userId)))
  {
  }

  /** A generated code that another user's record already holds is refused by the unique key on
      the code column, which the client sees as a 409 conflict. */
  lemma SendMfaCodeCollision(s: Store, userId: UserId, mfaType: Option<MfaType>, generated: string, now: int, uri: string)
    requires userId in s.users && IsGeneratedCode(generated) && !CodeIsFree(s, userId, ToUpper(generated))
    ensures var e := IntegrityError(DuplicateEntry(ToUpper(generated), CodeKey));
            SendMfaCode(s, userId, mfaType, generated, now) == Outcome(s, Err(e)) && Handle(e, uri).status == 409
  {
    GeneratedCodeShape(generated);
    DuplicateEntryIsConflict(ToUpper(generated), CodeKey, uri);
    var k :| k in s.mfa && k != userId && s.mfa[k].code == ToUpper(generated);
    assert k in DeleteMfa(s, userId).mfa;
  }

  /** With a null MFA type the record is saved and then rolled back by the NullPointerException. */
  lemma SendMfaCodeWithoutType(s: Store, userId: UserId, generated: string, now: int)
    requires userId in s.users && IsGeneratedCode(generated) && CodeIsFree(s, userId, ToUpper(generated))
    ensures SendMfaCode(s, userId, None, generated, now) == Outcome(s, Err(NullPointer))
  {
    var code := ToUpper(generated);
    var s1 := DeleteMfa(s, userId);
    assert forall k | k in s1.mfa :: s1.mfa[k].code != code;
    assert SaveMfa(s1, Mfa.Create(userId, code, now + MFA_CODE_LIFETIME)).Ok?;
  }

  /** verifyMfaCode answers "Invalid MFA code." exactly when the e-mail is unknown, the user has no
      MFA record, or the code differs from the stored one; in those cases nothing changes. */
  lemma VerifyMfaCodeInvalidExactly(s: Store, email: string, code: string, now: int)
    requires Valid(s)
    ensures var o := VerifyMfaCode(s, email, code, now);
            var id := UserByEmail(s.users, email);
            o.result == Err(MfaCodeInvalid(MSG_MFA_INVALID))
            <==> id.None? || id.value !in s.mfa || s.mfa[id.value].code != code
    ensures var o := VerifyMfaCode(s, email, code, now);
            o.result == Err(MfaCodeInvalid(MSG_MFA_INVALID)) ==> o.store == s
  {
  }

  /** Whatever made verifyMfaCode fail (unknown e-mail, missing record, wrong or expired code), the
      client gets the very same 401 response. */
  lemma VerifyMfaCodeFailuresLookAlike(s: Store, email: string, code: string, now: int, uri: string)
    requires Valid(s)
    ensures var o := VerifyMfaCode(s, email, code, now);
            o.result.Err? ==> Handle(o.result.error, uri) == AuthenticationFailure(uri)
  {
    var inner := CheckMfaCode(s, email, code, now);
    if inner.result.Err? {
      AuthenticationFailuresIndistinguishable(HideLookupFailure(inner.result.error), MfaCodeInvalid(MSG_MFA_INVALID), uri);
    }
  }

  /** A wrong guess leaves the record in place, even an expired one, so the right code still works
      afterwards exactly as it would have before. */
  lemma WrongMfaCodeKeepsTheRecord(s: Store, email: string, guess: string, now: int, later: int)
    requires Valid(s)
    requires var id := UserByEmail(s.users, email); id.Some? && id.value in s.mfa && s.mfa[id.value].code != guess
    ensures var o := VerifyMfaCode(s, email, guess, now);
            o.result == Err(MfaCodeInvalid(MSG_MFA_INVALID)) && o.store == s
    ensures var id := UserByEmail(s.users, email).value;
            var o := VerifyMfaCode(s, email, guess, now);
            VerifyMfaCode(o.store, email, s.mfa[id].code, later)
            == (if Mfa.IsExpired(s.mfa[id], later) then Outcome(DeleteMfa(s, id), Err(MfaCodeExpired(MSG_MFA_EXPIRED)))
                else Outcome(DeleteMfa(s, id), Ok(s.users[id])))
  {
  }

  /** The right code consumes the record: it is deleted, and the call returns the user, or fails
      with MfaCodeExpired when the expiry is strictly before now. Replaying the code afterwards is
      an invalid code. */
  lemma CorrectMfaCodeConsumesTheRecord(s: Store, email: string, now: int, later: int)
    requires Valid(s)
    requires var id := UserByEmail(s.users, email); id.Some? && id.value in s.mfa
    ensures var id := UserByEmail(s.users, email).value;
            var o := VerifyMfaCode(s, email, s.mfa[id].code, now);
            && o.store == s.(mfa := s.mfa - {id})
            && o.result == (if s.mfa[id].expirationDate < now then Err(MfaCodeExpired(MSG_MFA_EXPIRED)) else Ok(s.users[id]))
            && VerifyMfaCode(o.store, email, s.mfa[id].code, later).result == Err(MfaCodeInvalid(MSG_MFA_INVALID))
  {
    var id := UserByEmail(s.users, email).value;
    var o := VerifyMfaCode(s, email, s.mfa[id].code, now);
    assert UserByEmail(o.store.users, email) == Some(id);
  }

  /** Issuing a second code for a user makes the first one useless, however long it had left. */
  lemma ReissuedMfaCodeReplacesTheFirst(s: Store, userId: UserId, t1: MfaType, t2: MfaType,
                                        g1: string, g2: string, now1: int, now2: int, now3: int)
    requires Valid(s) && userId in s.users && IsGeneratedCode(g1) && IsGeneratedCode(g2)
    requires CodeIsFree(s, userId, ToUpper(g1)) && CodeIsFree(s, userId, ToUpper(g2))
    requires ToUpper(g1) != ToUpper(g2)
    ensures var o1 := SendMfaCode(s, userId, Some(t1), g1, now1);
            var o2 := SendMfaCode(o1.store, userId, Some(t2), g2, now2);
            VerifyMfaCode(o2.store, s.users[userId].email, ToUpper(g1), now3).result == Err(MfaCodeInvalid(MSG_MFA_INVALID))
  {
    var o1 := SendMfaCode(s, userId, Some(t1), g1, now1);
    SendMfaCodeReplacesTheRecord(s, userId, t1, g1, now1);
    assert CodeIsFree(o1.store, userId, ToUpper(g2));
    SendMfaCodeReplacesTheRecord(o1.store, userId, t2, g2, now2);
    var o2 := SendMfaCode(o1.store, userId, Some(t2), g2, now2);
    LookupsAreExact(s, userId);
    assert UserByEmail(o2.store.users, s.users[userId].email) == Some(userId);
    assert o2.store.mfa[userId].code != ToUpper(g1);
  }

  // ---------------------------------------------------------------- password reset

  /** resetPassword(email) for an e-mail no user has: UserNotFoundByEmail, nothing changes, and the
      client sees a 500 response rather than the promised blanket acceptance. */
  lemma ResetPasswordForUnknownEmail(s: Store, cfg: Config, email: string, token: string, now: int, uri: string)
    requires Valid(s) && !EmailTaken(s.users, email)
    ensures ResetPassword(s, cfg, email, token, now) == Outcome(s, Err(UserNotFoundByEmail(email)))
    ensures Handle(UserNotFoundByEmail(email), uri).status == 500
  {
  }

  /** The state a successful resetPassword(email) leaves behind, written out. */
  lemma ResetPasswordSucceeds(s: Store, cfg: Config, email: string, token: string, now: int)
    requires EmailTaken(s.users, email)
    requires ResetUrlIsFree(s, UserByEmail(s.users, email).value, BuildVerificationUrl(cfg.contextPath, token, Password))
    ensures var id := UserByEmail(s.users, email).value;
            var url := BuildVerificationUrl(cfg.contextPath, token, Password);
            ResetPassword(s, cfg, email, token, now)
            == Outcome(s.(reset := (s.reset - {id})[id := Reset.ResetPasswordVerification(Some(s.nextResetId), id, url, now + RESET_LINK_LIFETIME)],
                          nextResetId := s.nextResetId + 1,
                          outbox := s.outbox + [Notification(EmailChannel, s.users[id].firstName, Some(email), ResetPasswordUrl(url))]),
                       Ok(()))
  {
    var id := UserByEmail(s.users, email).value;
    var url := BuildVerificationUrl(cfg.contextPath, token, Password);
    assert SaveReset(DeleteReset(s, id), Reset.Create(id, url, now + RESET_LINK_LIFETIME)).Ok?;
  }

  /** resetPassword(email) for a stored e-mail replaces the user's reset record by one for the new
      link, expiring ten minutes from now, sends the link, and leaves every other record alone. */
  lemma ResetPasswordIssuesOneLink(s: Store, cfg: Config, email: string, token: string, now: int)
    requires EmailTaken(s.users, email)
    requires ResetUrlIsFree(s, UserByEmail(s.users, email).value, BuildVerificationUrl(cfg.contextPath, token, Password))
    ensures var id := UserByEmail(s.users, email).value;
            var url := BuildVerificationUrl(cfg.contextPath, token, Password);
            var o := ResetPassword(s, cfg, email, token, now);
            && o.result == Ok(())
            && o.store.reset.Keys == s.reset.Keys + {id}
            && (forall k | k in s.reset && k != id :: o.store.reset[k] == s.reset[k])
            && o.store.reset[id].url == url && o.store.reset[id].user == id
            && o.store.reset[id].expirationDate == now + RESET_LINK_LIFETIME
            && o.store.users == s.users && o.store.mfa == s.mfa && o.store.account == s.account
            && o.store.outbox == s.outbox + [Notification(EmailChannel, s.users[id].firstName, Some(email), ResetPasswordUrl(url))]
  {
    ResetPasswordSucceeds(s, cfg, email, token, now);
  }

  /** Until it expires, the link resetPassword(email) mails designates the user it was sent to. */
  lemma ResetLinkDesignatesTheUser(s: Store, cfg: Config, email: string, token: string, now: int, later: int)
    requires Valid(s) && EmailTaken(s.users, email) && later <= now + RESET_LINK_LIFETIME
    requires ResetUrlIsFree(s, UserByEmail(s.users, email).value, BuildVerificationUrl(cfg.contextPath, token, Password))
    ensures var o := ResetPassword(s, cfg, email, token, now);
            Valid(o.store)
            && VerifyResetPasswordKey(o.store, cfg, token, later) == Outcome(o.store, Ok(s.users[UserByEmail(s.users, email).value]))
  {
    ResetPasswordKeepsValid(s, cfg, email, token, now);
    ResetPasswordSucceeds(s, cfg, email, token, now);
    LookupsAreExact(ResetPassword(s, cfg, email, token, now).store, UserByEmail(s.users, email).value);
  }

  /** A new reset link makes the user's previous one unknown, provided no other record held it. */
  lemma ReplacedResetLinkIsUnknown(s: Store, cfg: Config, email: string, token: string, oldUrl: string, now: int)
    requires EmailTaken(s.users, email)
    requires ResetUrlIsFree(s, UserByEmail(s.users, email).value, BuildVerificationUrl(cfg.contextPath, token, Password))
    requires ResetUrlIsFree(s, UserByEmail(s.users, email).value, oldUrl)
    requires oldUrl != BuildVerificationUrl(cfg.contextPath, token, Password)
    ensures ResetByUrl(ResetPassword(s, cfg, email, token, now).store.reset, oldUrl).None?
  {
    ResetPasswordSucceeds(s, cfg, email, token, now);
    var r := ResetPassword(s, cfg, email, token, now).store.reset;
    assert forall k | k in r :: r[k].url != oldUrl;
  }

  /** Requesting a reset twice leaves only the second link valid: the first is reported as invalid. */
  lemma SecondResetLinkSupersedesTheFirst(s: Store, cfg: Config, email: string, token1: string, token2: string,
                                          now1: int, now2: int, now3: int)
    requires Valid(s) && EmailTaken(s.users, email) && token1 != token2
    requires ResetUrlIsFree(s, UserByEmail(s.users, email).value, BuildVerificationUrl(cfg.contextPath, token1, Password))
    requires ResetUrlIsFree(s, UserByEmail(s.users, email).value, BuildVerificationUrl(cfg.contextPath, token2, Password))
    ensures var o1 := ResetPassword(s, cfg, email, token1, now1);
            var o2 := ResetPassword(o1.store, cfg, email, token2, now2);
            Valid(o2.store)
            && VerifyResetPasswordKey(o2.store, cfg, token1, now3) == Outcome(o2.store, Err(ResetPasswordVerificationInvalid(MSG_RESET_INVALID)))
  {
    var id := UserByEmail(s.users, email).value;
    var url1 := BuildVerificationUrl(cfg.contextPath, token1, Password);
    var url2 := BuildVerificationUrl(cfg.contextPath, token2, Password);
    ResetPasswordKeepsValid(s, cfg, email, token1, now1);
    ResetPasswordIssuesOneLink(s, cfg, email, token1, now1);
    var o1 := ResetPassword(s, cfg, email, token1, now1);
    assert UserByEmail(o1.store.users, email) == Some(id);
    assert ResetUrlIsFree(o1.store, id, url1);
    assert ResetUrlIsFree(o1.store, id, url2);
    ResetPasswordKeepsValid(o1.store, cfg, email, token2, now2);
    VerificationUrlIdentifiesKindAndToken(cfg.contextPath, Password, token1, Password, token2);
    ReplacedResetLinkIsUnknown(o1.store, cfg, email, token2, url1, now2);
  }

  /** verifyResetPasswordKey: an unknown link is invalid and changes nothing; an expired one is
      deleted and reported as expired, and is invalid from then on; a live one returns its user and
      stays, so the check can be repeated. */
  lemma VerifyResetPasswordKeyOutcomes(s: Store, cfg: Config, key: string, now: int, later: int)
    requires Valid(s)
    ensures var url := BuildVerificationUrl(cfg.contextPath, key, Password);
            var o := VerifyResetPasswordKey(s, cfg, key, now);
            match ResetByUrl(s.reset, url)
            case None => o == Outcome(s, Err(ResetPasswordVerificationInvalid(MSG_RESET_INVALID)))
            case Some(id) =>
              if Reset.IsExpired(s.reset[id], now) then
                o == Outcome(s.(reset := s.reset - {id}), Err(ResetPasswordVerificationExpired(MSG_RESET_EXPIRED)))
                && Valid(o.store)
                && VerifyResetPasswordKey(o.store, cfg, key, later).result == Err(ResetPasswordVerificationInvalid(MSG_RESET_INVALID))
              else
                o == Outcome(s, Ok(s.users[id]))
  {
    var url := BuildVerificationUrl(cfg.contextPath, key, Password);
    match ResetByUrl(s.reset, url)
    case None =>
    case Some(id) =>
      var after := s.(reset := s.reset - {id});
      DeleteResetKeepsValid(s, id);
      assert forall k | k in after.reset :: after.reset[k].url != url;
  }

  /** resetPassword(key, new, confirm) with two different passwords fails with PasswordMismatch
      before looking at the key, and changes nothing. */
  lemma PasswordMismatchComesFirst(s: Store, cfg: Config, key: string, newPassword: string, confirmPassword: string, now: int)
    requires Valid(s) && newPassword != confirmPassword
    ensures ResetPasswordWithKey(s, cfg, key, newPassword, confirmPassword, now)
            == Outcome(s, Err(PasswordMismatch(MSG_PASSWORD_MISMATCH)))
  {
  }

  /** resetPassword(key, new, new) with a live link stores the encoded new password, deletes the
      record, sends the confirmation, and leaves everything else alone. */
  lemma ResetPasswordWithLiveKey(s: Store, cfg: Config, key: string, newPassword: string, now: int)
    requires Valid(s)
    requires var id := ResetByUrl(s.reset, BuildVerificationUrl(cfg.contextPath, key, Password));
             id.Some? && !Reset.IsExpired(s.reset[id.value], now)
    ensures var id := ResetByUrl(s.reset, BuildVerificationUrl(cfg.contextPath, key, Password)).value;
            var u := s.users[id];
            ResetPasswordWithKey(s, cfg, key, newPassword, newPassword, now)
            == Outcome(s.(users := s.users[id := u.(password := Some(cfg.encode(newPassword)))],
                          reset := s.reset - {id},
                          outbox := s.outbox + [Notification(EmailChannel, u.firstName, Some(u.email), ResetPasswordConfirmation)]),
                       Ok(()))
  {
    var id := ResetByUrl(s.reset, BuildVerificationUrl(cfg.contextPath, key, Password)).value;
    SaveStoredUser(s, s.users[id].(password := Some(cfg.encode(newPassword))));
  }

  /** A reset link works once: after a successful resetPassword(key, ...) it is invalid. */
  lemma ResetLinkWorksOnce(s: Store, cfg: Config, key: string, newPassword: string, now: int, later: int)
    requires Valid(s)
    requires var id := ResetByUrl(s.reset, BuildVerificationUrl(cfg.contextPath, key, Password));
             id.Some? && !Reset.IsExpired(s.reset[id.value], now)
    ensures var o := ResetPasswordWithKey(s, cfg, key, newPassword, newPassword, now);
            Valid(o.store)
            && ResetPasswordWithKey(o.store, cfg, key, newPassword, newPassword, later).result
               == Err(ResetPasswordVerificationInvalid(MSG_RESET_INVALID))
  {
    var url := BuildVerificationUrl(cfg.contextPath, key, Password);
    ResetPasswordWithKeyKeepsValid(s, cfg, key, newPassword, newPassword, now);
    ResetPasswordWithLiveKey(s, cfg, key, newPassword, now);
    var o := ResetPasswordWithKey(s, cfg, key, newPassword, newPassword, now);
    assert forall k | k in o.store.reset :: o.store.reset[k].url != url;
    UnknownResetLinkIsInvalid(o.store, cfg, key, newPassword, later);
  }

  /** resetPassword(key, new, new) with a link no record holds: ResetPasswordVerificationInvalid. */
  lemma UnknownResetLinkIsInvalid(s: Store, cfg: Config, key: string, newPassword: string, now: int)
    requires Valid(s) && ResetByUrl(s.reset, BuildVerificationUrl(cfg.contextPath, key, Password)).None?
    ensures ResetPasswordWithKey(s, cfg, key, newPassword, newPassword, now)
            == Outcome(s, Err(ResetPasswordVerificationInvalid(MSG_RESET_INVALID)))
  {
  }

  // ---------------------------------------------------------------- account activation

  /** activateAccount: an unknown link is AccountVerificationNotFoundByUrl; a disabled user is
      enabled, told so, and true is returned; an enabled user gives false and nothing changes.
      The activation record is never deleted. */
  lemma ActivateAccountOutcomes(s: Store, cfg: Config, key: string)
    requires Valid(s)
    ensures var o := ActivateAccount(s, cfg, key);
            match AccountByUrl(s.account, BuildVerificationUrl(cfg.contextPath, key, Account))
            case None => o == Outcome(s, Err(AccountVerificationNotFoundByUrl(MSG_ACCOUNT_LINK_INVALID)))
            case Some(id) =>
              var u := s.users[id];
              if u.enabled then o == Outcome(s, Ok(false))
              else o.result == Ok(true)
                   && o.store.users == s.users[id := u.(enabled := true)]
                   && o.store.account == s.account && o.store.mfa == s.mfa && o.store.reset == s.reset
                   && o.store.outbox == s.outbox + [Notification(EmailChannel, u.firstName, Some(u.email), AccountVerified)]
    ensures ActivateAccount(s, cfg, key).store.account == s.account
  {
    match AccountByUrl(s.account, BuildVerificationUrl(cfg.contextPath, key, Account))
    case None =>
    case Some(id) =>
      assert SaveUser(s, s.users[id].(enabled := true)).Ok?;
  }

  /** Activating twice with the same link: the second call finds the record still there and
      answers false without changing anything. */
  lemma ActivateAccountIsIdempotent(s: Store, cfg: Config, key: string)
    requires Valid(s)
    requires ActivateAccount(s, cfg, key).result.Ok?
    ensures var o := ActivateAccount(s, cfg, key);
            Valid(o.store) && ActivateAccount(o.store, cfg, key) == Outcome(o.store, Ok(false))
  {
    ActivateAccountKeepsValid(s, cfg, key);
    ActivateAccountOutcomes(s, cfg, key);
    var o := ActivateAccount(s, cfg, key);
    var id := AccountByUrl(s.account, BuildVerificationUrl(cfg.contextPath, key, Account)).value;
    LookupsAreExact(o.store, id);
    ActivateAccountOutcomes(o.store, cfg, key);
  }

  // ---------------------------------------------------------------- registration

  /** A registration request that passes validation always fits the user table's columns. */
  lemma ValidRegistrationFitsColumns(dto: UserRequests.UserRequestDto, isEmail: string -> bool, encoded: string)
    requires UserRequests.IsValid(dto, isEmail)
    ensures ColumnsFit(NewUser(dto.firstName.value, dto.lastName.value, ToLower(dto.email.value), encoded))
  {
    UserRequests.ValidRequestMeaning(dto, isEmail);
  }

  /** An e-mail stored exactly as given is rejected with EmailAlreadyExists (409) and nothing changes. */
  lemma CreateUserRejectsStoredEmail(s: Store, cfg: Config, firstName: string, lastName: string, email: string,
                                     password: string, token: string, uri: string)
    requires Valid(s) && EmailTaken(s.users, email)
    ensures CreateUser(s, cfg, firstName, lastName, email, password, token) == Outcome(s, Err(EmailAlreadyExists(email)))
    ensures Handle(EmailAlreadyExists(email), uri).status == 409
  {
  }

  /** The duplicate check compares the e-mail as typed, while the stored e-mail is lower-cased: a
      new registration that differs from a stored e-mail only in letter case passes the check and
      is stopped by the unique key instead, as a 409 Data Conflict; and nothing changes. */
  lemma CaseVariantOfStoredEmailReachesTheUniqueKey(s: Store, cfg: Config, firstName: string, lastName: string,
                                                   email: string, password: string, token: string, uri: string)
    requires Valid(s) && !EmailTaken(s.users, email) && EmailTaken(s.users, ToLower(email))
    requires ROLE_USER in s.roles
    requires ColumnsFit(NewUser(firstName, lastName, ToLower(email), cfg.encode(password)))
    ensures var o := CreateUser(s, cfg, firstName, lastName, email, password, token);
            o == Outcome(s, Err(IntegrityError(DuplicateEntry(ToLower(email), UsersEmailKey))))
            && Handle(o.result.error, uri).status == 409
  {
    DuplicateEntryIsConflict(ToLower(email), UsersEmailKey, uri);
    var user := NewUser(firstName, lastName, ToLower(email), cfg.encode(password)).(role := Some(s.roles[ROLE_USER]));
    var k :| k in s.users && s.users[k].email == ToLower(email);
    assert k != SavedUserId(s, user);
  }

  /** The state a successful createUser leaves behind, written out. */
  lemma CreateUserSucceeds(s: Store, cfg: Config, firstName: string, lastName: string,
                           email: string, password: string, token: string)
    requires Valid(s) && !EmailTaken(s.users, email) && !EmailTaken(s.users, ToLower(email))
    requires ROLE_USER in s.roles
    requires ColumnsFit(NewUser(firstName, lastName, ToLower(email), cfg.encode(password)))
    requires AccountUrlIsFree(s, s.nextUserId, BuildVerificationUrl(cfg.contextPath, token, Account))
    ensures var id := s.nextUserId;
            var created := NewUser(firstName, lastName, ToLower(email), cfg.encode(password)).(id := Some(id), role := Some(s.roles[ROLE_USER]));
            var url := BuildVerificationUrl(cfg.contextPath, token, Account);
            CreateUser(s, cfg, firstName, lastName, email, password, token)
            == Outcome(s.(users := s.users[id := created], nextUserId := id + 1,
                          account := s.account[id := Acct.AccountVerification(Some(s.nextAccountId), id, url)],
                          nextAccountId := s.nextAccountId + 1,
                          outbox := s.outbox + [Notification(EmailChannel, firstName, Some(ToLower(email)), AccountVerificationUrl(url))]),
                       Ok(created))
  {
    var user := NewUser(firstName, lastName, ToLower(email), cfg.encode(password)).(role := Some(s.roles[ROLE_USER]));
    assert SaveUser(s, user).Ok?;
    var s1 := SaveUser(s, user).value;
    assert s.nextUserId !in s.account;
    assert SaveAccount(s1, Acct.Create(s.nextUserId, BuildVerificationUrl(cfg.contextPath, token, Account))).Ok?;
  }

  /** A successful registration stores a disabled, unlocked user without MFA, with the default
      picture, the lower-cased e-mail, the encoded password and ROLE_USER under a new id, stores an
      activation record for the new link and mails it; no other record changes. */
  lemma CreateUserRegistersADisabledAccount(s: Store, cfg: Config, firstName: string, lastName: string,
                                            email: string, password: string, token: string)
    requires Valid(s) && !EmailTaken(s.users, email) && !EmailTaken(s.users, ToLower(email))
    requires ROLE_USER in s.roles
    requires ColumnsFit(NewUser(firstName, lastName, ToLower(email), cfg.encode(password)))
    requires AccountUrlIsFree(s, s.nextUserId, BuildVerificationUrl(cfg.contextPath, token, Account))
    ensures var o := CreateUser(s, cfg, firstName, lastName, email, password, token);
            var id := s.nextUserId;
            && o.result.Ok?
            && id !in s.users
            && o.result.value == o.store.users[id]
            && o.result.value.id == Some(id)
            && o.result.value.email == ToLower(email)
            && o.result.value.password == Some(cfg.encode(password))
            && o.result.value.role == Some(s.roles[ROLE_USER])
            && !o.result.value.enabled && o.result.value.nonLocked && !o.result.value.usingMfa
            && o.result.value.imageUrl == Some(DEFAULT_IMAGE_URL)
            && o.store.users.Keys == s.users.Keys + {id}
            && (forall k | k in s.users :: o.store.users[k] == s.users[k])
            && o.store.account[id].url == BuildVerificationUrl(cfg.contextPath, token, Account)
            && o.store.mfa == s.mfa && o.store.reset == s.reset
  {
    CreateUserSucceeds(s, cfg, firstName, lastName, email, password, token);
  }

  /** Following the link a registration mails enables the new account. */
  lemma RegistrationLinkActivatesTheAccount(s: Store, cfg: Config, firstName: string, lastName: string,
                                            email: string, password: string, token: string)
    requires Valid(s) && !EmailTaken(s.users, email) && !EmailTaken(s.users, ToLower(email))
    requires ROLE_USER in s.roles
    requires ColumnsFit(NewUser(firstName, lastName, ToLower(email), cfg.encode(password)))
    requires AccountUrlIsFree(s, s.nextUserId, BuildVerificationUrl(cfg.contextPath, token, Account))
    ensures var o := CreateUser(s, cfg, firstName, lastName, email, password, token);
            Valid(o.store)
            && var a := ActivateAccount(o.store, cfg, token);
                  a.result == Ok(true) && s.nextUserId in a.store.users && a.store.users[s.nextUserId].enabled
  {
    CreateUserKeepsValid(s, cfg, firstName, lastName, email, password, token);
    CreateUserSucceeds(s, cfg, firstName, lastName, email, password, token);
    var o := CreateUser(s, cfg, firstName, lastName, email, password, token);
    LookupsAreExact(o.store, s.nextUserId);
    ActivateAccountOutcomes(o.store, cfg, token);
  }

  // ---------------------------------------------------------------- profile update

  /** updateUser with a request whose e-mail equals the stored one ignoring case (or is absent or
      blank) touches only the present profile fields: the account stays enabled or disabled as it
      was and no activation link is issued. */
  lemma UpdateWithoutEmailChange(s: Store, cfg: Config, userId: UserId, dto: UserUpdateRequests.UserUpdateRequestDto, token: string)
    requires Valid(s) && userId in s.users && !ChangesEmail(dto, s.users[userId].email)
    requires ColumnsFit(WithProfile(s.users[userId], dto))
    ensures var u := s.users[userId];
            var o := UpdateUser(s, cfg, userId, dto, token);
            && o.result == Ok(WithProfile(u, dto))
            && o.store == s.(users := s.users[userId := WithProfile(u, dto)])
            && o.result.value.email == u.email && o.result.value.enabled == u.enabled
            && (dto.firstName.None? ==> o.result.value.firstName == u.firstName)
            && (dto.lastName.None? ==> o.result.value.lastName == u.lastName)
            && (dto.phone.None? ==> o.result.value.phone == u.phone)
            && (dto.title.None? ==> o.result.value.title == u.title)
            && (dto.bio.None? ==> o.result.value.bio == u.bio)
  {
    assert SaveUser(s, WithProfile(s.users[userId], dto)).Ok?;
  }

  /** updateUser with a new e-mail stores it lower-cased, disables the account, replaces the
      activation record by one for the new link (the old link stops working) and mails the link. */
  lemma UpdateWithEmailChange(s: Store, cfg: Config, userId: UserId, dto: UserUpdateRequests.UserUpdateRequestDto, token: string)
    requires Valid(s) && userId in s.users && ChangesEmail(dto, s.users[userId].email)
    requires !EmailTaken(s.users, ToLower(dto.email.value))
    requires ColumnsFit(WithProfile(s.users[userId], dto).(email := ToLower(dto.email.value)))
    requires AccountUrlIsFree(s, userId, BuildVerificationUrl(cfg.contextPath, token, Account))
    ensures var o := UpdateUser(s, cfg, userId, dto, token);
            var url := BuildVerificationUrl(cfg.contextPath, token, Account);
            && o.result.Ok?
            && o.result.value == WithProfile(s.users[userId], dto).(email := ToLower(dto.email.value), enabled := false)
            && o.store.users[userId] == o.result.value
            && o.store.account[userId].url == url
            && (userId in s.account && s.account[userId].url != url ==>
                  AccountByUrl(o.store.account, s.account[userId].url).None?)
            && o.store.outbox == s.outbox + [Notification(EmailChannel, o.result.value.firstName, Some(ToLower(dto.email.value)),
                                                         AccountVerificationUrl(url))]
  {
    var u2 := WithProfile(s.users[userId], dto).(email := ToLower(dto.email.value), enabled := false);
    var url := BuildVerificationUrl(cfg.contextPath, token, Account);
    var s1 := DeleteAccount(s, userId);
    assert SaveAccount(s1, Acct.Create(userId, url)).Ok?;
    var s3 := Send(SaveAccount(s1, Acct.Create(userId, url)).value,
                   Notification(EmailChannel, u2.firstName, Some(u2.email), AccountVerificationUrl(url)));
    assert SaveUser(s3, u2).Ok?;
    var o := UpdateUser(s, cfg, userId, dto, token);
    if userId in s.account && s.account[userId].url != url {
      var oldUrl := s.account[userId].url;
      assert forall k | k in o.store.account :: o.store.account[k].url != oldUrl;
    }
  }

  /** The same e-mail change in the order the persistence layer runs it: for a user who already
      has an activation record, as every registered user does, the new record is inserted while
      the old one still holds the unique `user_id`, so the request ends in 409 and nothing changes. */
  lemma EmailChangeAsFlushedIsRefused(s: Store, cfg: Config, userId: UserId, dto: UserUpdateRequests.UserUpdateRequestDto,
                                      token: string, uri: string)
    requires Valid(s) && userId in s.users && userId in s.account && ChangesEmail(dto, s.users[userId].email)
    requires !EmailTaken(s.users, ToLower(dto.email.value))
    ensures var u := WithProfile(s.users[userId], dto);
            && u.id == Some(userId)
            && ChangeEmailAsFlushed(s, cfg, u, dto.email.value, token)
               == Outcome(s, Err(IntegrityError(DuplicateEntry(NatToString(userId), UserIdKey))))
    ensures Handle(IntegrityError(DuplicateEntry(NatToString(userId), UserIdKey)), uri).status == 409
  {
    DuplicateEntryIsConflict(NatToString(userId), UserIdKey, uri);
  }

  // ---------------------------------------------------------------- deleting users

  /** deleteUserById as written never deletes anyone: it throws UserNotFoundById (404) exactly for
      the users that exist, and succeeds, changing nothing, for ids that do not. */
  lemma DeleteUserByIdAsWrittenIsInverted(s: Store, userId: int, uri: string)
    ensures DeleteUserByIdAsWritten(s, userId).store == s
    ensures IsUserId(s, userId) <==> DeleteUserByIdAsWritten(s, userId).result == Err(UserNotFoundById(userId))
    ensures IsUserId(s, userId) ==> Handle(UserNotFoundById(userId), uri).status == 404
    ensures !IsUserId(s, userId) ==> DeleteUserByIdAsWritten(s, userId).result == Ok(())
  {
  }

  /** deleteUserById with the intended check: a missing id is UserNotFoundById; an existing user
      with no verification record is removed and nothing else changes; and a user some record
      still references is refused by the foreign key, with nothing changed. */
  lemma DeleteUserByIdOutcomes(s: Store, userId: int)
    requires Valid(s)
    ensures !IsUserId(s, userId) ==> DeleteUserById(s, userId) == Outcome(s, Err(UserNotFoundById(userId)))
    ensures IsUserId(s, userId) && userId as nat !in s.mfa && userId as nat !in s.reset && userId as nat !in s.account ==>
              DeleteUserById(s, userId) == Outcome(s.(users := s.users - {userId as nat}), Ok(()))
    ensures DeleteUserById(s, userId).result.Err? ==> DeleteUserById(s, userId).store == s
    ensures DeleteUserById(s, userId).result.Ok? <==>
              IsUserId(s, userId) && userId as nat !in s.mfa && userId as nat !in s.reset && userId as nat !in s.account
  {
  }

  // ---------------------------------------------------------------- rollback of expired records

  /** As Spring commits it, the delete of an expired MFA record is rolled back with the exception
      that follows it, so the expired record stays and every later correct entry of the code is
      again reported as expired; the modelled operation removes it. */
  lemma ExpiredMfaDeletionRolledBack(s: Store, email: string, now: int)
    requires Valid(s)
    requires var id := UserByEmail(s.users, email); id.Some? && id.value in s.mfa && s.mfa[id.value].expirationDate < now
    ensures var id := UserByEmail(s.users, email).value;
            var o := VerifyMfaCode(s, email, s.mfa[id].code, now);
            && o.result == Err(MfaCodeExpired(MSG_MFA_EXPIRED))
            && Committed(s, o) == s
            && VerifyMfaCode(Committed(s, o), email, s.mfa[id].code, now) == o
            && id !in o.store.mfa
  {
    CorrectMfaCodeConsumesTheRecord(s, email, now, now);
  }

  /** The same for a reset link: as committed, the expired record survives both key-taking operations. */
  lemma ExpiredResetLinkDeletionRolledBack(s: Store, cfg: Config, key: string, newPassword: string, now: int)
    requires Valid(s)
    requires var id := ResetByUrl(s.reset, BuildVerificationUrl(cfg.contextPath, key, Password));
             id.Some? && Reset.IsExpired(s.reset[id.value], now)
    ensures var o := VerifyResetPasswordKey(s, cfg, key, now);
            o.result == Err(ResetPasswordVerificationExpired(MSG_RESET_EXPIRED)) && Committed(s, o) == s
            && o.store.reset == s.reset - {ResetByUrl(s.reset, BuildVerificationUrl(cfg.contextPath, key, Password)).value}
    ensures var o := ResetPasswordWithKey(s, cfg, key, newPassword, newPassword, now);
            o.result == Err(ResetPasswordVerificationExpired(MSG_RESET_EXPIRED)) && Committed(s, o) == s
            && o.store.reset == s.reset - {ResetByUrl(s.reset, BuildVerificationUrl(cfg.contextPath, key, Password)).value}
  {
  }

  /** Saving a stored user with its own e-mail and fitting columns overwrites the user's row. */
  lemma SaveStoredUser(s: Store, u: User)
    requires Valid(s) && u.id.Some? && u.id.value in s.users && u.email == s.users[u.id.value].email && ColumnsFit(u)
    ensures SaveUser(s, u) == Ok(s.(users := s.users[u.id.value := u]))
  {
  }

  /** Apart from the expired-record path, what Spring commits of verifyMfaCode is the modelled state. */
  lemma CommittedVerifyMfaCode(s: Store, email: string, code: string, now: int)
    requires Valid(s)
    ensures var o := VerifyMfaCode(s, email, code, now);
            !(o.result.Err? && o.result.error.MfaCodeExpired?) ==> Committed(s, o) == o.store
  {
  }

  /** The same for verifyResetPasswordKey. */
  lemma CommittedVerifyResetPasswordKey(s: Store, cfg: Config, key: string, now: int)
    requires Valid(s)
    ensures var o := VerifyResetPasswordKey(s, cfg, key, now);
            !(o.result.Err? && o.result.error.ResetPasswordVerificationExpired?) ==> Committed(s, o) == o.store
  {
  }

  /** The same for resetPassword(key, new, confirm). */
  lemma CommittedResetPasswordWithKey(s: Store, cfg: Config, key: string, newPassword: string, confirmPassword: string, now: int)
    requires Valid(s)
    ensures var o := ResetPasswordWithKey(s, cfg, key, newPassword, confirmPassword, now);
            !(o.result.Err? && o.result.error.ResetPasswordVerificationExpired?) ==> Committed(s, o) == o.store
  {
    if newPassword == confirmPassword {
      var c := CheckResetKey(s, cfg, key, now);
      if c.result.Ok? {
        SaveStoredUser(s, s.users[c.result.value].(password := Some(cfg.encode(newPassword))));
      }
    }
  }

  // ---------------------------------------------------------------- role lookup

  /** With no ROLE_USER row, the lookup as written throws a NullPointerException from its own
      exception supplier (a 500 response), where RoleNotFoundByName (404) was meant. */
  lemma MissingRoleAsWrittenIsNullPointer(s: Store, cfg: Config, firstName: string, lastName: string, email: string,
                                          password: string, uri: string)
    requires ROLE_USER !in s.roles
    ensures var entity := NewUser(firstName, lastName, ToLower(email), cfg.encode(password));
            ResolveUserRoleAsWritten(s.roles, entity) == Err(NullPointer)
            && Handle(NullPointer, uri).status == 500
    ensures ResolveUserRole(s.roles) == Err(RoleNotFoundByName(ROLE_USER))
            && Handle(RoleNotFoundByName(ROLE_USER), uri).status == 404
  {
  }

  // ---------------------------------------------------------------- stored records

  /** Records compare equal by id, and stored ids are unique, so two stored records of a table are
      equal exactly when they are the same record. */
  lemma StoredRecordsEqualOnlyThemselves(s: Store, a: UserId, b: UserId)
    requires Valid(s)
    ensures a in s.mfa && b in s.mfa ==> (Mfa.Equals(s.mfa[a], Some(s.mfa[b])) <==> a == b)
    ensures a in s.reset && b in s.reset ==> (Reset.Equals(s.reset[a], Some(s.reset[b])) <==> a == b)
    ensures a in s.account && b in s.account ==> (Acct.Equals(s.account[a], Some(s.account[b])) <==> a == b)
  {
  }
}
