# SecureCapita user service, authorization filter and error mapping, modelled in Dafny

SecureCapita is a Spring Boot back end. It manages user accounts and signs them in with a JSON Web
Token (JWT). Signing in can also require a second factor: a one-time code sent by e-mail or SMS.
This project models the core of that back end and proves properties of the model.

**Domain and validation**
- The user entity, with its column lengths and its unique e-mail key.
- The Spring Security principal built from a user (`CustomUserDetails`).
- The three kinds of verification record: the MFA code, the password-reset link and the
  account-activation link.
- `VerificationType`.
- The Bean Validation rules of the registration, profile-update and password-reset requests.

**Services**
- `UserService`, which covers:
  - registration;
  - profile update, including the e-mail change that forces re-activation;
  - deletion;
  - sending and checking MFA codes;
  - the two steps of a password reset;
  - account activation.
- `TokenProvider`: it creates access and refresh tokens, verifies them and reads back their subject
  and authorities.
- `CustomAuthorizationFilter`: it decides which requests it skips, and it turns a bearer token into
  an authenticated security context.
- `GlobalExceptionHandler`: it maps every application and framework exception to an RFC 7807
  problem detail.

**How the model is built**
- *Pure code* becomes datatypes and functions: the records, the DTO rules, token handling, the
  exception mapping and the filter's decisions.
- *Stateful code* becomes classes whose fields the methods update:
  - the `UserService` over its repositories;
  - the security context and the servlet request seen by the filter.
- *Proving the methods.* Each method is proved equal to a step function on a `Store` value. That
  value holds:
  - the four tables;
  - the id counters;
  - the outbox of notifications sent.
  Each method is also proved to keep the table invariant `Valid` (unique e-mails, codes and urls,
  unique ids, and every record pointing at an existing user). Lemmas then state what each operation
  promises: round trips, error cases, single use of links and codes, idempotence, and which tables
  stay unchanged.
- *Transactions.* Spring rolls back every `@Transactional` method that ends in an exception: all
  tables and counters return to their earlier state, and notifications already sent stay sent.
  `UserServiceModel.Committed` states that rule. The step functions follow it on every path but
  one: when a verification record has expired, `CheckMfaCode`, `VerifyMfaCode`, `CheckResetKey`,
  `VerifyResetPasswordKey` and `ResetPasswordWithKey` keep its delete, as the code evidently
  intends. So do the matching `UserService` methods and the lemmas built on them. Only the
  `Committed*` lemmas apply the rollback to those paths (see Findings).
- *Corrected behaviour.* Where Findings lists a bug, the service model uses the corrected
  behaviour, and the as-written behaviour is a separate member. This applies to the role lookup
  of `createUser`, to the check in `deleteUserById` and to the expired paths above.
- *Exception classes.* The repository has two exception packages. `UserService` calls the
  `UserNotFoundByIdException` constructor that takes a `Long`. Only the `io.github.jvlealc`
  package declares that constructor, so the model takes `UserNotFoundByIdException` and
  `RoleNotFoundByNameException` from that package. There both classes extend
  `ResourceNotFoundException` and reach the client as 404. In the `io.github.joaovitorleal`
  package, `RoleNotFoundByNameException` extends `ApiException` instead, which the handler turns
  into a generic 500 (GlobalExceptionHandler.java:142-151).
- *The database.* It refuses a save that breaks a unique key, a foreign key or a column length. It
  reports the refusal as a `DataIntegrityViolationException` whose root message uses MySQL's
  wording. `SqlErrors` models that.

**Where the design documentation and the code differ** (the model follows the code, except for the corrections listed under Findings)
- `resetPassword(email)` with an unknown address throws `UserNotFoundByEmailException`. The handler
  answers that with a 500. The documentation promises the same 202 for every address.
- The account-activation record is never deleted. A second activation with the same link answers
  `false`.
- A generated code or url that collides with a stored record is not regenerated. The unique key
  refuses it and the client gets a 409.

## Model

| member | source | states |
|---|---|---|
| JavaLang.ToLower | src/main/java/io/github/joaovitorleal/securecapita/service/UserService.java:66 | String.toLowerCase keeps the length and lower-cases each ASCII letter, leaving every other character as it is |
| JavaLang.ToUpper | src/main/java/io/github/joaovitorleal/securecapita/service/UserService.java:144 | String.toUpperCase keeps the length and upper-cases each ASCII letter, leaving every other character as it is |
| JavaLang.ToLowerIdempotent | src/main/java/io/github/joaovitorleal/securecapita/service/UserService.java:113-115 | lower-casing twice gives the same as lower-casing once, and the result has no upper-case letter |
| JavaLang.EqualsIgnoreCaseIffSameLower | src/main/java/io/github/joaovitorleal/securecapita/service/UserService.java:115 | equalsIgnoreCase holds exactly when the two lower-cased strings are equal |
| JavaLang.Trim | src/main/java/io/github/jvlealc/securecapita/security/filter/CustomAuthorizationFilter.java:104 | trim returns the slice of the string that starts at the first character above U+0020 and after which only characters up to U+0020 remain; it is empty exactly when every character is at most U+0020 |
| JavaLang.TrimOfTrimmed | src/main/java/io/github/jvlealc/securecapita/security/filter/CustomAuthorizationFilter.java:104 | trimming a string that has no such character at either end changes nothing |
| JavaLang.LeadingSpaces | src/main/java/io/github/jvlealc/securecapita/security/filter/CustomAuthorizationFilter.java:104 | the characters trim drops at the front: all at most U+0020, and the next one is above it |
| JavaLang.TrailingSpaces | src/main/java/io/github/jvlealc/securecapita/security/filter/CustomAuthorizationFilter.java:104 | the characters trim drops at the back: all at most U+0020, and the one before them is above it |
| JavaLang.Utf16Length | src/main/java/io/github/jvlealc/securecapita/dto/UserUpdateRequestDto.java:20-26 | the number of UTF-16 code units @Size counts is between the number of characters and twice that |
| JavaLang.NatToString | src/main/java/io/github/jvlealc/securecapita/domain/MfaVerification.java:86 | Long.toString of a non-negative id: one or more decimal digits, one digit exactly below 10 |
| JavaLang.NatToStringInjective | src/main/java/io/github/jvlealc/securecapita/domain/MfaVerification.java:86 | different ids print differently |
| JavaLang.LongHashCode | src/main/java/io/github/jvlealc/securecapita/domain/MfaVerification.java:78-81 | Long.hashCode is a 32-bit int |
| JavaLang.LowerChar | src/main/java/io/github/joaovitorleal/securecapita/service/UserService.java:66 | lower-casing one character changes exactly the ASCII upper-case letters |
| JavaLang.UpperChar | src/main/java/io/github/joaovitorleal/securecapita/service/UserService.java:144 | upper-casing one character changes exactly the ASCII lower-case letters |
| JavaLang.DigitChar | src/main/java/io/github/jvlealc/securecapita/domain/MfaVerification.java:86 | the decimal digit for a number below 10 |
| SqlErrors.DuplicateEntryMessageSaysSo | src/main/java/io/github/joaovitorleal/securecapita/exception/handler/GlobalExceptionHandler.java:255-256 | the database message for any unique-key violation contains "duplicate entry" once lower-cased, which is what the handler looks for |
| VerificationTypes.GetType | src/main/java/io/github/jvlealc/securecapita/domain/enums/VerificationType.java:4-18 | getType is the lower-cased constant name: "account" for ACCOUNT and "password" for PASSWORD, all lower-case letters |
| VerificationTypes.GetTypeDistinguishesKinds | src/main/java/io/github/jvlealc/securecapita/domain/enums/VerificationType.java:4-5 | the two types have different path segments (they differ already in the first letter), so getType is injective |
| UserServiceModel.VerificationUrlIdentifiesKindAndToken | src/main/java/io/github/joaovitorleal/securecapita/service/UserService.java:266-270 | two verification URLs built from the same context path are equal exactly when their types and their tokens are equal, so an activation link never equals a reset link |
| MfaVerifications.Create | src/main/java/io/github/jvlealc/securecapita/domain/MfaVerification.java:33-37 | the three-argument constructor stores user, code and expiry unchanged and leaves the id unset |
| MfaVerifications.HashCode | src/main/java/io/github/jvlealc/securecapita/domain/MfaVerification.java:78-81 | hashCode depends on the id only: a 32-bit int, 0 for an unsaved record |
| MfaVerifications.IsExpired | src/main/java/io/github/joaovitorleal/securecapita/service/UserService.java:168 | the expiry test isBefore(now): strictly before, so a code is still live at its expiry instant; CorrectMfaCodeConsumesTheRecord states the consequence |
| MfaVerifications.Equals | src/main/java/io/github/jvlealc/securecapita/domain/MfaVerification.java:71-76 | equals over the ids; its properties are EqualsById |
| MfaVerifications.EqualsById | src/main/java/io/github/jvlealc/securecapita/domain/MfaVerification.java:71-81 | equals is reflexive, symmetric and transitive, never equal to null, holds exactly when the ids are equal, and equal records hash alike |
| MfaVerifications.UnsavedRecordsAreEqual | src/main/java/io/github/jvlealc/securecapita/domain/MfaVerification.java:71-81 | any two unsaved records are equal (both ids are null) and hash to 0 |
| MfaVerifications.ToString | src/main/java/io/github/jvlealc/securecapita/domain/MfaVerification.java:83-91 | toString starts with "MfaVerification{id=" |
| MfaVerifications.ToStringMasksCode | src/main/java/io/github/jvlealc/securecapita/domain/MfaVerification.java:88 | toString does not depend on the code: it prints "***" in its place |
| ResetPasswordVerifications.Create | src/main/java/io/github/jvlealc/securecapita/domain/ResetPasswordVerification.java:31-35 | the constructor stores user, url and expiry unchanged and leaves the id unset |
| ResetPasswordVerifications.HashCode | src/main/java/io/github/jvlealc/securecapita/domain/ResetPasswordVerification.java:76-79 | hashCode depends on the id only: a 32-bit int, 0 for an unsaved record |
| ResetPasswordVerifications.IsExpired | src/main/java/io/github/joaovitorleal/securecapita/service/UserService.java:210 | the same strict isBefore(now) test for reset links; VerifyResetPasswordKeyOutcomes states its consequences |
| ResetPasswordVerifications.Equals | src/main/java/io/github/jvlealc/securecapita/domain/ResetPasswordVerification.java:69-74 | equals over the ids; its properties are EqualsById |
| ResetPasswordVerifications.EqualsById | src/main/java/io/github/jvlealc/securecapita/domain/ResetPasswordVerification.java:69-79 | equals is an equivalence on ids, never equal to null, and equal records hash alike |
| ResetPasswordVerifications.ToString | src/main/java/io/github/jvlealc/securecapita/domain/ResetPasswordVerification.java:81-89 | toString starts with "ResetPasswordVerification{id=" |
| ResetPasswordVerifications.ToStringMasksUrl | src/main/java/io/github/jvlealc/securecapita/domain/ResetPasswordVerification.java:86 | toString does not depend on the url: it prints "[PROTECTED]" in its place |
| AccountVerifications.Create | src/main/java/io/github/jvlealc/securecapita/domain/AccountVerification.java:29-32 | the constructor stores user and url unchanged and leaves the id unset; the record has no expiry |
| AccountVerifications.HashCode | src/main/java/io/github/jvlealc/securecapita/domain/AccountVerification.java:65-68 | hashCode depends on the id only: a 32-bit int, 0 for an unsaved record |
| AccountVerifications.EqualsById | src/main/java/io/github/jvlealc/securecapita/domain/AccountVerification.java:58-68 | equals is an equivalence on ids, never equal to null, and equal records hash alike |
| AccountVerifications.ToString | src/main/java/io/github/jvlealc/securecapita/domain/AccountVerification.java:70-77 | toString prints the url in clear |
| UserServiceProperties.StoredRecordsEqualOnlyThemselves | src/main/java/io/github/jvlealc/securecapita/domain/MfaVerification.java:21-76 | with unique ids per table, two stored records of a table are equal exactly when they are the same record |
| Users.NewUser | src/main/java/io/github/joaovitorleal/securecapita/domain/User.java:61-74 | a new entity has no id and no role, is disabled, unlocked and without MFA, has the default picture, and holds the given names, e-mail and password |
| Users.OverlongColumn | src/main/java/io/github/joaovitorleal/securecapita/domain/User.java:37-59 | none exactly when every bounded column fits: first_name 40, last_name 40, email 100, phone 30, title 50, bio 500 |
| CustomUserDetails.SplitOnComma | src/main/java/io/github/joaovitorleal/securecapita/security/model/CustomUserDetails.java:20-23 | splitting on commas gives at least one part and no part contains a comma |
| CustomUserDetails.SplitCommaFreePrefix | src/main/java/io/github/joaovitorleal/securecapita/security/model/CustomUserDetails.java:20-23 | a comma-free prefix joins the first part of the split |
| CustomUserDetails.SplitJoinRoundTrip | src/main/java/io/github/joaovitorleal/securecapita/security/model/CustomUserDetails.java:20-23 | splitting parts joined with commas gives the parts back when none contains a comma |
| CustomUserDetails.TrimAndDropEmpty | src/main/java/io/github/joaovitorleal/securecapita/security/model/CustomUserDetails.java:20-23 | trimming each part and dropping empty ones leaves only non-empty, trimmed, comma-free tokens, never more than there were parts |
| CustomUserDetails.TrimKeepsCommaFree | src/main/java/io/github/joaovitorleal/securecapita/security/model/CustomUserDetails.java:20-23 | trimming a comma-free part leaves it comma-free |
| CustomUserDetails.TrimAndDropEmptyOfTokens | src/main/java/io/github/joaovitorleal/securecapita/security/model/CustomUserDetails.java:20-23 | a list that is already tokens is left unchanged |
| CustomUserDetails.Tokenize | src/main/java/io/github/joaovitorleal/securecapita/security/model/CustomUserDetails.java:20-23 | commaSeparatedStringToAuthorityList yields only trimmed, non-empty, comma-free names |
| CustomUserDetails.TokenizeJoinRoundTrip | src/main/java/io/github/joaovitorleal/securecapita/security/model/CustomUserDetails.java:20-23 | tokenizing names joined with commas gives the names back |
| CustomUserDetails.TokenizeIsNormalForm | src/main/java/io/github/joaovitorleal/securecapita/security/model/CustomUserDetails.java:20-23 | tokenizing is idempotent through joining: a tokenized list re-joined and tokenized is unchanged |
| CustomUserDetails.AuthorityList | src/main/java/io/github/joaovitorleal/securecapita/security/model/CustomUserDetails.java:20-23 | one authority per name, in order |
| CustomUserDetails.AuthorityNames | src/main/java/io/github/joaovitorleal/securecapita/security/model/CustomUserDetails.java:20-23 | the names of the authorities, in order |
| CustomUserDetails.AuthorityNamesOfList | src/main/java/io/github/joaovitorleal/securecapita/security/model/CustomUserDetails.java:20-23 | names to authorities and back is the identity |
| CustomUserDetails.PrincipalMirrorsUser | src/main/java/io/github/joaovitorleal/securecapita/security/model/CustomUserDetails.java:20-48 | username is the e-mail, password the stored password, enabled and nonLocked mirror the user, account and credentials never expire, and the authorities are the permission names |
| BeanValidation.NotBlank | src/main/java/io/github/joaovitorleal/securecapita/dto/UserRequestDto.java:9 | @NotBlank: present and not empty once trimmed; NotBlankMeaning states what that means character by character |
| BeanValidation.Size | src/main/java/io/github/joaovitorleal/securecapita/dto/UserRequestDto.java:10 | @Size(min, max): absent, or a UTF-16 length within the bounds; SizeBoundsCodePoints relates it to characters |
| BeanValidation.MatchesPasswordPattern | src/main/java/io/github/joaovitorleal/securecapita/dto/ResetPasswordRequestDto.java:10-11 | the password expression: 8 to 20 code points without a line terminator, with an ASCII digit, lower-case letter, upper-case letter and special character; the lemmas below state its edges |
| BeanValidation.IsValidPassword | src/main/java/io/github/joaovitorleal/securecapita/dto/ResetPasswordRequestDto.java:8-13 | the three password constraints together; PasswordPolicyIsThePattern shows the pattern alone decides |
| BeanValidation.NotBlankMeaning | src/main/java/io/github/joaovitorleal/securecapita/dto/UserRequestDto.java:9 | @NotBlank holds exactly when some character is above U+0020 |
| BeanValidation.SizeBoundsCodePoints | src/main/java/io/github/joaovitorleal/securecapita/dto/UserRequestDto.java:10 | a value @Size accepts has at most max characters |
| BeanValidation.PasswordPolicyIsThePattern | src/main/java/io/github/joaovitorleal/securecapita/dto/ResetPasswordRequestDto.java:8-13 | @NotBlank, @Size(8, 255) and @Pattern together are exactly the pattern, whose length bound 8 to 20 is the tighter one |
| BeanValidation.SpacesAreAccepted | src/main/java/io/github/joaovitorleal/securecapita/dto/ResetPasswordRequestDto.java:10-11 | a password containing a space is accepted, since the pattern's dot matches spaces |
| BeanValidation.HyphenIsNotSpecial | src/main/java/io/github/joaovitorleal/securecapita/dto/ResetPasswordRequestDto.java:11 | the ASCII hyphen is not a special character of the pattern |
| BeanValidation.EnDashIsSpecial | src/main/java/io/github/joaovitorleal/securecapita/dto/ResetPasswordRequestDto.java:11 | the en dash U+2013 is one |
| ResetPasswordRequests.IsValid | src/main/java/io/github/joaovitorleal/securecapita/dto/ResetPasswordRequestDto.java:8-17 | the request passes validation; ValidResetRequestMeaning and ValidationDoesNotCompareFields state what that guarantees and what not |
| ResetPasswordRequests.ValidResetRequestMeaning | src/main/java/io/github/joaovitorleal/securecapita/dto/ResetPasswordRequestDto.java:8-17 | a valid request has a new password matching the policy and a confirmation |
| ResetPasswordRequests.ValidationDoesNotCompareFields | src/main/java/io/github/joaovitorleal/securecapita/dto/ResetPasswordRequestDto.java:16-17 | a request whose confirmation differs from the new password passes validation |
| UserRequests.IsValid | src/main/java/io/github/joaovitorleal/securecapita/dto/UserRequestDto.java:9-28 | the registration passes validation; ValidRequestMeaning states what that guarantees |
| UserRequests.ValidRequestMeaning | src/main/java/io/github/joaovitorleal/securecapita/dto/UserRequestDto.java:9-28 | a valid registration has all four fields, names within 40 and the e-mail within 100 characters, non-blank names, an e-mail the format check accepts and a password matching the policy |
| UserServiceProperties.ValidRegistrationFitsColumns | src/main/java/io/github/joaovitorleal/securecapita/dto/UserRequestDto.java:9-28 | a registration that passes validation always fits the user table's columns |
| UserUpdateRequests.PhoneRule | src/main/java/io/github/jvlealc/securecapita/dto/UserUpdateRequestDto.java:19-21 | a null phone passes; a present one must be digits only and 7 to 30 characters long |
| JavaLang.BmpUtf16Length | src/main/java/io/github/jvlealc/securecapita/dto/UserUpdateRequestDto.java:20 | for text of Basic Multilingual Plane characters, ASCII included, the UTF-16 length @Size counts is the number of characters |
| UserUpdateRequests.IsValid | src/main/java/io/github/jvlealc/securecapita/dto/UserUpdateRequestDto.java:6-27 | the update passes validation; ValidUpdateMeaning states what that guarantees |
| UserUpdateRequests.ValidUpdateMeaning | src/main/java/io/github/jvlealc/securecapita/dto/UserUpdateRequestDto.java:6-27 | a valid update has names within 40, an e-mail within 100, and phone, title and bio, when present, within 30, 50 and 500 characters |
| Errors.Message | src/main/java/io/github/jvlealc/securecapita/exception/UserNotFoundByIdException.java:6 | getMessage of each application exception the handler shows, with the texts the exception constructors build |
| ExceptionHandler.CreateProblemDetail | src/main/java/io/github/joaovitorleal/securecapita/exception/handler/GlobalExceptionHandler.java:263-270 | status, detail, title and instance are the given ones and the type URI starts with "urn:error:" |
| ExceptionHandler.TypeUriIdentifiesStatus | src/main/java/io/github/joaovitorleal/securecapita/exception/handler/GlobalExceptionHandler.java:266 | two problem details have the same type URI exactly when they have the same status |
| ExceptionHandler.Handle | src/main/java/io/github/joaovitorleal/securecapita/exception/handler/GlobalExceptionHandler.java:142-260 | every handled exception gets instance = the request URI and type = "urn:error:" followed by its status |
| ExceptionHandler.AuthenticationFailuresIndistinguishable | src/main/java/io/github/joaovitorleal/securecapita/exception/handler/GlobalExceptionHandler.java:198-250 | MfaCodeInvalid, MfaCodeExpired, MfaVerificationNotFound and JwtAuthenticationInvalid give one and the same 401 "Authentication failed." response, whatever their messages |
| ExceptionHandler.AuthenticationExceptionsAreUnauthorized | src/main/java/io/github/joaovitorleal/securecapita/exception/handler/GlobalExceptionHandler.java:198-250 | an authentication exception gives 403 when it is Locked or Disabled and 401 otherwise; the detail is "Invalid email or password." exactly for BadCredentials and UsernameNotFound |
| ExceptionHandler.DataIntegrityViolationClassification | src/main/java/io/github/joaovitorleal/securecapita/exception/handler/GlobalExceptionHandler.java:252-260 | a data-integrity violation gives 409 exactly when its root message, lower-cased, contains "duplicate entry", and 400 "Integrity Violation" otherwise, a missing message included |
| ExceptionHandler.DuplicateEntryIsConflict | src/main/java/io/github/joaovitorleal/securecapita/exception/handler/GlobalExceptionHandler.java:252-258 | every unique-key violation reaches the client as 409 "Data Conflict" |
| ExceptionHandler.InternalErrorsHideDetails | src/main/java/io/github/joaovitorleal/securecapita/exception/handler/GlobalExceptionHandler.java:142-162 | ApiException, the NullPointerException and any other exception give 500 with the generic text, never their own message |
| ExceptionHandler.PasswordExceptionsShowTheirMessage | src/main/java/io/github/joaovitorleal/securecapita/exception/handler/GlobalExceptionHandler.java:180-196 | the four password exceptions give 400 with their own message and the title of their class |
| ExceptionHandler.FieldPath | src/main/java/io/github/joaovitorleal/securecapita/exception/handler/GlobalExceptionHandler.java:85-92 | the field path is "unknown" for an empty path and the one name for a one-step path; it is missing, because Optional.of throws, exactly for a single unnamed step |
| ExceptionHandler.HandleMessageNotReadable | src/main/java/io/github/joaovitorleal/securecapita/exception/handler/GlobalExceptionHandler.java:73-102 | 400 "Malformed JSON" for the request URI; an invalid-format cause appends " Field: " and the path; there is no response exactly when building the path throws |
| ExceptionHandler.HandleNoHandlerFound | src/main/java/io/github/joaovitorleal/securecapita/exception/handler/GlobalExceptionHandler.java:104-121 | 404 "Resource Not Found" whose detail names the URI |
| ExceptionHandler.HandleMethodNotSupported | src/main/java/io/github/joaovitorleal/securecapita/exception/handler/GlobalExceptionHandler.java:123-140 | 405 "Method Not Allowed" whose detail names the method |
| TokenProviders.CreateAccessToken | src/main/java/io/github/joaovitorleal/securecapita/security/provider/TokenProvider.java:37-58 | issuer JV_LEAL_DEV, audience SECURECAPITA_API, subject the username, the principal's authorities, issued now and expiring 1,800,000 ms later (both in whole seconds) |
| TokenProviders.CreateRefreshToken | src/main/java/io/github/joaovitorleal/securecapita/security/provider/TokenProvider.java:37-69 | the same issuer, audience and subject, no authorities claim, expiring 432,000,000 ms after now |
| TokenProviders.Sign | src/main/java/io/github/joaovitorleal/securecapita/security/provider/TokenProvider.java:58 | signing with HMAC512(secret), abstracted as the claims paired with the secret; VerifiedTokenIsGenuine and ForeignSecretIsRejected state what verification makes of it |
| TokenProviders.VerifyJwt | src/main/java/io/github/joaovitorleal/securecapita/security/provider/TokenProvider.java:129-133 | the verifier: algorithm, signature, issuer, then the expiry, not-before and issued-at instants in whole seconds; VerifiedTokenIsGenuine and AudienceIsNotChecked state its meaning |
| TokenProviders.Verify | src/main/java/io/github/joaovitorleal/securecapita/security/provider/TokenProvider.java:118-127 | decode, then verify; GetSubject and GetAuthorities are stated in terms of it |
| TokenProviders.VerifiedTokenIsGenuine | src/main/java/io/github/joaovitorleal/securecapita/security/provider/TokenProvider.java:129-133 | a token the verifier accepts was signed with the provider's secret over its own claims, carries the issuer and has not expired |
| TokenProviders.AudienceIsNotChecked | src/main/java/io/github/joaovitorleal/securecapita/security/provider/TokenProvider.java:129-133 | tokens that differ only in their audience verify alike |
| TokenProviders.GetSubject | src/main/java/io/github/joaovitorleal/securecapita/security/provider/TokenProvider.java:71-84 | getSubject succeeds exactly when the token verifies, and every failure is a JwtAuthenticationInvalid |
| TokenProviders.GetSubjectFailureClassification | src/main/java/io/github/joaovitorleal/securecapita/security/provider/TokenProvider.java:74-83 | expired gives "Your session has expired..." with attribute expiredMessage, an invalid claim gives "Invalid security token." with invalidClaim, anything else the generic message; each in both directions |
| TokenProviders.GetAuthorities | src/main/java/io/github/joaovitorleal/securecapita/security/provider/TokenProvider.java:86-127 | a verification failure is JwtAuthenticationInvalid "Invalid security token."; a result means the token verified and has an authorities claim, one authority per string in order |
| TokenProviders.GetAuthentication | src/main/java/io/github/joaovitorleal/securecapita/security/provider/TokenProvider.java:92-96 | principal = the e-mail, no credentials, exactly the given authorities |
| TokenProviders.AccessTokenRoundTrip | src/main/java/io/github/joaovitorleal/securecapita/security/provider/TokenProvider.java:50-90 | within its lifetime an access token gives back the principal's username and exactly its authorities |
| TokenProviders.AccessTokenExpires | src/main/java/io/github/joaovitorleal/securecapita/security/provider/TokenProvider.java:57-76 | from its expiry second on, an access token is rejected as expired |
| TokenProviders.RefreshTokenHasNoAuthorities | src/main/java/io/github/joaovitorleal/securecapita/security/provider/TokenProvider.java:61-90 | a live refresh token gives its subject, but reading its authorities throws NullPointerException |
| TokenProviders.ForeignSecretIsRejected | src/main/java/io/github/joaovitorleal/securecapita/security/provider/TokenProvider.java:80-133 | a token signed with another secret is refused with the generic message |
| AuthorizationFilter.ShouldNotFilter | src/main/java/io/github/jvlealc/securecapita/security/filter/CustomAuthorizationFilter.java:70-93 | the skip rule of shouldNotFilter; ShouldNotFilterCharacterization states it in both directions |
| AuthorizationFilter.LowerOfOptionsAndPost | src/main/java/io/github/jvlealc/securecapita/security/filter/CustomAuthorizationFilter.java:76-86 | the lower-case forms of "OPTIONS" and "POST" |
| AuthorizationFilter.ShouldNotFilterCharacterization | src/main/java/io/github/jvlealc/securecapita/security/filter/CustomAuthorizationFilter.java:71-93 | a request is skipped exactly when its method is OPTIONS in any case, its URI is exactly a public route, it is POST in any case to exactly /users, or it has no header starting with "Bearer " |
| AuthorizationFilter.PublicRoutesMatchExactly | src/main/java/io/github/jvlealc/securecapita/security/filter/CustomAuthorizationFilter.java:27-81 | a path that only starts with a public route is not exempt |
| AuthorizationFilter.GetToken | src/main/java/io/github/jvlealc/securecapita/security/filter/CustomAuthorizationFilter.java:101-107 | a token exactly when the header starts with "Bearer ", no longer than what follows the prefix |
| AuthorizationFilter.GetTokenRoundTrip | src/main/java/io/github/jvlealc/securecapita/security/filter/CustomAuthorizationFilter.java:101-107 | a trimmed token sent as "Bearer " + token is extracted unchanged |
| AuthorizationFilter.FilteredRequestsCarryToken | src/main/java/io/github/jvlealc/securecapita/security/filter/CustomAuthorizationFilter.java:71-107 | a request that is not skipped always yields a token and is not a preflight |
| AuthorizationFilter.CheckToken | src/main/java/io/github/jvlealc/securecapita/security/filter/CustomAuthorizationFilter.java:53-61 | checking never clears the context, and a failure leaves it unchanged |
| AuthorizationFilter.FilterInternal | src/main/java/io/github/jvlealc/securecapita/security/filter/CustomAuthorizationFilter.java:48-68 | the response is resolved from an exception exactly when the context was cleared, and no exception leaves the filter |
| AuthorizationFilter.Filter | src/main/java/io/github/jvlealc/securecapita/security/filter/CustomAuthorizationFilter.java:70-93 | a skipped request goes straight down the chain with the context untouched; any other is doFilterInternal |
| AuthorizationFilter.RejectedTokenStopsTheChain | src/main/java/io/github/jvlealc/securecapita/security/filter/CustomAuthorizationFilter.java:53-67 | a token that fails verification clears the context, never reaches the chain and is answered with the uniform 401, with the attribute getSubject recorded |
| AuthorizationFilter.AccessTokenAuthenticates | src/main/java/io/github/jvlealc/securecapita/security/filter/CustomAuthorizationFilter.java:53-62 | a live access token for a non-blank username sets the context to that principal with exactly its authorities, and the chain runs |
| AuthorizationFilter.RefreshTokenAsBearerIsInternalError | src/main/java/io/github/jvlealc/securecapita/security/filter/CustomAuthorizationFilter.java:57-67 | a live refresh token used as bearer clears the context and ends in a 500; the chain does not run |
| AuthorizationFilter.NoSubjectLeavesContextAlone | src/main/java/io/github/jvlealc/securecapita/security/filter/CustomAuthorizationFilter.java:54-62 | a blank token, or a verified token without a non-blank subject, leaves the context as it was and the chain runs |
| AuthorizationFilter.SecurityContext.constructor | src/main/java/io/github/jvlealc/securecapita/security/filter/CustomAuthorizationFilter.java:59-65 | a fresh context holds no authentication |
| AuthorizationFilter.ServletRequest.constructor | src/main/java/io/github/jvlealc/securecapita/security/filter/CustomAuthorizationFilter.java:72-91 | a request with the given method, URI and header and no attributes |
| AuthorizationFilter.CustomAuthorizationFilter.constructor | src/main/java/io/github/jvlealc/securecapita/security/filter/CustomAuthorizationFilter.java:32-38 | the filter holds the given token provider |
| AuthorizationFilter.CustomAuthorizationFilter.CheckRequestToken | src/main/java/io/github/jvlealc/securecapita/security/filter/CustomAuthorizationFilter.java:53-61 | the request attribute, the context and the failure are exactly those of CheckToken |
| AuthorizationFilter.CustomAuthorizationFilter.DoFilterInternal | src/main/java/io/github/jvlealc/securecapita/security/filter/CustomAuthorizationFilter.java:48-68 | the context, the attributes, whether the chain ran and the resolved response are exactly those of FilterInternal |
| AuthorizationFilter.CustomAuthorizationFilter.DoFilter | src/main/java/io/github/jvlealc/securecapita/security/filter/CustomAuthorizationFilter.java:70-93 | the same for Filter, the skip rule included |
| UserServiceModel.UserByEmail | src/main/java/io/github/joaovitorleal/securecapita/repository/UserJpaRepository.java:17 | findByEmail: a user whose stored e-mail is exactly the given one, absent exactly when none has it |
| UserServiceModel.ResetByUrl | src/main/java/io/github/jvlealc/securecapita/repository/ResetPasswordVerificationJpaRepository.java:13 | findByUrl: a reset record holding the url, absent exactly when none does |
| UserServiceModel.AccountByUrl | src/main/java/io/github/jvlealc/securecapita/repository/AccountVerificationJpaRepository.java:10 | findByUrl: an activation record holding the url, absent exactly when none does |
| UserServiceModel.LookupsAreExact | src/main/java/io/github/joaovitorleal/securecapita/domain/User.java:17-22 | with unique e-mails and urls, each lookup returns the one row that matches |
| UserServiceModel.SaveUser | src/main/java/io/github/joaovitorleal/securecapita/domain/User.java:17-59 | save succeeds exactly when every column fits and no other user has the e-mail; then the row under the saved id is the entity with its id filled in |
| UserServiceModel.SaveMfa | src/main/java/io/github/jvlealc/securecapita/domain/MfaVerification.java:21-29 | save of an MFA record succeeds exactly when the code fits 8 characters, the user exists, has no record yet and no record holds the code; then the record gets the next id |
| UserServiceModel.SaveReset | src/main/java/io/github/jvlealc/securecapita/domain/ResetPasswordVerification.java:16-24 | save of a reset record succeeds exactly when the user exists, has no record yet and no record holds the url |
| UserServiceModel.SaveAccount | src/main/java/io/github/jvlealc/securecapita/domain/AccountVerification.java:20-25 | save of an activation record succeeds exactly when the user exists, has no record yet and no record holds the url |
| UserServiceProperties.SaveStoredUser | src/main/java/io/github/joaovitorleal/securecapita/service/UserService.java:238-240 | saving a stored user who keeps their e-mail and fits their columns overwrites the row |
| UserServiceModel.BuildVerificationUrl | src/main/java/io/github/joaovitorleal/securecapita/service/UserService.java:266-270 | a link starts with the context path and ends with the token; VerificationUrlIdentifiesKindAndToken shows links are equal exactly when kind and token are |
| UserServiceModel.RolledBack | src/main/java/io/github/joaovitorleal/securecapita/service/UserService.java:61 | the rollback of a failed transaction: every table and counter as before, the notifications as after, and the invariant kept |
| UserServiceModel.Committed | src/main/java/io/github/joaovitorleal/securecapita/service/UserService.java:158-178 | what Spring commits for a call: on an exception the tables as before the call, otherwise the call's state; the step functions below keep the expired deletes instead, see Findings |
| UserServiceModel.CreateUser | src/main/java/io/github/joaovitorleal/securecapita/service/UserService.java:61-85 | registration: a failure changes nothing; a success means the e-mail was not stored as given and ROLE_USER exists, and returns a disabled user with the lower-cased e-mail and ROLE_USER |
| UserServiceModel.SaveProfile | src/main/java/io/github/joaovitorleal/securecapita/service/UserService.java:130 | the final save: on failure the tables are those from before the request, on success the saved user is returned and fits its columns |
| UserServiceModel.ChangeEmail | src/main/java/io/github/joaovitorleal/securecapita/service/UserService.java:112-128 | the e-mail change: a failure leaves the tables as they were; a success means the new lower-cased e-mail was free, and returns the user with it, disabled |
| UserServiceModel.ChangeEmailAsFlushed | src/main/java/io/github/joaovitorleal/securecapita/service/UserService.java:124-125 | the e-mail change with the new activation record inserted before the queued delete of the old one runs; a failure leaves the tables as they were |
| UserServiceModel.UpdateUser | src/main/java/io/github/joaovitorleal/securecapita/service/UserService.java:101-131 | updateUser: a failure leaves the tables as they were; a success returns the stored user with the requested id |
| UserServiceModel.GetUserByEmail | src/main/java/io/github/joaovitorleal/securecapita/service/UserService.java:95-99 | the user stored with exactly that e-mail, or UserNotFoundByEmail exactly when there is none |
| UserServiceModel.ResolveUserRole | src/main/java/io/github/joaovitorleal/securecapita/service/UserService.java:71-76 | ROLE_USER when the role exists, RoleNotFoundByName("ROLE_USER") otherwise |
| UserServiceModel.ResolveUserRoleAsWritten | src/main/java/io/github/joaovitorleal/securecapita/service/UserService.java:71-75 | as written: ROLE_USER when it exists; otherwise the exception supplier dereferences the entity's null role and throws NullPointerException |
| UserServiceModel.DeleteUserByIdAsWritten | src/main/java/io/github/joaovitorleal/securecapita/service/UserService.java:133-139 | as written: nothing is ever deleted; an existing id throws UserNotFoundById |
| UserServiceModel.DeleteUserById | src/main/java/io/github/joaovitorleal/securecapita/service/UserService.java:133-139 | corrected delete: a failure changes nothing; a success means the id was a user's and removes exactly that row |
| UserServiceModel.MfaCodeNotification | src/main/java/io/github/joaovitorleal/securecapita/service/UserService.java:149-155 | the code goes by SMS to the phone for SMS and by e-mail to the e-mail otherwise, greeting the first name |
| UserServiceModel.SendMfaCode | src/main/java/io/github/joaovitorleal/securecapita/service/UserService.java:141-156 | sendMfaCode: a failure changes nothing, not even the outbox; a success leaves the user a record with the upper-cased code expiring a day from now, and sends one notification |
| UserServiceModel.CheckMfaCode | src/main/java/io/github/joaovitorleal/securecapita/service/UserService.java:160-173 | the try block: only the user's MFA record may go; any failure but expiry changes nothing; a success returns the user with that e-mail |
| UserServiceModel.VerifyMfaCode | src/main/java/io/github/joaovitorleal/securecapita/service/UserService.java:158-178 | verifyMfaCode: the only failures are an invalid and an expired code; an invalid code changes nothing; a success returns the user with that e-mail |
| UserServiceModel.ResetPassword | src/main/java/io/github/joaovitorleal/securecapita/service/UserService.java:186-195 | resetPassword(email): a failure changes nothing; a success means the e-mail is stored, and sends one notification |
| UserServiceModel.CheckResetKey | src/main/java/io/github/joaovitorleal/securecapita/service/UserService.java:208-237 | a successful key lookup returns a user who exists and holds a reset record, and changes nothing |
| UserServiceModel.VerifyResetPasswordKey | src/main/java/io/github/joaovitorleal/securecapita/service/UserService.java:206-215 | verifyResetPasswordKey: only the reset table may change; a success changes nothing and returns a stored user |
| UserServiceModel.ResetPasswordWithKey | src/main/java/io/github/joaovitorleal/securecapita/service/UserService.java:227-243 | resetPassword(key, new, confirm): any failure but expiry changes nothing; a success means the passwords matched, and leaves the MFA and activation tables alone |
| UserServiceModel.ActivateAccount | src/main/java/io/github/joaovitorleal/securecapita/service/UserService.java:252-264 | activateAccount: the verification tables never change; a failure or an already enabled user changes nothing |
| UserServiceInvariant.SaveUserKeepsValid | src/main/java/io/github/joaovitorleal/securecapita/domain/User.java:17-59 | saving a new or stored user keeps every table constraint |
| UserServiceInvariant.SaveMfaKeepsValid | src/main/java/io/github/jvlealc/securecapita/domain/MfaVerification.java:17-29 | a successful MFA save keeps every table constraint, unique codes and ids included |
| UserServiceInvariant.SaveResetKeepsValid | src/main/java/io/github/jvlealc/securecapita/domain/ResetPasswordVerification.java:12-24 | a successful reset save keeps every table constraint, unique urls and ids included |
| UserServiceInvariant.SaveAccountKeepsValid | src/main/java/io/github/jvlealc/securecapita/domain/AccountVerification.java:16-25 | a successful activation save keeps every table constraint, unique urls and ids included |
| UserServiceInvariant.DeleteMfaKeepsValid | src/main/java/io/github/jvlealc/securecapita/repository/MfaVerificationJpaRepository.java:13-15 | deleteByUserId on the MFA table keeps every constraint |
| UserServiceInvariant.DeleteResetKeepsValid | src/main/java/io/github/jvlealc/securecapita/repository/ResetPasswordVerificationJpaRepository.java:15-17 | deleteByUserId on the reset table keeps every constraint |
| UserServiceInvariant.DeleteAccountKeepsValid | src/main/java/io/github/jvlealc/securecapita/repository/AccountVerificationJpaRepository.java:11 | deleteByUserId on the activation table keeps every constraint |
| UserServiceInvariant.ValidIgnoresOutbox | src/main/java/io/github/joaovitorleal/securecapita/service/UserService.java:83 | sending a notification does not touch any table constraint |
| UserServiceInvariant.CreateUserKeepsValid | src/main/java/io/github/joaovitorleal/securecapita/service/UserService.java:61-85 | createUser keeps every table constraint |
| UserServiceInvariant.SaveProfileKeepsValid | src/main/java/io/github/joaovitorleal/securecapita/service/UserService.java:130 | the final save of updateUser keeps every table constraint |
| UserServiceInvariant.ChangeEmailKeepsValid | src/main/java/io/github/joaovitorleal/securecapita/service/UserService.java:112-128 | the e-mail change of updateUser keeps every table constraint |
| UserServiceInvariant.UpdateUserKeepsValid | src/main/java/io/github/joaovitorleal/securecapita/service/UserService.java:101-131 | updateUser keeps every table constraint |
| UserServiceInvariant.RemoveUnreferencedUserKeepsValid | src/main/java/io/github/joaovitorleal/securecapita/service/UserService.java:138 | removing a user no verification record references keeps every table constraint |
| UserServiceInvariant.DeleteUserByIdKeepsValid | src/main/java/io/github/joaovitorleal/securecapita/service/UserService.java:133-139 | deleteUserById keeps every table constraint |
| UserServiceInvariant.SendMfaCodeKeepsValid | src/main/java/io/github/joaovitorleal/securecapita/service/UserService.java:141-156 | sendMfaCode keeps every table constraint |
| UserServiceInvariant.VerifyMfaCodeKeepsValid | src/main/java/io/github/joaovitorleal/securecapita/service/UserService.java:158-178 | verifyMfaCode keeps every table constraint |
| UserServiceInvariant.ResetPasswordKeepsValid | src/main/java/io/github/joaovitorleal/securecapita/service/UserService.java:186-195 | resetPassword(email) keeps every table constraint |
| UserServiceInvariant.CheckResetKeyKeepsValid | src/main/java/io/github/joaovitorleal/securecapita/service/UserService.java:206-215 | verifyResetPasswordKey keeps every table constraint |
| UserServiceInvariant.ResetPasswordWithKeyKeepsValid | src/main/java/io/github/joaovitorleal/securecapita/service/UserService.java:227-243 | resetPassword(key, new, confirm) keeps every table constraint |
| UserServiceInvariant.ActivateAccountKeepsValid | src/main/java/io/github/joaovitorleal/securecapita/service/UserService.java:252-264 | activateAccount keeps every table constraint |
| UserServiceInvariant.CommittedKeepsValid | src/main/java/io/github/joaovitorleal/securecapita/service/UserService.java:158-159 | the state a rolled-back transaction commits keeps every table constraint |
| UserServices.UserService.constructor | src/main/java/io/github/joaovitorleal/securecapita/service/UserService.java:39-59 | a service over empty tables with the given roles, satisfying every constraint |
| UserServices.UserService.RollBack | src/main/java/io/github/joaovitorleal/securecapita/service/UserService.java:61 | the rollback puts every table back as it was and keeps the notifications sent |
| UserServices.UserService.ExistsByEmail | src/main/java/io/github/joaovitorleal/securecapita/repository/UserJpaRepository.java:18 | existsByEmail on the users field |
| UserServices.UserService.FindUserByEmail | src/main/java/io/github/joaovitorleal/securecapita/repository/UserJpaRepository.java:17 | findByEmail on the users field |
| UserServices.UserService.FindResetByUrl | src/main/java/io/github/jvlealc/securecapita/repository/ResetPasswordVerificationJpaRepository.java:13 | findByUrl on the reset field |
| UserServices.UserService.FindAccountByUrl | src/main/java/io/github/jvlealc/securecapita/repository/AccountVerificationJpaRepository.java:10 | findByUrl on the activation field |
| UserServices.UserService.SaveUser | src/main/java/io/github/joaovitorleal/securecapita/service/UserService.java:78 | the users field after save, and the error when the database refuses it |
| UserServices.UserService.SaveMfa | src/main/java/io/github/joaovitorleal/securecapita/service/UserService.java:148 | the MFA field after save, and the error when the database refuses it |
| UserServices.UserService.SaveReset | src/main/java/io/github/joaovitorleal/securecapita/service/UserService.java:193 | the reset field after save, and the error when the database refuses it |
| UserServices.UserService.SaveAccount | src/main/java/io/github/joaovitorleal/securecapita/service/UserService.java:82 | the activation field after save, and the error when the database refuses it |
| UserServices.UserService.DeleteMfaByUserId | src/main/java/io/github/jvlealc/securecapita/repository/MfaVerificationJpaRepository.java:13-15 | the MFA field without the user's record |
| UserServices.UserService.DeleteResetByUserId | src/main/java/io/github/jvlealc/securecapita/repository/ResetPasswordVerificationJpaRepository.java:15-17 | the reset field without the user's record |
| UserServices.UserService.DeleteAccountByUserId | src/main/java/io/github/jvlealc/securecapita/repository/AccountVerificationJpaRepository.java:11 | the activation field without the user's record |
| UserServices.UserService.Send | src/main/java/io/github/joaovitorleal/securecapita/service/UserService.java:83 | the outbox with the notification appended |
| UserServices.UserService.CreateUser | src/main/java/io/github/joaovitorleal/securecapita/service/UserService.java:61-85 | the new tables and the result are those of UserServiceModel.CreateUser, and every constraint still holds; a missing ROLE_USER is the intended RoleNotFoundByName, see Findings |
| UserServices.UserService.GetUserByEmail | src/main/java/io/github/joaovitorleal/securecapita/service/UserService.java:95-99 | the result of getUserByEmail |
| UserServices.UserService.UpdateUser | src/main/java/io/github/joaovitorleal/securecapita/service/UserService.java:101-131 | the new tables and the result are those of the updateUser step function, and every constraint still holds |
| UserServices.UserService.ChangeEmail | src/main/java/io/github/joaovitorleal/securecapita/service/UserService.java:112-128 | the same for the e-mail change inside updateUser |
| UserServices.UserService.SaveProfile | src/main/java/io/github/joaovitorleal/securecapita/service/UserService.java:130 | the same for the final save of updateUser, rolled back when it fails |
| UserServices.UserService.DeleteUserById | src/main/java/io/github/joaovitorleal/securecapita/service/UserService.java:133-139 | the same for UserServiceModel.DeleteUserById, the existence check the right way round, see Findings |
| UserServices.UserService.SendMfaCode | src/main/java/io/github/joaovitorleal/securecapita/service/UserService.java:141-156 | the same for sendMfaCode |
| UserServices.UserService.CheckMfaCode | src/main/java/io/github/joaovitorleal/securecapita/service/UserService.java:160-173 | the same for the try block of verifyMfaCode |
| UserServices.UserService.VerifyMfaCode | src/main/java/io/github/joaovitorleal/securecapita/service/UserService.java:158-178 | the same for UserServiceModel.VerifyMfaCode, whose expired path keeps the delete as intended, see Findings |
| UserServices.UserService.ResetPassword | src/main/java/io/github/joaovitorleal/securecapita/service/UserService.java:186-195 | the same for resetPassword(email) |
| UserServices.UserService.CheckResetKey | src/main/java/io/github/joaovitorleal/securecapita/service/UserService.java:208-213 | the same for the key lookup and expiry check |
| UserServices.UserService.VerifyResetPasswordKey | src/main/java/io/github/joaovitorleal/securecapita/service/UserService.java:206-215 | the same for verifyResetPasswordKey |
| UserServices.UserService.ResetPasswordWithKey | src/main/java/io/github/joaovitorleal/securecapita/service/UserService.java:227-243 | the same for resetPassword(key, new, confirm) |
| UserServices.UserService.ActivateAccount | src/main/java/io/github/joaovitorleal/securecapita/service/UserService.java:252-264 | the same for activateAccount |
| UserServiceProperties.GeneratedCodeShape | src/main/java/io/github/joaovitorleal/securecapita/service/UserService.java:144 | an 8-character alphanumeric code, upper-cased, is 8 upper-case letters and digits |
| UserServiceProperties.SendMfaCodeSucceeds | src/main/java/io/github/joaovitorleal/securecapita/service/UserService.java:143-155 | with a free code, sendMfaCode stores exactly one new record for the user (replacing any earlier one) expiring a day from now, and sends the code |
| UserServiceProperties.SendMfaCodeReplacesTheRecord | src/main/java/io/github/joaovitorleal/securecapita/service/UserService.java:143-155 | afterwards the user has exactly one record, with the upper-cased code of 8 upper-case letters and digits, expiring now + 1 day; other records, users and the other tables are unchanged |
| UserServiceProperties.SendMfaCodeFailureChangesNothing | src/main/java/io/github/joaovitorleal/securecapita/service/UserService.java:141-156 | a failed sendMfaCode leaves every table and the outbox as they were |
| UserServiceProperties.SendMfaCodeToUnknownUser | src/main/java/io/github/joaovitorleal/securecapita/service/UserService.java:146-147 | an unknown id is UserNotFoundById |
| UserServiceProperties.SendMfaCodeCollision | src/main/java/io/github/joaovitorleal/securecapita/service/UserService.java:148 | a code another user's record holds is refused by the unique key: 409, nothing changes |
| UserServiceProperties.SendMfaCodeWithoutType | src/main/java/io/github/joaovitorleal/securecapita/service/UserService.java:148-149 | with no MFA type the saved record is rolled back by the NullPointerException |
| UserServiceProperties.VerifyMfaCodeInvalidExactly | src/main/java/io/github/joaovitorleal/securecapita/service/UserService.java:161-177 | "Invalid MFA code." exactly when the e-mail is unknown, there is no record or the code differs; nothing changes then |
| UserServiceProperties.VerifyMfaCodeFailuresLookAlike | src/main/java/io/github/joaovitorleal/securecapita/service/UserService.java:158-178 | every failure of verifyMfaCode gives the same 401 response |
| UserServiceProperties.WrongMfaCodeKeepsTheRecord | src/main/java/io/github/joaovitorleal/securecapita/service/UserService.java:165-167 | a wrong guess changes nothing, even for an expired record, and the right code then works as before |
| UserServiceProperties.CorrectMfaCodeConsumesTheRecord | src/main/java/io/github/joaovitorleal/securecapita/service/UserService.java:168-173 | the right code deletes the record and returns the user, or MfaCodeExpired when the expiry is strictly before now; replaying it is an invalid code |
| UserServiceProperties.ReissuedMfaCodeReplacesTheFirst | src/main/java/io/github/joaovitorleal/securecapita/service/UserService.java:145-148 | after a second sendMfaCode the first code is invalid |
| UserServiceProperties.ResetPasswordForUnknownEmail | src/main/java/io/github/joaovitorleal/securecapita/service/UserService.java:188-189 | an unknown e-mail is UserNotFoundByEmail, changes nothing and reaches the client as 500 |
| UserServiceProperties.ResetPasswordSucceeds | src/main/java/io/github/joaovitorleal/securecapita/service/UserService.java:187-194 | for a stored e-mail and a free url, the user's reset record is replaced by one for the new link expiring in ten minutes, and the link is sent |
| UserServiceProperties.ResetPasswordIssuesOneLink | src/main/java/io/github/joaovitorleal/securecapita/service/UserService.java:187-195 | afterwards the user has exactly one reset record, for the new url, expiring now + 10 minutes; other records and tables are unchanged |
| UserServiceProperties.ResetLinkDesignatesTheUser | src/main/java/io/github/joaovitorleal/securecapita/service/UserService.java:193-214 | until it expires the mailed link verifies to the user it was sent to |
| UserServiceProperties.ReplacedResetLinkIsUnknown | src/main/java/io/github/joaovitorleal/securecapita/service/UserService.java:190-193 | a new link makes the previous one unknown |
| UserServiceProperties.SecondResetLinkSupersedesTheFirst | src/main/java/io/github/joaovitorleal/securecapita/service/UserService.java:190-209 | after a second request the first link is invalid |
| UserServiceProperties.VerifyResetPasswordKeyOutcomes | src/main/java/io/github/joaovitorleal/securecapita/service/UserService.java:207-215 | an unknown link is invalid and changes nothing; an expired one is deleted, reported as expired and invalid from then on; a live one returns its user and stays |
| UserServiceProperties.PasswordMismatchComesFirst | src/main/java/io/github/joaovitorleal/securecapita/service/UserService.java:229-231 | different passwords give PasswordMismatch before the key is looked at, and nothing changes |
| UserServiceProperties.ResetPasswordWithLiveKey | src/main/java/io/github/joaovitorleal/securecapita/service/UserService.java:238-242 | a live link stores the encoded new password, deletes the record and sends the confirmation; nothing else changes |
| UserServiceProperties.ResetLinkWorksOnce | src/main/java/io/github/joaovitorleal/securecapita/service/UserService.java:241 | after a successful reset the link is invalid |
| UserServiceProperties.UnknownResetLinkIsInvalid | src/main/java/io/github/joaovitorleal/securecapita/service/UserService.java:232-233 | a link no record holds is invalid |
| UserServiceProperties.ActivateAccountOutcomes | src/main/java/io/github/joaovitorleal/securecapita/service/UserService.java:253-264 | an unknown link is AccountVerificationNotFoundByUrl; a disabled user is enabled, told so, and true is returned; an enabled user gives false with no change; the record is never deleted |
| UserServiceProperties.ActivateAccountIsIdempotent | src/main/java/io/github/joaovitorleal/securecapita/service/UserService.java:257-263 | a second activation with the same link answers false and changes nothing |
| UserServiceProperties.CreateUserRejectsStoredEmail | src/main/java/io/github/joaovitorleal/securecapita/service/UserService.java:63-65 | an e-mail stored exactly as given is EmailAlreadyExists (409), nothing changes |
| UserServiceProperties.CaseVariantOfStoredEmailReachesTheUniqueKey | src/main/java/io/github/joaovitorleal/securecapita/service/UserService.java:63-78 | an e-mail that differs from a stored one only in letter case passes the check and is refused by the unique key instead, as 409 "Data Conflict" |
| UserServiceProperties.CreateUserSucceeds | src/main/java/io/github/joaovitorleal/securecapita/service/UserService.java:66-84 | a successful registration stores the new user under the next id and one activation record for the new link, and mails the link |
| UserServiceProperties.CreateUserRegistersADisabledAccount | src/main/java/io/github/joaovitorleal/securecapita/service/UserService.java:66-84 | the new user is disabled, unlocked, without MFA, with the default picture, the lower-cased e-mail, the encoded password and ROLE_USER; no other user or record changes |
| UserServiceProperties.RegistrationLinkActivatesTheAccount | src/main/java/io/github/joaovitorleal/securecapita/service/UserService.java:80-261 | following the mailed link enables the new account |
| UserServiceProperties.UpdateWithoutEmailChange | src/main/java/io/github/joaovitorleal/securecapita/service/UserService.java:103-130 | without an e-mail change only the present profile fields change; null fields keep their values, and e-mail and enabled stay |
| UserServiceProperties.UpdateWithEmailChange | src/main/java/io/github/joaovitorleal/securecapita/service/UserService.java:112-130 | a new e-mail is stored lower-cased, disables the account, replaces the activation record (the old link stops working) and mails the new link |
| UserServiceProperties.EmailChangeAsFlushedIsRefused | src/main/java/io/github/joaovitorleal/securecapita/service/UserService.java:124-125 | as flushed: for a user who already has an activation record, the insert hits the unique user_id key, the request ends in 409 and nothing changes |
| UserServiceProperties.DeleteUserByIdAsWrittenIsInverted | src/main/java/io/github/joaovitorleal/securecapita/service/UserService.java:133-139 | as written: an existing user gives UserNotFoundById (404), a missing id succeeds, and nothing ever changes |
| UserServiceProperties.DeleteUserByIdOutcomes | src/main/java/io/github/joaovitorleal/securecapita/service/UserService.java:133-139 | corrected: a missing id is UserNotFoundById; a user no record references is removed with nothing else changed; success exactly then |
| UserServiceProperties.ExpiredMfaDeletionRolledBack | src/main/java/io/github/joaovitorleal/securecapita/service/UserService.java:168-170 | as committed, the delete of an expired MFA record is rolled back, so the same correct entry is expired again |
| UserServiceProperties.ExpiredResetLinkDeletionRolledBack | src/main/java/io/github/joaovitorleal/securecapita/service/UserService.java:210-236 | as committed, an expired reset record survives both key-taking operations |
| UserServiceProperties.CommittedVerifyMfaCode | src/main/java/io/github/joaovitorleal/securecapita/service/UserService.java:158-178 | outside the expiry path, what the transaction commits for verifyMfaCode is the modelled state |
| UserServiceProperties.CommittedVerifyResetPasswordKey | src/main/java/io/github/joaovitorleal/securecapita/service/UserService.java:206-215 | the same for verifyResetPasswordKey |
| UserServiceProperties.CommittedResetPasswordWithKey | src/main/java/io/github/joaovitorleal/securecapita/service/UserService.java:227-243 | the same for resetPassword(key, new, confirm) |
| UserServiceProperties.MissingRoleAsWrittenIsNullPointer | src/main/java/io/github/joaovitorleal/securecapita/service/UserService.java:71-75 | as written, a missing ROLE_USER gives a NullPointerException (500) where RoleNotFoundByName (404) was meant |

## Left out

- Delivery of notifications: sending is an append to the store's outbox. A failing `NotificationService`, and the `NotificationFailureException` it would raise, are not modelled.
- Concurrency: two transactions running at once, and locking, are not modelled. Transactions are modelled only through rollback on an exception.
- The clock, the random token and code generators, and the password encoder are parameters: `now`, `token`, `generated` and `cfg.encode`.
- Case mapping: `toLowerCase`, `toUpperCase` and `equalsIgnoreCase` are modelled for ASCII letters only. Locale-dependent and non-ASCII case mapping is not modelled.
- The database collation: e-mail comparison and the unique key are taken as exact, case-sensitive equality. A case-insensitive collation would refuse case variants that the model lets through to the save.
- The JWT library: HMAC-512 signing and encoding are abstracted. A signed token is its claims paired with the secret, and decoding is a parameter of the provider.
- UserServiceModel.ChangeEmail: the account table's `deleteByUserId` is a derived query, not a `@Modifying` one. Hibernate therefore only schedules the old record's removal until the next flush, while the new record (identity id) is inserted at once. The step function lets the delete take effect first. Otherwise the insert would meet the old record's unique `user_id`, and every e-mail change of a registered user would end in 409 (`ChangeEmailAsFlushed`; see Findings). Other Hibernate flush ordering is not modelled, and every other delete takes effect immediately.
- `buildVerificationUrl` (UserService.java:266-270) does not percent-encode or normalise the URI. The context path comes with each request.
- The user mapper is taken to copy the DTO fields into the entity. UserMapper is not part of this model.
- `getUserDtoByEmail` (UserService.java:87-93): its mapping to a response DTO is not modelled. The lookup is `GetUserByEmail`.
- `handleMethodArgumentNotValid` (GlobalExceptionHandler.java:43-71): the per-field error map built by Spring's binding result is not modelled. The constraints themselves are modelled in the DTO modules.
- `TokenProvider.isTokenValid` and `isTokenExpired` (TokenProvider.java:98-109, 135-139) are deprecated and called by no core code.
- ResourceNotFoundException, ApiException and the ResetPasswordVerification exception classes are not part of this model. Their status codes come from the handler methods that catch them.
- UserServiceModel.DeleteUserById, UserServices.UserService.DeleteUserById: the existence check is the corrected one (see Findings). The corrected delete removes only a user that no verification record references. Otherwise the database's foreign key refuses the delete, and the model reports that as the data-integrity error. Cascading deletes are not modelled.
- UserServiceModel.CreateUser, UserServices.UserService.CreateUser: a missing ROLE_USER gives the intended RoleNotFoundByName, through `ResolveUserRole`. The code as written throws a NullPointerException there (`ResolveUserRoleAsWritten`; see Findings).
- UserServiceModel.CheckMfaCode, UserServiceModel.VerifyMfaCode, UserServices.UserService.CheckMfaCode, UserServices.UserService.VerifyMfaCode: an expired MFA record stays deleted although the call fails. The committed transaction restores it (`Committed`, `ExpiredMfaDeletionRolledBack`).
- UserServiceModel.CheckResetKey, UserServiceModel.VerifyResetPasswordKey, UserServiceModel.ResetPasswordWithKey, UserServices.UserService.CheckResetKey, UserServices.UserService.VerifyResetPasswordKey, UserServices.UserService.ResetPasswordWithKey: the same holds for an expired reset link (`ExpiredResetLinkDeletionRolledBack`).
- MfaVerifications.ToString, ResetPasswordVerifications.ToString, AccountVerifications.ToString: a record's user is a user id, never null. The source's branch that prints "null" for a record without a user is therefore not modelled.
- Users.ColumnsFit: the 255-character default columns (password, address, image url) are not checked.
- Timestamps `createdAt` and `updatedAt` are not modelled.
- AuthorizationFilter: request attributes are modelled by their names only. Their values are library message text.
- `UserServiceModel.MfaCodeNotification`: a user with MFA by SMS but no phone number gets a notification whose recipient is absent. What the SMS service then does is not modelled.
- `TokenProviders.CreateAccessToken`: the claims are modelled; the compact serialisation and the signature bytes are not.
- UserRequests.ValidRequestMeaning: the `@Email` check is a parameter predicate, since Hibernate Validator's address grammar is not part of this model.

## Findings

| source | as written | input that shows it | evidently intended | confidence | as-written member | corrected member |
|---|---|---|---|---|---|---|
| src/main/java/io/github/joaovitorleal/securecapita/service/UserService.java:133-139 | the existence check is inverted, and the user is never deleted | any stored id: 404 UserNotFoundById; an unknown id: success with nothing deleted | delete an existing user; 404 for an unknown id | high, not executed | UserServiceProperties.DeleteUserByIdAsWrittenIsInverted | UserServiceProperties.DeleteUserByIdOutcomes |
| src/main/java/io/github/joaovitorleal/securecapita/service/UserService.java:168-171 | the delete of an expired MFA record is followed by an unchecked exception inside `@Transactional`, so the delete is rolled back (the same holds at 210-212 and 234-236 for reset links) | a stored record whose expiry is before now, submitted with its correct code | the expired record is removed | medium, not executed | UserServiceProperties.ExpiredMfaDeletionRolledBack | UserServiceProperties.CorrectMfaCodeConsumesTheRecord |
| src/main/java/io/github/joaovitorleal/securecapita/service/UserService.java:71-75 | the exception supplier reads `user.getRole().getName()` on an entity whose role is still null | registration when no ROLE_USER row exists | RoleNotFoundByNameException for "ROLE_USER": a 404 with the exception classes the model uses, a generic 500 with the other package's class | medium, not executed | UserServiceProperties.MissingRoleAsWrittenIsNullPointer | UserServiceModel.ResolveUserRole |
| src/main/java/io/github/joaovitorleal/securecapita/service/UserService.java:124-125 | the old activation record is removed by a derived `deleteByUserId`, which Hibernate only schedules, and then the new record is saved with an identity id, which inserts at once while the old record still holds the unique `user_id` | a registered user (who always has an activation record) changing their e-mail to a free one | the old record is replaced, and the new link is mailed | low, not executed; it depends on Hibernate's flush order | UserServiceProperties.EmailChangeAsFlushedIsRefused | UserServiceProperties.UpdateWithEmailChange |
