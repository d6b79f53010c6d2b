/**
 * The authentication service: registration with e-mail verification, login,
 * refresh-token rotation, logout, and the forgot/reset/change-password flows,
 * each an ordered sequence of reads, inserts, updates and deletes on the
 * store, without a transaction around them.
 */
module Auth {
  import opened Wrappers
  import opened Hashing
  import opened Schema
  import opened Email
  import opened Sessions

  const VERIFICATION_TTL_MS: int := 24 * HOUR_MS
  const RESET_TTL_MS: int := HOUR_MS
  const REFRESH_TTL_MS: int := 7 * DAY_MS

  const EMAIL_TAKEN := "Email already registered"
  const REGISTERED := "Registration successful. Please check your email to verify your account."
  const BAD_VERIFICATION_TOKEN := "Invalid or expired verification token"
  const EMAIL_VERIFIED := "Email verified successfully. You can now login."
  const INVALID_CREDENTIALS := "Invalid credentials"
  const VERIFY_FIRST := "Please verify your email before logging in"
  const BAD_REFRESH_TOKEN := "Invalid or expired refresh token"
  const USER_NOT_FOUND := "User not found"
  const LOGGED_OUT := "Logged out successfully"
  const RESET_LINK_SENT := "If the email exists, a password reset link has been sent."
  const BAD_RESET_TOKEN := "Invalid or expired reset token"
  const PASSWORD_RESET := "Password reset successfully. Please login again."
  const WRONG_CURRENT_PASSWORD := "Current password is incorrect"
  const SAME_PASSWORD := "New password must be different from current password"
  const PASSWORD_CHANGED := "Password changed successfully. Please login again."

  /**
   * The exceptions the service throws. `DeliveryFailed` is a rethrown
   * transport error; `DuplicateToken` is the database's unique-constraint
   * error on `refresh_tokens.token`, which the service does not catch.
   */
  datatype AuthError =
    | Conflict(message: string)
    | BadRequest(message: string)
    | Unauthorized(message: string)
    | NotFound(message: string)
    | DeliveryFailed
    | DuplicateToken

  /** The two tokens `generateTokens` signs: a short-lived access token and a refresh token. */
  datatype TokenPair = TokenPair(accessToken: string, refreshToken: Token)

  /** The user projection a login returns: no password hash. */
  datatype PublicUser = PublicUser(id: UserId, email: string, isVerified: bool)

  datatype LoginResponse = LoginResponse(accessToken: string, refreshToken: Token, user: PublicUser)

  class AuthService {
    const db: Database
    const mailer: EmailService
    const sessions: SessionsService

    /** The store is consistent and the sessions service shares the same store and mailer. */
    ghost predicate Valid()
      reads db
    {
      db.Valid() && sessions.db == db && sessions.mailer == mailer
    }

    constructor (db: Database, mailer: EmailService)
      requires db.Valid()
      ensures Valid() && this.db == db && this.mailer == mailer
    {
      this.db := db;
      this.mailer := mailer;
      sessions := new SessionsService(db, mailer);
    }

    /**
     * `register`: refuses an email already present and changes nothing;
     * otherwise inserts one unverified user with the hashed password and one
     * verification token for it, valid for 24 hours, and sends the link. A
     * failed send is rethrown, and the two rows already inserted stay.
     */
    method Register(email: string, password: string, now: Time,
                    newUserId: UserId, verificationToken: Token, outcome: SendOutcome)
      returns (r: Result<string, AuthError>)
      requires Valid()
      requires newUserId !in UserIds(db.users)
      requires verificationToken !in db.emailVerificationTokens
      modifies db, mailer
      ensures Valid()
      ensures old(db.ReferencesIntact()) ==> db.ReferencesIntact()
      ensures db.passwordResetTokens == old(db.passwordResetTokens)
      ensures db.refreshTokens == old(db.refreshTokens)
      ensures db.loginHistory == old(db.loginHistory)
      ensures FindUserByEmail(old(db.users), email).Some? ==>
        && r == Err(Conflict(EMAIL_TAKEN))
        && db.users == old(db.users)
        && db.emailVerificationTokens == old(db.emailVerificationTokens)
        && mailer.attempts == old(mailer.attempts)
      ensures FindUserByEmail(old(db.users), email).None? ==>
        && db.users == old(db.users) + [User(newUserId, email, Hash(password), false, now, now, None, None)]
        && db.emailVerificationTokens == old(db.emailVerificationTokens)[verificationToken :=
             VerificationToken(newUserId, verificationToken, now + VERIFICATION_TTL_MS, now)]
        && mailer.attempts == old(mailer.attempts) +
             [VerificationMail(email, VerificationLink(mailer.appUrl, verificationToken))]
        && r == if outcome == TransportFailed then Err(DeliveryFailed) else Ok(REGISTERED)
    {
      var existingUser := FindUserByEmail(db.users, email);
      if existingUser.Some? {
        return Err(Conflict(EMAIL_TAKEN));
      }
      var hashedPassword := Hash(password);
      var newUser := User(newUserId, email, hashedPassword, false, now, now, None, None);
      db.InsertUser(newUser);

      var expiresAt := now + VERIFICATION_TTL_MS;
      db.InsertVerificationToken(VerificationToken(newUser.id, verificationToken, expiresAt, now));

      var thrown := mailer.SendVerificationEmail(email, verificationToken, outcome);
      if thrown {
        return Err(DeliveryFailed);
      }
      return Ok(REGISTERED);
    }

    /**
     * `verifyEmail`: a token with no row, or whose row expires at or before
     * `now`, is a bad request and changes nothing. Otherwise the owner is
     * marked verified and exactly that token row is deleted.
     */
    method VerifyEmail(token: Token, now: Time) returns (r: Result<string, AuthError>)
      requires Valid()
      modifies db
      ensures Valid()
      ensures old(db.ReferencesIntact()) ==> db.ReferencesIntact()
      ensures db.passwordResetTokens == old(db.passwordResetTokens)
      ensures db.refreshTokens == old(db.refreshTokens)
      ensures db.loginHistory == old(db.loginHistory)
      ensures var record := FindLive(old(db.emailVerificationTokens), token, now);
        if record.None? then
          && r == Err(BadRequest(BAD_VERIFICATION_TOKEN))
          && db.users == old(db.users)
          && db.emailVerificationTokens == old(db.emailVerificationTokens)
        else
          && r == Ok(EMAIL_VERIFIED)
          && db.users == UpdateUser(old(db.users), record.value.userId, MarkVerified, now)
          && db.emailVerificationTokens == old(db.emailVerificationTokens) - {token}
    {
      var verificationRecord := FindLive(db.emailVerificationTokens, token, now);
      if verificationRecord.None? {
        return Err(BadRequest(BAD_VERIFICATION_TOKEN));
      }
      db.UpdateUserRow(verificationRecord.value.userId, MarkVerified, now);
      db.DeleteVerificationToken(verificationRecord.value.token);
      return Ok(EMAIL_VERIFIED);
    }

    /**
     * `login`: an unknown email and a wrong password get the same
     * `Unauthorized("Invalid credentials")`; an unverified account is refused
     * only after its password matched. Failures change nothing. Otherwise the
     * login is tracked (one history row, maybe an alert), the last-login
     * columns are set, and one refresh-token row for the user is inserted with
     * the caller's IP and user agent, valid for seven days. The signed refresh
     * token depends only on the user and the second it was issued in, so a
     * second login within the same second presents a token already in the
     * table: that insert fails and the error is raised after the history row
     * and the last-login columns were written.
     */
    method Login(email: string, password: string, ipAddress: string, userAgent: string, now: Time,
                 minted: TokenPair, alertOutcome: SendOutcome)
      returns (r: Result<LoginResponse, AuthError>)
      requires Valid()
      modifies db, mailer
      ensures Valid()
      ensures old(db.ReferencesIntact()) ==> db.ReferencesIntact()
      ensures db.emailVerificationTokens == old(db.emailVerificationTokens)
      ensures db.passwordResetTokens == old(db.passwordResetTokens)
      ensures var found := FindUserByEmail(old(db.users), email);
        found.None? || !Compare(password, found.value.password) ==>
          r == Err(Unauthorized(INVALID_CREDENTIALS)) && unchanged(db) && unchanged(mailer)
      ensures var found := FindUserByEmail(old(db.users), email);
        found.Some? && Compare(password, found.value.password) && !found.value.isVerified ==>
          r == Err(Unauthorized(VERIFY_FIRST)) && unchanged(db) && unchanged(mailer)
      ensures var found := FindUserByEmail(old(db.users), email);
        found.Some? && Compare(password, found.value.password) && found.value.isVerified ==>
          var user := found.value;
          var notify := IsUnusualLogin(old(db.loginHistory), user.id, ipAddress, now);
          && db.users == UpdateUser(old(db.users), user.id, RecordLogin(ipAddress), now)
          && db.loginHistory == old(db.loginHistory) + [LoginRecord(user.id, ipAddress, userAgent, now, notify)]
          && mailer.attempts == old(mailer.attempts) +
               (if notify then [LoginNotificationMail(email, ipAddress, userAgent, now)] else [])
          && (minted.refreshToken in old(db.refreshTokens) ==>
               r == Err(DuplicateToken) && db.refreshTokens == old(db.refreshTokens))
          && (minted.refreshToken !in old(db.refreshTokens) ==>
               && r == Ok(LoginResponse(minted.accessToken, minted.refreshToken, PublicUser(user.id, user.email, true)))
               && db.refreshTokens == old(db.refreshTokens)[minted.refreshToken :=
                    RefreshToken(user.id, minted.refreshToken, now + REFRESH_TTL_MS, now, ipAddress, userAgent)])
    {
      var found := FindUserByEmail(db.users, email);
      if found.None? {
        return Err(Unauthorized(INVALID_CREDENTIALS));
      }
      var user := found.value;
      var isPasswordValid := Compare(password, user.password);
      if !isPasswordValid {
        return Err(Unauthorized(INVALID_CREDENTIALS));
      }
      if !user.isVerified {
        return Err(Unauthorized(VERIFY_FIRST));
      }

      r := SignIn(user, email, ipAddress, userAgent, now, minted, alertOutcome);
    }

    /**
     * The writes of a login whose credentials were accepted: track the login,
     * set the last-login columns, and store the new refresh token, or raise
     * the duplicate-token error when the table already holds it.
     */
    method SignIn(user: User, email: string, ipAddress: string, userAgent: string, now: Time,
                  minted: TokenPair, alertOutcome: SendOutcome)
      returns (r: Result<LoginResponse, AuthError>)
      requires Valid()
      requires user in db.users && user.isVerified
      modifies db, mailer
      ensures Valid()
      ensures old(db.ReferencesIntact()) ==> db.ReferencesIntact()
      ensures db.emailVerificationTokens == old(db.emailVerificationTokens)
      ensures db.passwordResetTokens == old(db.passwordResetTokens)
      ensures var notify := IsUnusualLogin(old(db.loginHistory), user.id, ipAddress, now);
        && db.users == UpdateUser(old(db.users), user.id, RecordLogin(ipAddress), now)
        && db.loginHistory == old(db.loginHistory) + [LoginRecord(user.id, ipAddress, userAgent, now, notify)]
        && mailer.attempts == old(mailer.attempts) +
             (if notify then [LoginNotificationMail(email, ipAddress, userAgent, now)] else [])
      ensures minted.refreshToken in old(db.refreshTokens) ==>
        r == Err(DuplicateToken) && db.refreshTokens == old(db.refreshTokens)
      ensures minted.refreshToken !in old(db.refreshTokens) ==>
        && r == Ok(LoginResponse(minted.accessToken, minted.refreshToken, PublicUser(user.id, user.email, true)))
        && db.refreshTokens == old(db.refreshTokens)[minted.refreshToken :=
             RefreshToken(user.id, minted.refreshToken, now + REFRESH_TTL_MS, now, ipAddress, userAgent)]
    {
      sessions.TrackLogin(user.id, ipAddress, userAgent, email, now, alertOutcome);

      db.UpdateUserRow(user.id, RecordLogin(ipAddress), now);

      if minted.refreshToken in db.refreshTokens {
        // the insert below would violate the unique `token` column
        return Err(DuplicateToken);
      }
      var refreshTokenExpiry := now + REFRESH_TTL_MS;
      db.InsertRefreshToken(RefreshToken(user.id, minted.refreshToken, refreshTokenExpiry, now, ipAddress, userAgent));

      return Ok(LoginResponse(minted.accessToken, minted.refreshToken, PublicUser(user.id, user.email, user.isVerified)));
    }

    /**
     * `refreshAccessToken`: validity is decided by the table alone. A missing
     * or expired token, or one whose user is gone, is unauthorized and changes
     * nothing. Otherwise the presented row is deleted and a new row for the
     * same user, carrying the same IP and user agent, is inserted (strict
     * rotation). If the new token is already held by another row the insert
     * fails after the delete; if it equals the presented token (same user,
     * same second) the row is re-inserted under the same string.
     */
    method RefreshAccessToken(oldRefreshToken: Token, now: Time, minted: TokenPair)
      returns (r: Result<TokenPair, AuthError>)
      requires Valid()
      modifies db
      ensures Valid()
      ensures old(db.ReferencesIntact()) ==> db.ReferencesIntact()
      ensures db.users == old(db.users)
      ensures db.emailVerificationTokens == old(db.emailVerificationTokens)
      ensures db.passwordResetTokens == old(db.passwordResetTokens)
      ensures db.loginHistory == old(db.loginHistory)
      ensures var record := FindLive(old(db.refreshTokens), oldRefreshToken, now);
        if record.None? then
          r == Err(Unauthorized(BAD_REFRESH_TOKEN)) && db.refreshTokens == old(db.refreshTokens)
        else if record.value.userId !in UserIds(old(db.users)) then
          r == Err(Unauthorized(USER_NOT_FOUND)) && db.refreshTokens == old(db.refreshTokens)
        else if minted.refreshToken in old(db.refreshTokens) - {oldRefreshToken} then
          r == Err(DuplicateToken) && db.refreshTokens == old(db.refreshTokens) - {oldRefreshToken}
        else
          && r == Ok(minted)
          && db.refreshTokens == (old(db.refreshTokens) - {oldRefreshToken})[minted.refreshToken :=
               RefreshToken(record.value.userId, minted.refreshToken, now + REFRESH_TTL_MS, now,
                            record.value.ipAddress, record.value.userAgent)]
    {
      var tokenRecord := FindLive(db.refreshTokens, oldRefreshToken, now);
      if tokenRecord.None? {
        return Err(Unauthorized(BAD_REFRESH_TOKEN));
      }
      var user := FindUserById(db.users, tokenRecord.value.userId);
      if user.None? {
        return Err(Unauthorized(USER_NOT_FOUND));
      }

      db.DeleteRefreshToken(tokenRecord.value.token);

      if minted.refreshToken in db.refreshTokens {
        // the insert below would violate the unique `token` column
        return Err(DuplicateToken);
      }
      var refreshTokenExpiry := now + REFRESH_TTL_MS;
      db.InsertRefreshToken(RefreshToken(user.value.id, minted.refreshToken, refreshTokenExpiry, now,
                                         tokenRecord.value.ipAddress, tokenRecord.value.userAgent));
      return Ok(minted);
    }

    /**
     * `logout`: always the same message. A present, non-empty token deletes
     * the rows carrying exactly that token; an absent or empty one changes
     * nothing.
     */
    method Logout(refreshToken: Option<Token>) returns (message: string)
      requires Valid()
      modifies db
      ensures Valid()
      ensures old(db.ReferencesIntact()) ==> db.ReferencesIntact()
      ensures message == LOGGED_OUT
      ensures db.users == old(db.users)
      ensures db.emailVerificationTokens == old(db.emailVerificationTokens)
      ensures db.passwordResetTokens == old(db.passwordResetTokens)
      ensures db.loginHistory == old(db.loginHistory)
      ensures db.refreshTokens ==
        if refreshToken.None? || refreshToken.value == "" then old(db.refreshTokens)
        else old(db.refreshTokens) - {refreshToken.value}
    {
      if refreshToken.Some? && refreshToken.value != "" {
        db.DeleteRefreshToken(refreshToken.value);
      }
      return LOGGED_OUT;
    }

    /**
     * `forgotPassword`: the same message whether or not the email is known,
     * and no change at all when it is not. For a known user every earlier
     * reset token is deleted and one new token, valid for one hour, is
     * inserted and mailed; a failed send is rethrown after the insert.
     */
    method ForgotPassword(email: string, now: Time, resetToken: Token, outcome: SendOutcome)
      returns (r: Result<string, AuthError>)
      requires Valid()
      requires resetToken !in db.passwordResetTokens
      modifies db, mailer
      ensures Valid()
      ensures old(db.ReferencesIntact()) ==> db.ReferencesIntact()
      ensures db.users == old(db.users)
      ensures db.emailVerificationTokens == old(db.emailVerificationTokens)
      ensures db.refreshTokens == old(db.refreshTokens)
      ensures db.loginHistory == old(db.loginHistory)
      ensures var found := FindUserByEmail(old(db.users), email);
        if found.None? then
          r == Ok(RESET_LINK_SENT) && unchanged(db) && unchanged(mailer)
        else
          && db.passwordResetTokens == WithoutUser(old(db.passwordResetTokens), found.value.id)[resetToken :=
               PasswordResetToken(found.value.id, resetToken, now + RESET_TTL_MS, now)]
          && (forall t :: t in db.passwordResetTokens && db.passwordResetTokens[t].userId == found.value.id
                <==> t == resetToken)
          && mailer.attempts == old(mailer.attempts) +
               [PasswordResetMail(email, ResetLink(mailer.frontendUrl, resetToken))]
          && r == if outcome == TransportFailed then Err(DeliveryFailed) else Ok(RESET_LINK_SENT)
    {
      var found := FindUserByEmail(db.users, email);
      if found.None? {
        return Ok(RESET_LINK_SENT);
      }
      var user := found.value;
      var expiresAt := now + RESET_TTL_MS;

      db.DeleteResetTokensOf(user.id);
      db.InsertResetToken(PasswordResetToken(user.id, resetToken, expiresAt, now));

      var thrown := mailer.SendPasswordResetEmail(email, resetToken, outcome);
      if thrown {
        return Err(DeliveryFailed);
      }
      return Ok(RESET_LINK_SENT);
    }

    /**
     * `resetPassword`: a missing or expired token is a bad request, a token
     * whose user is gone is not found; both change nothing. Otherwise the
     * password hash is replaced, the redeemed token is deleted, every refresh
     * token of that user (and no other) is revoked, and a confirmation is sent
     * whose failure is swallowed.
     */
    method ResetPassword(token: Token, newPassword: string, now: Time, outcome: SendOutcome)
      returns (r: Result<string, AuthError>)
      requires Valid()
      modifies db, mailer
      ensures Valid()
      ensures old(db.ReferencesIntact()) ==> db.ReferencesIntact()
      ensures db.emailVerificationTokens == old(db.emailVerificationTokens)
      ensures db.loginHistory == old(db.loginHistory)
      ensures FindLive(old(db.passwordResetTokens), token, now).None? ==>
        r == Err(BadRequest(BAD_RESET_TOKEN)) && unchanged(db) && unchanged(mailer)
      ensures var record := FindLive(old(db.passwordResetTokens), token, now);
        record.Some? && record.value.userId !in UserIds(old(db.users)) ==>
          r == Err(NotFound(USER_NOT_FOUND)) && unchanged(db) && unchanged(mailer)
      ensures var record := FindLive(old(db.passwordResetTokens), token, now);
        record.Some? && record.value.userId in UserIds(old(db.users)) ==>
          var user := FindUserById(old(db.users), record.value.userId).value;
          && r == Ok(PASSWORD_RESET)
          && db.users == UpdateUser(old(db.users), user.id, SetPassword(Hash(newPassword)), now)
          && db.passwordResetTokens == old(db.passwordResetTokens) - {token}
          && db.refreshTokens == WithoutUser(old(db.refreshTokens), user.id)
          && mailer.attempts == old(mailer.attempts) + [PasswordChangedMail(user.email)]
    {
      var resetRecord := FindLive(db.passwordResetTokens, token, now);
      if resetRecord.None? {
        return Err(BadRequest(BAD_RESET_TOKEN));
      }
      var found := FindUserById(db.users, resetRecord.value.userId);
      if found.None? {
        return Err(NotFound(USER_NOT_FOUND));
      }
      var user := found.value;
      var hashedPassword := Hash(newPassword);
      ghost var users0, resets0, refresh0 := db.users, db.passwordResetTokens, db.refreshTokens;
      ghost var verifications0, history0 := db.emailVerificationTokens, db.loginHistory;

      db.UpdateUserRow(user.id, SetPassword(hashedPassword), now);
      assert db.loginHistory == history0;
      db.DeleteResetToken(resetRecord.value.token);
      assert db.loginHistory == history0;
      db.DeleteRefreshTokensOf(user.id);
      assert db.users == UpdateUser(users0, user.id, SetPassword(hashedPassword), now);
      assert db.passwordResetTokens == resets0 - {token};
      assert db.refreshTokens == WithoutUser(refresh0, user.id);
      assert db.emailVerificationTokens == verifications0 && db.loginHistory == history0;

      mailer.SendPasswordChangedEmail(user.email, outcome);
      return Ok(PASSWORD_RESET);
    }

    /**
     * `changePassword`: not found for an unknown user, unauthorized for a
     * wrong current password, a bad request when the new password matches the
     * current hash; each changes nothing. Otherwise the hash is replaced, every
     * refresh token of that user (and no other) is revoked, and a confirmation
     * is sent whose failure is swallowed.
     */
    method ChangePassword(userId: UserId, currentPassword: string, newPassword: string, now: Time,
                          outcome: SendOutcome)
      returns (r: Result<string, AuthError>)
      requires Valid()
      modifies db, mailer
      ensures Valid()
      ensures old(db.ReferencesIntact()) ==> db.ReferencesIntact()
      ensures db.emailVerificationTokens == old(db.emailVerificationTokens)
      ensures db.passwordResetTokens == old(db.passwordResetTokens)
      ensures db.loginHistory == old(db.loginHistory)
      ensures var found := FindUserById(old(db.users), userId);
        if found.None? then
          r == Err(NotFound(USER_NOT_FOUND)) && unchanged(db) && unchanged(mailer)
        else if !Compare(currentPassword, found.value.password) then
          r == Err(Unauthorized(WRONG_CURRENT_PASSWORD)) && unchanged(db) && unchanged(mailer)
        else if Compare(newPassword, found.value.password) then
          r == Err(BadRequest(SAME_PASSWORD)) && unchanged(db) && unchanged(mailer)
        else
          && r == Ok(PASSWORD_CHANGED)
          && db.users == UpdateUser(old(db.users), userId, SetPassword(Hash(newPassword)), now)
          && db.refreshTokens == WithoutUser(old(db.refreshTokens), userId)
          && mailer.attempts == old(mailer.attempts) + [PasswordChangedMail(found.value.email)]
    {
      var found := FindUserById(db.users, userId);
      if found.None? {
        return Err(NotFound(USER_NOT_FOUND));
      }
      var user := found.value;
      var isPasswordValid := Compare(currentPassword, user.password);
      if !isPasswordValid {
        return Err(Unauthorized(WRONG_CURRENT_PASSWORD));
      }
      var isSamePassword := Compare(newPassword, user.password);
      if isSamePassword {
        return Err(BadRequest(SAME_PASSWORD));
      }
      var hashedPassword := Hash(newPassword);

      db.UpdateUserRow(user.id, SetPassword(hashedPassword), now);
      db.DeleteRefreshTokensOf(user.id);

      mailer.SendPasswordChangedEmail(user.email, outcome);
      return Ok(PASSWORD_CHANGED);
    }
  }
}
