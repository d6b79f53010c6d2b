/**
 * Client flows over the authentication service: sequences of calls a user's
 * browser makes, and what the service promises about their outcomes. Each
 * flow is a method that drives the service and states the outcomes it is
 * guaranteed to see.
 */
module Scenarios {
  import opened Wrappers
  import opened Hashing
  import opened Schema
  import opened Email
  import opened Auth

  /**
   * Register, try to log in before verifying, verify within the day, log in
   * again. The first login is refused with the verify-first message, the
   * verification succeeds, and the second login succeeds for the new user,
   * whether or not the verification mail was delivered (the rows are
   * inserted before the send).
   */
  method RegisterVerifyLogin(auth: AuthService, email: string, password: string, now: Time, later: Time,
                             newUserId: UserId, verificationToken: Token, outcome: SendOutcome,
                             ipAddress: string, userAgent: string, minted: TokenPair)
    returns (early: Result<LoginResponse, AuthError>, verified: Result<string, AuthError>,
             late: Result<LoginResponse, AuthError>)
    requires auth.Valid()
    requires FindUserByEmail(auth.db.users, email).None?
    requires newUserId !in UserIds(auth.db.users)
    requires verificationToken !in auth.db.emailVerificationTokens
    requires minted.refreshToken !in auth.db.refreshTokens
    requires now <= later < now + VERIFICATION_TTL_MS
    modifies auth.db, auth.mailer
    ensures auth.Valid()
    ensures early == Err(Unauthorized(VERIFY_FIRST))
    ensures verified == Ok(EMAIL_VERIFIED)
    ensures late == Ok(LoginResponse(minted.accessToken, minted.refreshToken, PublicUser(newUserId, email, true)))
  {
    var registered := auth.Register(email, password, now, newUserId, verificationToken, outcome);
    var newUser := User(newUserId, email, Hash(password), false, now, now, None, None);
    FindUserByEmailExact(auth.db.users, newUser);
    ghost var row := VerificationToken(newUserId, verificationToken, now + VERIFICATION_TTL_MS, now);
    assert auth.db.emailVerificationTokens[verificationToken] == row;

    early := auth.Login(email, password, ipAddress, userAgent, now, minted, Delivered);
    assert early == Err(Unauthorized(VERIFY_FIRST));
    assert FindLive(auth.db.emailVerificationTokens, verificationToken, later) == Some(row);

    ghost var beforeVerify := auth.db.users;
    verified := auth.VerifyEmail(verificationToken, later);
    assert verified == Ok(EMAIL_VERIFIED);
    FindUserByEmailAfterUpdate(beforeVerify, newUserId, MarkVerified, later, email);
    assert FindUserByEmail(auth.db.users, email) == Some(Apply(newUser, MarkVerified, later));

    late := auth.Login(email, password, ipAddress, userAgent, later, minted, Delivered);
  }

  /**
   * Present a refresh token, then present the same token again. Rotation
   * deletes the presented row, so once the first call succeeds the replay is
   * refused, while the token issued by the first call is live.
   */
  method RefreshReplayRefused(auth: AuthService, token: Token, now: Time, first: TokenPair, second: TokenPair)
    returns (r1: Result<TokenPair, AuthError>, r2: Result<TokenPair, AuthError>)
    requires auth.Valid()
    requires first.refreshToken !in auth.db.refreshTokens
    requires second.refreshToken !in auth.db.refreshTokens && second.refreshToken != first.refreshToken
    modifies auth.db
    ensures auth.Valid()
    ensures r1.Ok? <==>
      FindLive(old(auth.db.refreshTokens), token, now).Some? &&
      FindLive(old(auth.db.refreshTokens), token, now).value.userId in UserIds(old(auth.db.users))
    ensures r1.Ok? ==> r2 == Err(Unauthorized(BAD_REFRESH_TOKEN))
    ensures r1.Ok? ==> FindLive(auth.db.refreshTokens, first.refreshToken, now).Some?
  {
    r1 := auth.RefreshAccessToken(token, now, first);
    r2 := auth.RefreshAccessToken(token, now, second);
  }

  /**
   * Redeem a reset token twice. The redeemed row is deleted, so once the
   * first redemption succeeds the second is a bad request.
   */
  method ResetTokenSingleUse(auth: AuthService, token: Token, firstPassword: string, secondPassword: string,
                             now: Time, o1: SendOutcome, o2: SendOutcome)
    returns (r1: Result<string, AuthError>, r2: Result<string, AuthError>)
    requires auth.Valid()
    modifies auth.db, auth.mailer
    ensures auth.Valid()
    ensures r1.Ok? ==> r2 == Err(BadRequest(BAD_RESET_TOKEN))
  {
    r1 := auth.ResetPassword(token, firstPassword, now, o1);
    r2 := auth.ResetPassword(token, secondPassword, now, o2);
  }

  /**
   * Ask for a reset link for a registered email and redeem it within the
   * hour: the reset succeeds, the user's hash becomes the new password's,
   * and every session of the user is revoked.
   */
  method RequestAndRedeemReset(auth: AuthService, u: User, newPassword: string,
                               now: Time, later: Time, resetToken: Token, o1: SendOutcome, o2: SendOutcome)
    returns (reset: Result<string, AuthError>)
    requires auth.Valid()
    requires u in auth.db.users
    requires resetToken !in auth.db.passwordResetTokens
    requires now <= later < now + RESET_TTL_MS
    modifies auth.db, auth.mailer
    ensures auth.Valid()
    ensures reset == Ok(PASSWORD_RESET)
    ensures auth.db.users == UpdateUser(old(auth.db.users), u.id, SetPassword(Hash(newPassword)), later)
    ensures forall t :: t in auth.db.refreshTokens ==> auth.db.refreshTokens[t].userId != u.id
    ensures FindUserByEmail(auth.db.users, u.email) == Some(Apply(u, SetPassword(Hash(newPassword)), later))
  {
    FindUserByEmailExact(auth.db.users, u);
    var _ := auth.ForgotPassword(u.email, now, resetToken, o1);
    assert FindLive(auth.db.passwordResetTokens, resetToken, later).Some?;
    assert FindLive(auth.db.passwordResetTokens, resetToken, later).value.userId == u.id;
    FindUserByIdExact(auth.db.users, u);
    ghost var beforeReset := auth.db.users;
    reset := auth.ResetPassword(resetToken, newPassword, later, o2);
    FindUserByEmailAfterUpdate(beforeReset, u.id, SetPassword(Hash(newPassword)), later, u.email);
  }

  /** After a reset through the emailed link, the old password no longer logs in. */
  method ForgotThenReset(auth: AuthService, email: string, oldPassword: string, newPassword: string,
                         now: Time, later: Time, resetToken: Token, o1: SendOutcome, o2: SendOutcome,
                         ipAddress: string, userAgent: string, minted: TokenPair)
    returns (reset: Result<string, AuthError>, login: Result<LoginResponse, AuthError>)
    requires auth.Valid()
    requires FindUserByEmail(auth.db.users, email).Some?
    requires resetToken !in auth.db.passwordResetTokens
    requires oldPassword != newPassword
    requires now <= later < now + RESET_TTL_MS
    modifies auth.db, auth.mailer
    ensures auth.Valid()
    ensures reset == Ok(PASSWORD_RESET)
    ensures login == Err(Unauthorized(INVALID_CREDENTIALS))
  {
    var u := FindUserByEmail(auth.db.users, email).value;
    reset := RequestAndRedeemReset(auth, u, newPassword, now, later, resetToken, o1, o2);
    login := auth.Login(email, oldPassword, ipAddress, userAgent, later, minted, Delivered);
  }

  /**
   * Change the password, then present a refresh token the user held before.
   * Every refresh token of the user was revoked, so the refresh is refused.
   */
  method ChangePasswordSignsOut(auth: AuthService, userId: UserId, currentPassword: string, newPassword: string,
                                now: Time, outcome: SendOutcome, heldToken: Token, minted: TokenPair)
    returns (changed: Result<string, AuthError>, refreshed: Result<TokenPair, AuthError>)
    requires auth.Valid()
    requires heldToken in auth.db.refreshTokens && auth.db.refreshTokens[heldToken].userId == userId
    requires minted.refreshToken !in auth.db.refreshTokens
    modifies auth.db, auth.mailer
    ensures auth.Valid()
    ensures changed.Ok? ==> refreshed == Err(Unauthorized(BAD_REFRESH_TOKEN))
  {
    changed := auth.ChangePassword(userId, currentPassword, newPassword, now, outcome);
    refreshed := auth.RefreshAccessToken(heldToken, now, minted);
  }

  /** Logging out twice with the same token leaves the store as logging out once did. */
  method LogoutTwice(auth: AuthService, token: Option<Token>) returns (m1: string, m2: string)
    requires auth.Valid()
    modifies auth.db
    ensures auth.Valid()
    ensures m1 == LOGGED_OUT && m2 == LOGGED_OUT
    ensures token.Some? && token.value != "" ==> token.value !in auth.db.refreshTokens
    ensures auth.db.refreshTokens ==
      if token.None? || token.value == "" then old(auth.db.refreshTokens)
      else old(auth.db.refreshTokens) - {token.value}
  {
    m1 := auth.Logout(token);
    ghost var once := auth.db.refreshTokens;
    m2 := auth.Logout(token);
    assert auth.db.refreshTokens == once;
  }

  /**
   * The generic reset message hides whether an account exists only while
   * mail is delivered: when the transport fails (as every send does without
   * an API key) a registered email gets the rethrown error and an unknown
   * one the generic message.
   */
  method FailedResetMailRevealsAccount(auth: AuthService, known: string, unknown: string, now: Time,
                                       resetToken: Token)
    returns (forUnknown: Result<string, AuthError>, forKnown: Result<string, AuthError>)
    requires auth.Valid()
    requires FindUserByEmail(auth.db.users, known).Some? && FindUserByEmail(auth.db.users, unknown).None?
    requires resetToken !in auth.db.passwordResetTokens
    modifies auth.db, auth.mailer
    ensures auth.Valid()
    ensures forUnknown == Ok(RESET_LINK_SENT)
    ensures forKnown == Err(DeliveryFailed)
  {
    forUnknown := auth.ForgotPassword(unknown, now, resetToken, TransportFailed);
    forKnown := auth.ForgotPassword(known, now, resetToken, TransportFailed);
  }

  /**
   * The signed refresh token depends only on the user and the second of
   * issue, so a refresh within the second its token was issued in mints the
   * presented token again. The row is deleted and re-inserted under the same
   * string, and a replay of that token is then accepted again.
   */
  method SameSecondRefreshReplayAccepted(auth: AuthService, token: Token, now: Time, reissued: TokenPair)
    returns (r1: Result<TokenPair, AuthError>, r2: Result<TokenPair, AuthError>)
    requires auth.Valid()
    requires reissued.refreshToken == token
    requires FindLive(auth.db.refreshTokens, token, now).Some?
    requires FindLive(auth.db.refreshTokens, token, now).value.userId in UserIds(auth.db.users)
    modifies auth.db
    ensures auth.Valid()
    ensures r1 == Ok(reissued) && r2 == Ok(reissued)
    ensures FindLive(auth.db.refreshTokens, token, now).Some?
  {
    r1 := auth.RefreshAccessToken(token, now, reissued);
    r2 := auth.RefreshAccessToken(token, now, reissued);
  }

  /**
   * Two logins of one verified user within the same second are signed with
   * the same refresh token: the first succeeds, the second fails on the
   * unique token column, but only after it recorded its login-history row.
   */
  method SameSecondLoginFails(auth: AuthService, email: string, password: string, ipAddress: string,
                              userAgent: string, now: Time, minted: TokenPair, o1: SendOutcome, o2: SendOutcome)
    returns (first: Result<LoginResponse, AuthError>, second: Result<LoginResponse, AuthError>)
    requires auth.Valid()
    requires FindUserByEmail(auth.db.users, email).Some?
    requires Compare(password, FindUserByEmail(auth.db.users, email).value.password)
    requires FindUserByEmail(auth.db.users, email).value.isVerified
    requires minted.refreshToken !in auth.db.refreshTokens
    modifies auth.db, auth.mailer
    ensures auth.Valid()
    ensures first.Ok? && first.value.refreshToken == minted.refreshToken
    ensures second == Err(DuplicateToken)
    ensures |auth.db.loginHistory| == |old(auth.db.loginHistory)| + 2
  {
    var u := FindUserByEmail(auth.db.users, email).value;
    ghost var beforeFirst := auth.db.users;
    first := auth.Login(email, password, ipAddress, userAgent, now, minted, o1);
    FindUserByEmailAfterUpdate(beforeFirst, u.id, RecordLogin(ipAddress), now, email);
    second := auth.Login(email, password, ipAddress, userAgent, now, minted, o2);
  }
}
