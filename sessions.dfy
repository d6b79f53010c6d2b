/**
 * The unusual-login rule: on every successful login the service looks up
 * the user's newest login from a different IP address, decides whether to
 * alert the user, records the login with that decision, and sends the alert.
 */
module Sessions {
  import opened Wrappers
  import opened Schema
  import opened Email

  /** Seven days in milliseconds: a differing-IP login must be older than this to alert. */
  const NOTIFY_AFTER_MS: int := 7 * DAY_MS

  /** The `where` clause of the history query: a login of `userId` from an IP other than `ipAddress`. */
  predicate Differing(r: LoginRecord, userId: UserId, ipAddress: string)
  {
    r.userId == userId && r.ipAddress != ipAddress
  }

  /**
   * `select().from(loginHistory).where(and(eq(userId), ne(ipAddress)))
   * .orderBy(desc(loginAt)).limit(1)`: a newest row of the user from another
   * IP, if there is one. The query leaves ties on `loginAt` open; this one
   * keeps the later row of the table, and the rule below reads only `loginAt`.
   */
  function LastDifferentLogin(history: seq<LoginRecord>, userId: UserId, ipAddress: string): (r: Option<LoginRecord>)
    ensures r.Some? ==> r.value in history && Differing(r.value, userId, ipAddress)
    ensures r.Some? ==> forall x :: x in history && Differing(x, userId, ipAddress) ==> x.loginAt <= r.value.loginAt
    ensures r.None? <==> forall x :: x in history ==> !Differing(x, userId, ipAddress)
  {
    if history == [] then None
    else
      var rest := LastDifferentLogin(history[1..], userId, ipAddress);
      if Differing(history[0], userId, ipAddress) && (rest.None? || rest.value.loginAt < history[0].loginAt)
      then Some(history[0])
      else rest
  }

  /**
   * `shouldSendLoginNotification`: no row, no alert; otherwise alert when
   * that row's IP differs from the current one and it is strictly more than
   * seven days old (the source's fractional day count compared with `> 7`).
   */
  predicate ShouldSendLoginNotification(lastLogin: Option<LoginRecord>, currentIp: string, now: Time)
    ensures ShouldSendLoginNotification(lastLogin, currentIp, now) ==> lastLogin.Some? && lastLogin.value.ipAddress != currentIp
    ensures lastLogin.Some? && now - lastLogin.value.loginAt <= NOTIFY_AFTER_MS ==> !ShouldSendLoginNotification(lastLogin, currentIp, now)
  {
    match lastLogin
    case None => false
    case Some(last) => last.ipAddress != currentIp && now - last.loginAt > NOTIFY_AFTER_MS
  }

  /** The decision `trackLogin` takes for a login of `userId` from `ipAddress` at `now`. */
  predicate IsUnusualLogin(history: seq<LoginRecord>, userId: UserId, ipAddress: string, now: Time)
    ensures IsUnusualLogin(history, userId, ipAddress, now) ==>
      exists x :: x in history && Differing(x, userId, ipAddress) && now - x.loginAt > NOTIFY_AFTER_MS
    ensures (forall x :: x in history ==> !Differing(x, userId, ipAddress)) ==> !IsUnusualLogin(history, userId, ipAddress, now)
  {
    ShouldSendLoginNotification(LastDifferentLogin(history, userId, ipAddress), ipAddress, now)
  }

  /**
   * The decision without the query: a login is unusual exactly when the user
   * has logged in from some other IP before, and every such login is
   * strictly more than seven days old.
   */
  lemma UnusualLoginIff(history: seq<LoginRecord>, userId: UserId, ipAddress: string, now: Time)
    ensures IsUnusualLogin(history, userId, ipAddress, now) <==>
      && (exists x :: x in history && Differing(x, userId, ipAddress))
      && (forall x :: x in history && Differing(x, userId, ipAddress) ==> now - x.loginAt > NOTIFY_AFTER_MS)
  {
    var last := LastDifferentLogin(history, userId, ipAddress);
    if last.Some? {
      assert last.value in history && Differing(last.value, userId, ipAddress);
    }
  }

  /** With no login of the user from another IP (a first login, or only this IP so far) there is no alert. */
  lemma NoDifferingLoginNoAlert(history: seq<LoginRecord>, userId: UserId, ipAddress: string, now: Time)
    requires forall x :: x in history && x.userId == userId ==> x.ipAddress == ipAddress
    ensures !IsUnusualLogin(history, userId, ipAddress, now)
  {
    UnusualLoginIff(history, userId, ipAddress, now);
  }

  /** The threshold is strict: a differing-IP login exactly seven days old does not alert. */
  lemma ExactlySevenDaysNoAlert(last: LoginRecord, currentIp: string, now: Time)
    requires now - last.loginAt == NOTIFY_AFTER_MS
    ensures !ShouldSendLoginNotification(Some(last), currentIp, now)
    ensures ShouldSendLoginNotification(Some(last), currentIp, now + 1) <==> last.ipAddress != currentIp
  {
  }

  /** Only the user's own rows are consulted: two histories that agree on them give the same decision. */
  lemma OnlyOwnHistoryMatters(h1: seq<LoginRecord>, h2: seq<LoginRecord>, userId: UserId, ipAddress: string, now: Time)
    requires forall x :: x in h1 && x.userId == userId ==> x in h2
    requires forall x :: x in h2 && x.userId == userId ==> x in h1
    ensures IsUnusualLogin(h1, userId, ipAddress, now) == IsUnusualLogin(h2, userId, ipAddress, now)
  {
    UnusualLoginIff(h1, userId, ipAddress, now);
    UnusualLoginIff(h2, userId, ipAddress, now);
  }

  /** In particular, another user's logins never change this user's decision. */
  lemma OtherUsersLoginsIgnored(history: seq<LoginRecord>, other: LoginRecord, userId: UserId, ipAddress: string, now: Time)
    requires other.userId != userId
    ensures IsUnusualLogin(history + [other], userId, ipAddress, now) == IsUnusualLogin(history, userId, ipAddress, now)
  {
    OnlyOwnHistoryMatters(history + [other], history, userId, ipAddress, now);
  }

  /**
   * A worked sequence of logins of one user, recorded as `trackLogin`
   * records them: IP A on day 0 and day 10, IP B on day 11, IP A on day 12,
   * then IP B on day 30. Only the last alerts: its newest differing-IP row is
   * the day-12 login from A, eighteen days earlier.
   */
  lemma WorkedHistory(u: UserId)
    ensures var a, b := "10.0.0.1", "10.0.0.2";
      var d0 := LoginRecord(u, a, "ua", 0, false);
      var d10 := LoginRecord(u, a, "ua", 10 * DAY_MS, false);
      var d11 := LoginRecord(u, b, "ua", 11 * DAY_MS, false);
      var d12 := LoginRecord(u, a, "ua", 12 * DAY_MS, false);
      && !IsUnusualLogin([], u, a, 0)
      && !IsUnusualLogin([d0], u, a, 10 * DAY_MS)
      && !IsUnusualLogin([d0, d10], u, b, 11 * DAY_MS)
      && !IsUnusualLogin([d0, d10, d11], u, a, 12 * DAY_MS)
      && IsUnusualLogin([d0, d10, d11, d12], u, b, 30 * DAY_MS)
  {
    var a, b := "10.0.0.1", "10.0.0.2";
    var d0 := LoginRecord(u, a, "ua", 0, false);
    var d10 := LoginRecord(u, a, "ua", 10 * DAY_MS, false);
    var d11 := LoginRecord(u, b, "ua", 11 * DAY_MS, false);
    var d12 := LoginRecord(u, a, "ua", 12 * DAY_MS, false);
    NoDifferingLoginNoAlert([d0], u, a, 10 * DAY_MS);
    UnusualLoginIff([d0, d10], u, b, 11 * DAY_MS);
    assert d10 in [d0, d10] && Differing(d10, u, b);
    UnusualLoginIff([d0, d10, d11], u, a, 12 * DAY_MS);
    assert d11 in [d0, d10, d11] && Differing(d11, u, a);
    UnusualLoginIff([d0, d10, d11, d12], u, b, 30 * DAY_MS);
    assert d12 in [d0, d10, d11, d12] && Differing(d12, u, b);
  }

  /** The sessions service and the store and mailer it shares with the authentication service. */
  class SessionsService {
    const db: Database
    const mailer: EmailService

    constructor (db: Database, mailer: EmailService)
      ensures this.db == db && this.mailer == mailer
    {
      this.db := db;
      this.mailer := mailer;
    }

    /**
     * `trackLogin`: decide, record one login row carrying the decision, and
     * alert the user when the decision is true. It never throws: when the
     * insert is refused (the user row is gone, so the foreign key fails) the
     * error is swallowed and nothing is recorded or sent; a failed alert is
     * swallowed by the mailer. No other table changes.
     */
    method TrackLogin(userId: UserId, ipAddress: string, userAgent: string, email: string, now: Time,
                      outcome: SendOutcome)
      requires db.Valid()
      modifies db, mailer
      ensures db.Valid()
      ensures old(db.ReferencesIntact()) ==> db.ReferencesIntact()
      ensures db.users == old(db.users)
      ensures db.emailVerificationTokens == old(db.emailVerificationTokens)
      ensures db.passwordResetTokens == old(db.passwordResetTokens)
      ensures db.refreshTokens == old(db.refreshTokens)
      ensures var notify := IsUnusualLogin(old(db.loginHistory), userId, ipAddress, now);
        if userId in UserIds(old(db.users)) then
          && db.loginHistory == old(db.loginHistory) + [LoginRecord(userId, ipAddress, userAgent, now, notify)]
          && mailer.attempts == old(mailer.attempts) +
             (if notify then [LoginNotificationMail(email, ipAddress, userAgent, now)] else [])
        else
          db.loginHistory == old(db.loginHistory) && mailer.attempts == old(mailer.attempts)
    {
      var lastDifferentLogin := LastDifferentLogin(db.loginHistory, userId, ipAddress);
      var shouldNotify := ShouldSendLoginNotification(lastDifferentLogin, ipAddress, now);
      if userId !in UserIds(db.users) {
        // the insert violates the foreign key; the catch-all swallows the error
        return;
      }
      var newLoginRecord := LoginRecord(userId, ipAddress, userAgent, now, shouldNotify);
      db.InsertLoginRecord(newLoginRecord);
      if shouldNotify {
        mailer.SendLoginNotification(email, ipAddress, userAgent, newLoginRecord.loginAt, outcome);
      }
    }
  }
}
