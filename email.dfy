/**
 * The e-mail service: the links it builds into the verification and reset
 * messages, and what each of its four send operations does when the
 * transport fails. The transport itself (and the HTML templates) is an
 * abstract outcome supplied by the caller.
 */
module Email {
  import opened Wrappers
  import opened Schema

  const VERIFY_EMAIL_PATH := "/auth/verify-email?token="
  const RESET_PASSWORD_PATH := "/reset-password?token="

  /** What a reader of a link recovers by stripping a known prefix from it. */
  function StripPrefix(prefix: string, link: string): (r: Option<string>)
    ensures r.Some? <==> prefix <= link
    ensures r.Some? ==> link == prefix + r.value
  {
    if prefix <= link then Some(link[|prefix|..]) else None
  }

  /**
   * The link in the verification message: `${APP_URL}/auth/verify-email?token=${token}`.
   * Stripping `APP_URL + "/auth/verify-email?token="` from it recovers the token.
   */
  function VerificationLink(appUrl: string, token: Token): (link: string)
    ensures StripPrefix(appUrl + VERIFY_EMAIL_PATH, link) == Some(token)
  {
    var prefix := appUrl + VERIFY_EMAIL_PATH;
    assert (prefix + token)[|prefix|..] == token;
    prefix + token
  }

  /**
   * The link in the reset message: `${FRONTEND_URL}/reset-password?token=${token}`.
   * Stripping `FRONTEND_URL + "/reset-password?token="` from it recovers the token.
   */
  function ResetLink(frontendUrl: string, token: Token): (link: string)
    ensures StripPrefix(frontendUrl + RESET_PASSWORD_PATH, link) == Some(token)
  {
    var prefix := frontendUrl + RESET_PASSWORD_PATH;
    assert (prefix + token)[|prefix|..] == token;
    prefix + token
  }

  /** Under one configured URL, distinct tokens give distinct links of either kind. */
  lemma LinksDistinguishTokens(url: string, t1: Token, t2: Token)
    ensures VerificationLink(url, t1) == VerificationLink(url, t2) ==> t1 == t2
    ensures ResetLink(url, t1) == ResetLink(url, t2) ==> t1 == t2
  {
  }

  /** A message handed to the transport, with its kind-specific data. */
  datatype Mail =
    | VerificationMail(to: string, link: string)
    | PasswordResetMail(to: string, link: string)
    | LoginNotificationMail(to: string, ipAddress: string, userAgent: string, timestamp: Time)
    | PasswordChangedMail(to: string)

  /**
   * How the call to the transport ended: `TransportFailed` when the call threw
   * (a missing API key makes every send throw). An error the transport returns
   * as a value is not inspected by the service, so such a send counts as
   * `Delivered`.
   */
  datatype SendOutcome = Delivered | TransportFailed

  /**
   * The failure policy: whether a send of `mail` that ended in `outcome`
   * throws to the caller. Only the two messages carrying a link rethrow a
   * transport failure; the login notification and the password-changed
   * confirmation log it and complete normally.
   */
  function Throws(mail: Mail, outcome: SendOutcome): (thrown: bool)
    ensures outcome == Delivered ==> !thrown
    ensures mail.LoginNotificationMail? || mail.PasswordChangedMail? ==> !thrown
    ensures outcome == TransportFailed && (mail.VerificationMail? || mail.PasswordResetMail?) ==> thrown
  {
    match mail
    case VerificationMail(_, _) => outcome == TransportFailed
    case PasswordResetMail(_, _) => outcome == TransportFailed
    case LoginNotificationMail(_, _, _, _) => false
    case PasswordChangedMail(_) => false
  }

  /** The e-mail service, with its configuration and the messages it has handed to the transport. */
  class EmailService {
    /** `APP_URL`, the base of verification links. */
    const appUrl: string
    /** `FRONTEND_URL`, the base of reset links. */
    const frontendUrl: string
    /** Every message handed to the transport so far, whatever the outcome. */
    var attempts: seq<Mail>

    constructor (appUrl: string, frontendUrl: string)
      ensures this.appUrl == appUrl && this.frontendUrl == frontendUrl
      ensures attempts == []
    {
      this.appUrl := appUrl;
      this.frontendUrl := frontendUrl;
      attempts := [];
    }

    /** Sends the verification link; a transport failure is rethrown. */
    method SendVerificationEmail(email: string, token: Token, outcome: SendOutcome) returns (thrown: bool)
      modifies this
      ensures attempts == old(attempts) + [VerificationMail(email, VerificationLink(appUrl, token))]
      ensures thrown <==> outcome == TransportFailed
    {
      var mail := VerificationMail(email, VerificationLink(appUrl, token));
      attempts := attempts + [mail];
      thrown := Throws(mail, outcome);
    }

    /** Sends the reset link; a transport failure is rethrown. */
    method SendPasswordResetEmail(email: string, token: Token, outcome: SendOutcome) returns (thrown: bool)
      modifies this
      ensures attempts == old(attempts) + [PasswordResetMail(email, ResetLink(frontendUrl, token))]
      ensures thrown <==> outcome == TransportFailed
    {
      var mail := PasswordResetMail(email, ResetLink(frontendUrl, token));
      attempts := attempts + [mail];
      thrown := Throws(mail, outcome);
    }

    /** Sends the unusual-login alert; a transport failure is logged and swallowed. */
    method SendLoginNotification(email: string, ipAddress: string, userAgent: string, timestamp: Time,
                                 outcome: SendOutcome)
      modifies this
      ensures attempts == old(attempts) + [LoginNotificationMail(email, ipAddress, userAgent, timestamp)]
    {
      var mail := LoginNotificationMail(email, ipAddress, userAgent, timestamp);
      attempts := attempts + [mail];
      var thrown := Throws(mail, outcome);
      assert !thrown;
    }

    /** Sends the password-changed confirmation; a transport failure is logged and swallowed. */
    method SendPasswordChangedEmail(email: string, outcome: SendOutcome)
      modifies this
      ensures attempts == old(attempts) + [PasswordChangedMail(email)]
    {
      var mail := PasswordChangedMail(email);
      attempts := attempts + [mail];
      var thrown := Throws(mail, outcome);
      assert !thrown;
    }
  }
}
