/**
 * The cross-origin admission rule of the HTTP server: which request origins
 * the `origin` callback passed to `enableCors` admits.
 */
module Cors {
  import opened Wrappers

  const LOCALHOST_PORT_PREFIX := "http://localhost:"
  const LISTED_ORIGINS: seq<string> := ["http://localhost:3000", "http://localhost:3001", "http://localhost:3002"]
  const CORS_ERROR := "Not allowed by CORS"

  /** What the callback reports: admitted, or the error it passes instead. */
  datatype Decision = Allow | Deny(message: string)

  /** The class `\d` of a JavaScript regular expression without the `u` flag. */
  predicate IsDigit(c: char)
  {
    '0' <= c <= '9'
  }

  /** `\d+$` matched from the start of `s`: one or more digits and nothing after them. */
  predicate DigitsToEnd(s: string)
  {
    s != [] && IsDigit(s[0]) && (|s| == 1 || DigitsToEnd(s[1..]))
  }

  /** `/^http:\/\/localhost:\d+$/.test(origin)` */
  predicate MatchesLocalhostPort(origin: string)
    ensures MatchesLocalhostPort(origin) ==>
      |origin| > |LOCALHOST_PORT_PREFIX| && origin[..|LOCALHOST_PORT_PREFIX|] == LOCALHOST_PORT_PREFIX && IsDigit(origin[|origin| - 1])
  {
    LOCALHOST_PORT_PREFIX <= origin &&
      var port := origin[|LOCALHOST_PORT_PREFIX|..];
      DigitsToEndIsPort(port);
      DigitsToEnd(port)
  }

  /** A non-empty run of decimal digits. */
  ghost predicate IsPort(port: string)
  {
    |port| > 0 && forall i :: 0 <= i < |port| ==> IsDigit(port[i])
  }

  lemma {:induction false} DigitsToEndIsPort(s: string)
    ensures DigitsToEnd(s) <==> IsPort(s)
  {
    if |s| > 1 {
      DigitsToEndIsPort(s[1..]);
      if IsPort(s) {
        assert IsPort(s[1..]) by {
          forall i | 0 <= i < |s| - 1 ensures IsDigit(s[1..][i]) {
            assert s[1..][i] == s[i + 1];
          }
        }
      }
      if IsDigit(s[0]) && IsPort(s[1..]) {
        forall i | 0 <= i < |s| ensures IsDigit(s[i]) {
          if i > 0 {
            assert s[i] == s[1..][i - 1];
          }
        }
      }
    }
  }

  /** The anchored pattern accepts exactly the prefix followed by a non-empty port and nothing else. */
  lemma LocalhostPortPattern(origin: string)
    ensures MatchesLocalhostPort(origin) <==>
      exists port :: IsPort(port) && origin == LOCALHOST_PORT_PREFIX + port
  {
    if LOCALHOST_PORT_PREFIX <= origin {
      var port := origin[|LOCALHOST_PORT_PREFIX|..];
      assert origin == LOCALHOST_PORT_PREFIX + port;
      DigitsToEndIsPort(port);
    }
    if exists port :: IsPort(port) && origin == LOCALHOST_PORT_PREFIX + port {
      var port :| IsPort(port) && origin == LOCALHOST_PORT_PREFIX + port;
      assert origin[|LOCALHOST_PORT_PREFIX|..] == port;
      DigitsToEndIsPort(port);
    }
  }

  /**
   * The `origin` callback: `!origin || allowedOrigins.includes(origin) ||
   * /^http:\/\/localhost:\d+$/.test(origin)`, where `allowedOrigins` is the
   * configured `FRONTEND_URL` (possibly unset) and the three listed URLs. An
   * empty origin string is falsy, so it is admitted like an absent one.
   */
  function AdmitOrigin(frontendUrl: Option<string>, origin: Option<string>): (d: Decision)
    ensures d == Allow || d == Deny(CORS_ERROR)
  {
    match origin
    case None => Allow
    case Some(o) =>
      if o == "" || Some(o) == frontendUrl || o in LISTED_ORIGINS || MatchesLocalhostPort(o) then Allow
      else Deny(CORS_ERROR)
  }

  /**
   * An origin is admitted exactly when it is absent or empty, equals the
   * configured front-end URL, is one of the three listed URLs, or is
   * `http://localhost:` followed by a non-empty port; every other origin gets
   * the CORS error.
   */
  lemma AdmitOriginIff(frontendUrl: Option<string>, origin: Option<string>)
    ensures AdmitOrigin(frontendUrl, origin) == Allow <==>
      || origin.None?
      || origin.value == ""
      || origin == frontendUrl
      || origin.value in LISTED_ORIGINS
      || exists port :: IsPort(port) && origin.value == LOCALHOST_PORT_PREFIX + port
    ensures AdmitOrigin(frontendUrl, origin) != Allow ==> AdmitOrigin(frontendUrl, origin) == Deny(CORS_ERROR)
  {
    if origin.Some? {
      LocalhostPortPattern(origin.value);
    }
  }

  /** Any local development server port is admitted, whatever the configuration. */
  lemma LocalhostPortAdmitted(frontendUrl: Option<string>, port: string)
    requires IsPort(port)
    ensures AdmitOrigin(frontendUrl, Some(LOCALHOST_PORT_PREFIX + port)) == Allow
  {
    LocalhostPortPattern(LOCALHOST_PORT_PREFIX + port);
  }

  /** The pattern needs at least one port digit, and the plain-http scheme. */
  lemma PatternEdgeCases()
    ensures !MatchesLocalhostPort("http://localhost:")
    ensures !MatchesLocalhostPort("https://localhost:3000")
    ensures MatchesLocalhostPort("http://localhost:5173")
  {
    assert !DigitsToEnd("http://localhost:"[|LOCALHOST_PORT_PREFIX|..]);
    assert "https://localhost:3000"[4] != LOCALHOST_PORT_PREFIX[4];
    assert "http://localhost:5173"[|LOCALHOST_PORT_PREFIX|..] == "5173";
    DigitsToEndIsPort("5173");
  }

  /** So `http://localhost:` and `https://localhost:3000` are refused unless configured as the front end. */
  lemma EdgeOriginsRefused(frontendUrl: Option<string>)
    requires frontendUrl != Some("http://localhost:") && frontendUrl != Some("https://localhost:3000")
    ensures AdmitOrigin(frontendUrl, Some("http://localhost:")) == Deny(CORS_ERROR)
    ensures AdmitOrigin(frontendUrl, Some("https://localhost:3000")) == Deny(CORS_ERROR)
  {
    PatternEdgeCases();
  }
}
