# Credential and session lifecycle of the Sentinel AI backend, in Dafny

This project models the account core of the NestJS backend: the authentication
service (register, e-mail verification, login, refresh-token rotation, logout,
forgot/reset/change password), the sessions service's unusual-login rule, the
five authentication tables with their keys and cascades, the e-mail service's
links and send-failure policy, and the CORS origin check of the HTTP server.

The store is a `Database` class with one field per table: `users` is a
sequence of rows, and the three token tables are maps keyed by their unique
`token` column. Each write statement the services issue is one `Database`
method that touches one table, and every service operation is a method that
runs the same reads and writes in the same order as the source. Each method
states its outcome branch by branch: the error it raises and that nothing
changed, or the exact new contents of every table and of the mail log.

- Modules: `Wrappers`, `Hashing`, `Schema`, `Email`, `Cors`, `Sessions`,
  `Auth`, and `Scenarios`. `Scenarios` holds client flows that chain
  operations: register then verify then log in, replay of a rotated refresh
  token, a second redemption of a reset token, sign-out everywhere after a
  password change, logging out twice, and two logins or refreshes within the
  same second.
- Time is an integer number of milliseconds. Every operation takes `now`
  explicitly.
- bcrypt is an abstract hash `Hash`. `Compare(pw, Hash(pw'))` holds exactly
  when `pw == pw'` (the contract of `Hashing.Hash`).
- New user ids and uuid tokens are parameters, each with a `requires` that the
  value is not already in its table. The JWT pair that `generateTokens` signs
  is a parameter too, with no such `requires`: it holds only the user id, the
  email and second-resolution `iat`/`exp` claims, so it repeats within one
  second, and the model handles a minted refresh token that is already in the
  table as the source does.
- The mail transport's outcome is a parameter (`SendOutcome`). `EmailService`
  records every message it hands to the transport.
- The structural constraints are `Database.Valid()`: unique user ids and
  e-mails, each token table keyed by its unique token and holding only its own
  kind of row, and at most one reset token per user. The last is not declared
  by the schema: it holds because `forgotPassword` deletes the user's reset
  tokens before inserting one. Every operation preserves all of them.
- The foreign keys are a separate predicate, `Database.ReferencesIntact()`.
  Every operation preserves it as well. It is kept out of `Valid()` so that
  the source's "user vanished" branches stay reachable in the model:
  `Unauthorized("User not found")` in refresh, and `NotFound` in reset.

In the worked history (`Sessions.WorkedHistory`), the day-11 login from IP B is
compared with the day-10 login from IP A, which the query at
`sessions.service.ts:24-29` finds. That row is one day old, so there is no
alert. The day-30 login from B is compared with the day-12 login from A. That
row is eighteen days old, so the login alerts.

Two logins of one user within the same second mint the same refresh token.
The second login records its history row and last-login columns, and then
its refresh-token insert fails on the unique `token` column, so the request
fails (`Scenarios.SameSecondLoginFails`). A refresh within the second its
token was issued re-mints the presented token: the row is deleted and
re-inserted, and a replay of that token in the same second succeeds again
(`Scenarios.SameSecondRefreshReplayAccepted`).

The model also shows that a failed reset e-mail breaks the "do not reveal
whether the account exists" promise of `forgotPassword`. The send error is
rethrown after the token row was inserted. So with a failing transport, a
registered address gets the error and an unknown address gets the generic
message (`Scenarios.FailedResetMailRevealsAccount`). This is the code as
written, and the model keeps that behaviour.

## Model

| member | source | states |
|---|---|---|
| Hashing.Hash | backend/src/auth/auth.service.ts:54 | the stored hash is accepted by the comparison of auth.service.ts:139 for exactly the password it was made from |
| Schema.FindUserByEmail | backend/src/auth/auth.service.ts:43-47 | the email lookup finds a row of the table carrying that email, and finds nothing exactly when no row carries it |
| Schema.FindUserById | backend/src/auth/auth.service.ts:211-215 | the id lookup finds a row carrying that id, and finds nothing exactly when the id is not in the table |
| Schema.Apply | backend/src/auth/auth.service.ts:103-106 | an update keeps the id, email and creation time, stamps updatedAt with now, and changes only the columns of its kind: isVerified for verification, the two last-login columns for a login, the hash for a password change |
| Schema.UpdateUser | backend/src/auth/auth.service.ts:103-106 | an update by id keeps the table's length, rewrites exactly the rows with that id, and leaves every other row as it was |
| Schema.UpdateUserKeepsKeys | backend/src/database/schema.ts:17-19 | an update by id keeps the set of user ids and keeps ids and emails unique |
| Schema.InsertUserKeepsKeys | backend/src/database/schema.ts:17-19 | inserting a user with a fresh id and an unused email keeps ids and emails unique and adds exactly that id |
| Schema.FindUserByEmailExact | backend/src/database/schema.ts:19 | with unique emails, the lookup by a row's email returns exactly that row |
| Schema.FindUserByIdExact | backend/src/database/schema.ts:18 | with unique ids, the lookup by a row's id returns exactly that row |
| Schema.FindUserByEmailAfterUpdate | backend/src/auth/auth.service.ts:155-162 | after an update by id, the email lookup returns the same row as before, with the change applied if it is the updated user |
| Schema.Filter | backend/src/database/schema.ts:33-35 | a cascade delete keeps every row that satisfies the condition as many times as it occurred, and no other row |
| Schema.FilterKeepsUsersUnique | backend/src/database/schema.ts:17-19 | deleting user rows keeps ids and emails unique |
| Schema.FindLiveIsQuery | backend/src/auth/auth.service.ts:87-96 | the keyed lookup finds a row exactly when some row has the token and expires strictly after now, and then it returns that row |
| Schema.WithoutUser | backend/src/auth/auth.service.ts:344-346 | deleting by user id removes exactly that user's rows and leaves every other row as it was |
| Schema.Database.constructor | backend/src/database/schema.ts:17-75 | the empty store satisfies every key and reference constraint |
| Schema.Database.InsertUser | backend/src/auth/auth.service.ts:57-64 | appends exactly one user with a fresh id and an unused email, keeps the keys unique, and changes no other table |
| Schema.Database.UpdateUserRow | backend/src/auth/auth.service.ts:155-162 | users become the by-id update of the old users, the set of ids is unchanged, and the constraints hold |
| Schema.Database.InsertVerificationToken | backend/src/auth/auth.service.ts:71-75 | adds exactly one verification row under its fresh token for an existing user |
| Schema.Database.DeleteVerificationToken | backend/src/auth/auth.service.ts:109-111 | removes exactly the row carrying that token |
| Schema.Database.InsertResetToken | backend/src/auth/auth.service.ts:283-287 | adds exactly one reset row for a user who has none, keeping one reset token per user |
| Schema.Database.DeleteResetToken | backend/src/auth/auth.service.ts:339-341 | removes exactly the redeemed reset row |
| Schema.Database.DeleteResetTokensOf | backend/src/auth/auth.service.ts:278-280 | removes exactly the reset rows of that user |
| Schema.Database.InsertRefreshToken | backend/src/auth/auth.service.ts:171-177 | adds exactly one refresh row under its fresh token for an existing user |
| Schema.Database.DeleteRefreshToken | backend/src/auth/auth.service.ts:244-249 | removes exactly the rows whose token equals the argument |
| Schema.Database.DeleteRefreshTokensOf | backend/src/auth/auth.service.ts:397-400 | removes exactly that user's refresh rows and keeps every other user's |
| Schema.Database.InsertLoginRecord | backend/src/sessions/sessions.service.ts:38-46 | appends exactly one history row for an existing user and leaves existing rows unchanged |
| Schema.Database.DeleteUser | backend/src/database/schema.ts:31-75 | deleting a user removes that user's row and, by cascade, exactly that user's rows in all four dependent tables; the other users and the other login-history rows stay in order with their multiplicity |
| Email.VerificationLink | backend/src/email/email.service.ts:33-34 | stripping APP_URL + "/auth/verify-email?token=" from the verification link yields the token |
| Email.ResetLink | backend/src/email/email.service.ts:59-60 | stripping FRONTEND_URL + "/reset-password?token=" from the reset link yields the token |
| Email.StripPrefix | backend/src/email/email.service.ts:33-34 | stripping succeeds exactly when the link starts with the prefix, and the prefix plus the remainder is the link |
| Email.LinksDistinguishTokens | backend/src/email/email.service.ts:33-60 | under one base URL, distinct tokens give distinct verification links and distinct reset links |
| Email.EmailService.constructor | backend/src/email/email.service.ts:15-27 | the service starts with its configured URLs and no messages sent |
| Email.EmailService.SendVerificationEmail | backend/src/email/email.service.ts:29-53 | hands exactly the verification mail with the APP_URL link to the transport, and throws exactly when the transport failed |
| Email.EmailService.SendPasswordResetEmail | backend/src/email/email.service.ts:55-79 | hands exactly the reset mail with the FRONTEND_URL link to the transport, and throws exactly when the transport failed |
| Email.EmailService.SendLoginNotification | backend/src/email/email.service.ts:81-106 | hands exactly the notification to the transport and never throws |
| Email.EmailService.SendPasswordChangedEmail | backend/src/email/email.service.ts:108-126 | hands exactly the confirmation to the transport and never throws |
| Cors.AdmitOrigin | backend/src/main.ts:18-37 | the callback either admits the origin or reports exactly the "Not allowed by CORS" error |
| Cors.MatchesLocalhostPort | backend/src/main.ts:31 | a matching origin starts with "http://localhost:", is longer than that prefix and ends in a digit |
| Cors.DigitsToEndIsPort | backend/src/main.ts:31 | the anchored `\d+$` accepts a string exactly when it is a non-empty run of decimal digits |
| Cors.LocalhostPortPattern | backend/src/main.ts:31 | the pattern accepts exactly "http://localhost:" followed by a non-empty port |
| Cors.AdmitOriginIff | backend/src/main.ts:22-36 | an origin is admitted exactly when it is absent or empty, equals FRONTEND_URL, is one of the three listed URLs, or is a localhost port; every other origin gets the CORS error |
| Cors.LocalhostPortAdmitted | backend/src/main.ts:31 | any "http://localhost:<digits>" origin is admitted whatever the configuration |
| Cors.PatternEdgeCases | backend/src/main.ts:31 | "http://localhost:" and "https://localhost:3000" do not match the pattern, and "http://localhost:5173" does |
| Cors.EdgeOriginsRefused | backend/src/main.ts:28-36 | unless configured as the front end, those two origins are refused with the CORS error |
| Sessions.LastDifferentLogin | backend/src/sessions/sessions.service.ts:24-29 | the query returns a row of this user from another IP that is not older than any other such row, and returns nothing exactly when there is no such row |
| Sessions.ShouldSendLoginNotification | backend/src/sessions/sessions.service.ts:68-88 | an alert needs an earlier login from another IP, and a login at most seven days old never alerts |
| Sessions.IsUnusualLogin | backend/src/sessions/sessions.service.ts:24-35 | an alerting login has an earlier login of the user from another IP more than seven days old, and a user with no login from another IP is never alerted |
| Sessions.UnusualLoginIff | backend/src/sessions/sessions.service.ts:68-87 | a login alerts exactly when the user has logged in from another IP before and every such login is strictly more than seven days old |
| Sessions.NoDifferingLoginNoAlert | backend/src/sessions/sessions.service.ts:72-75 | with no earlier login of the user from another IP, no alert is decided |
| Sessions.ExactlySevenDaysNoAlert | backend/src/sessions/sessions.service.ts:81-87 | a differing-IP login exactly seven days old does not alert, and one millisecond later it does |
| Sessions.OnlyOwnHistoryMatters | backend/src/sessions/sessions.service.ts:27 | two histories that agree on this user's rows give the same decision |
| Sessions.OtherUsersLoginsIgnored | backend/src/sessions/sessions.service.ts:27 | adding another user's login never changes this user's decision |
| Sessions.WorkedHistory | backend/src/sessions/sessions.service.ts:16-88 | logins from A on days 0 and 10, B on day 11, A on day 12 and B on day 30: only the day-30 login alerts |
| Sessions.SessionsService.constructor | backend/src/sessions/sessions.service.ts:11-14 | the service shares the given store and mailer |
| Sessions.SessionsService.TrackLogin | backend/src/sessions/sessions.service.ts:16-66 | for an existing user, appends exactly one row (user, IP, agent, now, the decision) and sends the alert, stamped with that row's login time, exactly when the decision is true; otherwise the failed insert is swallowed and nothing changes; no other table changes and nothing is raised |
| Auth.AuthService.constructor | backend/src/auth/auth.service.ts:31-37 | the service and its sessions service share one store and one mailer |
| Auth.AuthService.Register | backend/src/auth/auth.service.ts:39-84 | a taken email is a Conflict with no change; otherwise exactly one unverified user with the hashed password and exactly one verification token expiring at now + 24h are inserted, then the link is sent, and a failed send is raised with both rows left in place |
| Auth.AuthService.VerifyEmail | backend/src/auth/auth.service.ts:86-114 | a token with no row expiring after now is a BadRequest with no change; otherwise the owner is marked verified and exactly that token row is deleted |
| Auth.AuthService.Login | backend/src/auth/auth.service.ts:116-188 | an unknown email and a wrong password give the same Unauthorized("Invalid credentials"); an unverified account is refused only after its password matched; failures change nothing; on success one history row is tracked and the last-login columns are set; then a minted refresh token already in the table fails with DuplicateToken and no refresh row added, and otherwise exactly one refresh row with the caller's IP and agent expiring at now + 7d is inserted and only id, email and isVerified are returned |
| Auth.AuthService.SignIn | backend/src/auth/auth.service.ts:151-187 | for a verified user, tracks the login, sets the last-login columns, and then either fails with DuplicateToken on an existing refresh token or inserts the new refresh row and returns the tokens and public user |
| Auth.AuthService.RefreshAccessToken | backend/src/auth/auth.service.ts:190-242 | a missing or expired token, or one whose user is gone, is Unauthorized with no change; otherwise the presented row is deleted, and a new token already held by another row fails with DuplicateToken, while any other new token, including the presented one re-minted, gets one new row with the same user, IP and agent expiring at now + 7d |
| Auth.AuthService.Logout | backend/src/auth/auth.service.ts:244-252 | always returns the same message; a non-empty token removes exactly the rows carrying it, and an absent or empty one changes nothing |
| Auth.AuthService.ForgotPassword | backend/src/auth/auth.service.ts:254-295 | an unknown email gets the generic message with no change; a known user is left with exactly one reset token, expiring at now + 1h, which is mailed; a failed send is raised after the insert |
| Auth.AuthService.ResetPassword | backend/src/auth/auth.service.ts:297-352 | a missing or expired token is a BadRequest and a vanished user is NotFound, both with no change; otherwise the hash is replaced, the redeemed token and every refresh token of that user (and no other's) are deleted, and the confirmation is sent without raising |
| Auth.AuthService.ChangePassword | backend/src/auth/auth.service.ts:354-408 | an unknown user is NotFound, a wrong current password Unauthorized, a new password equal to the current one a BadRequest, each with no change; otherwise the hash is replaced, every refresh token of that user (and no other's) is deleted, and the confirmation is sent without raising |
| Scenarios.RegisterVerifyLogin | backend/src/auth/auth.service.ts:39-188 | after registering, login is refused with "Please verify your email" until the token is redeemed within the day, then succeeds for the new user, whether or not the mail was delivered |
| Scenarios.RefreshReplayRefused | backend/src/auth/auth.service.ts:190-242 | once a refresh succeeds, presenting the same token again is Unauthorized, and the newly issued token is live |
| Scenarios.ResetTokenSingleUse | backend/src/auth/auth.service.ts:297-352 | once a reset token has been redeemed, redeeming it again is a BadRequest |
| Scenarios.RequestAndRedeemReset | backend/src/auth/auth.service.ts:254-352 | a reset link redeemed within the hour succeeds, sets the new hash and revokes every session of the user |
| Scenarios.ForgotThenReset | backend/src/auth/auth.service.ts:254-352 | after such a reset the old password gets "Invalid credentials" |
| Scenarios.ChangePasswordSignsOut | backend/src/auth/auth.service.ts:354-408 | after a successful password change, any refresh token the user held before is refused |
| Scenarios.LogoutTwice | backend/src/auth/auth.service.ts:244-252 | logging out twice with one token leaves the store as logging out once does |
| Scenarios.SameSecondLoginFails | backend/src/auth/auth.service.ts:116-188 | a second login minting the same token as the first fails with DuplicateToken, after both logins recorded a history row |
| Scenarios.SameSecondRefreshReplayAccepted | backend/src/auth/auth.service.ts:190-242 | when the refresh re-mints the presented token, presenting it again succeeds and the token stays live |
| Scenarios.FailedResetMailRevealsAccount | backend/src/auth/auth.service.ts:254-295 | with a failing transport, an unknown email gets the generic message and a registered one the delivery error |

## Left out

- JWT signing (`generateTokens`) and its secrets and lifetimes are not modelled. The signed pair is a parameter. Refresh validity is decided by the table lookup alone, as in the source.
- bcrypt's salt and cost factor are not modelled. The hash is an injective abstract `Hash`. bcrypt reads only the first 72 bytes of a password, so in the source two passwords that agree there match the same hash; the model compares whole passwords.
- Auth.AuthService.ChangePassword: the source refuses a new password that agrees with the current one in its first 72 bytes (bcrypt truncation); the model refuses only an identical one.
- Database plumbing is not modelled: the Drizzle query builders and the connection. The tables are in-memory fields.
- Row ids of token and history rows are not modelled. The token column is unique, so deleting by row id deletes the same row as deleting by token.
- The `githubId` and `avatarUrl` columns are not modelled, and neither are the non-authentication tables (API keys, repositories, reviews, document chunks). No modelled operation reads or writes them.
- Column defaults are written out. The model inserts each row with the value the default would give (`isVerified = false`, `createdAt = now`). `wasNotified` is always set explicitly by `trackLogin`.
- The nullable `ipAddress` and `userAgent` columns of refresh rows are modelled as strings. The service always supplies them.
- Concurrency is not modelled, and there are no transactions: each request is one atomic method. Partial failure inside a request is modelled only where the source catches or rethrows an error.
- E-mail transport and templates are not modelled. A send is an abstract outcome, and the mail log records each message's kind, recipient, link or login details.
- Sessions.SessionsService.TrackLogin: the varchar widths of `login_history` (`ip_address` varchar(45), `user_agent` varchar(500), backend/src/database/schema.ts:71-72) are not modelled; in the source a longer IP or User-Agent makes the history insert fail, the catch-all swallows it, and no row is written and no alert sent, while the model appends the row.
- Auth.AuthService.SignIn: the varchar widths of `refresh_tokens` (`token` and `user_agent` varchar(500), `ip_address` varchar(45), backend/src/database/schema.ts:58-61) are not modelled; in the source a User-Agent over 500 characters makes the refresh insert fail after the last-login update, and an IP over 45 characters already makes that update fail (`users.last_login_ip` varchar(45), schema.ts:27), so the login raises, while the model updates and inserts.
- Auth.AuthService.Login: the same width failures apply, and so does `users.email` varchar(255) (backend/src/database/schema.ts:19): a refresh JWT signed over a long email can exceed the 500 characters of the token column, and that user's logins then fail at the refresh insert; the model's signed pair is an abstract parameter with no length.
- Auth.AuthService.Register: the database's own unique-email error on a concurrent insert is not modelled, because requests do not interleave.
- Auth.AuthService.Login: the signed token pair is a parameter and JWT signing is not modelled; what the model keeps is that a second login within one second mints the same refresh token and fails with the unique-constraint error (`DuplicateToken`) after the history row and last-login update were written.
- Auth.AuthService.RefreshAccessToken: the signed token pair is a parameter; a refresh within the second its token was issued may re-mint the presented token, which the model re-inserts, so that replay is accepted (`Scenarios.SameSecondRefreshReplayAccepted`).
- Sessions.ShouldSendLoginNotification: the floating-point day count compared with `> 7` is modelled as the integer comparison `now - loginAt > 7 * 86400000` ms. They agree for millisecond timestamps.
- The local-time `setHours(+24)`, `setHours(+1)` and `setDate(+7)` are modelled as fixed durations of 24 h, 1 h and 7 days. Daylight-saving transitions are not modelled.
- The decision clock and the insert clock are one `now`. The source reads `Date.now()`, and the database's `defaultNow()`, at slightly different instants.
- The HTTP layer is not modelled: the controller, cookies, status codes, validation pipe, helmet, the rate limiter and the rest of `bootstrap`.
- A logout request without a refresh cookie is modelled as `None`.
- The frontend is not modelled.
