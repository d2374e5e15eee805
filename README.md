# node-backend auth and market routes in Dafny

This project models the core of node-backend. It is an Express.js back end
with three generations of refresh-token authentication:

- `src/tokens.js`, a service over a table keyed by the SHA-256 of the raw token;
- `src/server.js`, an application with a table keyed by the raw token;
- `src/auth.js`, a router that records the successor's token string in `replacedBy`.

The model also covers:

- single-use e-mail verification and password-reset links;
- the register and login routes over a user table with a `status` column;
- the icon-URL resolver;
- the Upbit coin list with its 15-second cache;
- the error middleware;
- the signal scorer with its TTL cache.

Each source file is one `.dfy` file:

- A stateful file has a pure module: a state datatype, one transition
  function per handler and the lemmas about them.
- Beside it is a class whose fields are the tables the handler writes. Its
  methods run the handler step by step and state their new state as the
  pure transition of the old one.

The models of the tables, the clock and the outside world:

- **Database**: the Prisma tables are `seq`s and `map`s. A new row's id is
  the next free one. A unique-index violation is the store throwing: the
  handler answers 500 and nothing changes.
- **Clock**: the clock is an `int` parameter `now`, read once per handler call.
- **Randomness and hashing**: random tokens (`randomUUID`, `randomBytes`, `uuid`)
  are parameters. `hashToken` (SHA-256) is an arbitrary function.
- **bcrypt**: `bcrypt.hash` is a given hash string. `bcrypt.compare` is a
  function parameter.
- **JWT**: `jwt.sign` is represented by the claims it signs, or by a given
  `sign` function. `jwt.verify` is a function parameter from token to
  optional claims.
- **Network and mail**: `fetch`/`jfetch` results are parameters, `None` when
  the request throws. `sendMail` is its delivery report, `None` when it throws.
- **Numbers**: figures in the coin and signal routes are exact `real`s.
  `Number(...)` of a query is given as `NaN` or a number.

Module map:

- wrappers.dfy: `Wrappers`, `JsString`
- userstore.dfy: `UserStore`
- accounts.dfy: `Accounts`
- sorting.dfy: `Sorting`
- tokens.dfy: `Timespan`, `HashedLedger`, `Tokens`
- server.dfy: `ServerLedger`, `Server`
- auth.dfy: `AuthLedger`, `Auth`
- onetime.dfy: `OneTimeTokens`
- email.dfy: `EmailVerification`, `EmailRoutes`
- password.dfy: `PasswordReset`, `PasswordRoutes`
- icons.dfy: `IconResolver`
- coins.dfy: `CoinsList`, `Coins`
- errors.dfy: `ErrorMiddleware`
- signals.dfy: `SignalScoring`, `Signals`
- register.dfy: `RegisterFlow`, `RegisterRoute`
- login.dfy: `LoginFlow`

## Model

| member | source | states |
|---|---|---|
| Wrappers.OrNull | src/server.js:84 | `name \|\| null` is present exactly when the name is truthy, and then it is the name |
| JsString.SpaceRun | src/server.js:42 | the run of `\s` characters at the front: all spaces, and the next character is not one |
| JsString.SpaceRunOver | src/server.js:42 | spaces followed by a non-space are consumed exactly up to that character |
| JsString.DecimalLeadingZero | src/tokens.js:90 | a leading zero does not change a digit string's value |
| JsString.DecimalRoundTrip | src/tokens.js:90 | every natural number's decimal spelling is a digit string that reads back as the number |
| JsString.DigitRun | src/routes/coins.js:42 | the run of digits at the front: all digits, and the next character is not one |
| JsString.DigitRunOver | src/routes/coins.js:42 | digits followed by a non-digit are consumed exactly up to that character |
| JsString.ParseInt | src/routes/coins.js:42 | `parseInt(s, 10)` gives a number exactly when, after the leading white space, a digit comes first or one `-` or `+` and then a digit; so "x5", "--5" and "- 5" are NaN |
| JsString.ParseIntDecimal | src/routes/coins.js:42 | leading white space, then the decimal spelling of `n`, then any non-digit, parses to `n` |
| JsString.ParseIntSigned | src/routes/coins.js:42 | white space, a `-` or `+` sign, then the decimal spelling of `n`, then any non-digit, parses to `-n` or `n` |
| JsString.ParseIntSignedDigits | src/routes/coins.js:42 | white space, a sign, then any digit string, then a non-digit, parse to the digits' value, negated for `-` |
| JsString.ParseIntSkipsSpaces | src/routes/coins.js:42 | leading white space is skipped before the sign and digits are read |
| JsString.ParseIntNoDigit | src/routes/coins.js:42-43 | a string without digits parses to `NaN` |
| JsString.AsciiLower | src/routes/coins.js:41 | capital ASCII letters move 32 code points down; every other character is kept |
| JsString.AsciiUpper | src/lib/iconResolver.js:47 | small ASCII letters move 32 code points up; every other character is kept |
| JsString.ToLower | src/routes/coins.js:41 | `toLowerCase` keeps the length and lower-cases each character |
| JsString.ToUpper | src/lib/iconResolver.js:47 | `toUpperCase` keeps the length and upper-cases each character |
| JsString.ToUpperIdempotent | src/lib/iconResolver.js:47 | upper-casing twice is upper-casing once |
| JsString.ToLowerOfToUpper | src/lib/iconResolver.js:47-52 | lower-casing the upper-cased symbol equals lower-casing the symbol |
| UserStore.FindByEmail | src/server.js:79 | `findUnique({ where: { email } })` finds a row with that e-mail, or reports that none has it |
| UserStore.FindById | src/routes/password.js:52 | `findUnique({ where: { id } })` finds a row with that id, or reports that none has it |
| UserStore.Create | src/server.js:83-86 | `user.create` appends exactly one row with the next id and leaves the others unchanged |
| UserStore.CreateKeepsWellFormed | src/server.js:79-86 | creating a user whose e-mail is free keeps ids equal to positions and e-mails unique |
| UserStore.FindByIdInWellFormed | src/routes/password.js:52 | in a well-formed table, id lookup finds position `id` exactly when it exists |
| Accounts.FindAccount | src/routes-auth-register.js:15 | the lookup by e-mail finds a row with that e-mail, or reports that none has it |
| Accounts.FindAccountUnique | src/routes-auth-login.js:12 | in a well-formed table, an account's e-mail finds that account |
| Accounts.StatusOf | src/error-util.js:1-9 | a reply answers 200 exactly when it is `ok(...)` or an `err` with status 200 |
| Sorting.Swap | src/routes/coins.js:101-116 | an exchange of two array cells: the array is the old one with two cells swapped, a permutation |
| Sorting.SortByKey | src/routes/coins.js:101-116 | the in-place sort leaves the array sorted by the comparator's key and a permutation of its input |
| Sorting.SortedPrefix | src/routes/coins.js:117 | sort then `slice(0, n)` yields `min(n, length)` items in key order, drawn from the list, none ranked below an item left out |
| Sorting.SortedPrefixIsTop | src/routes/signals.js:119-120 | the first `m` items of a sorted list are a sorted prefix of it |
| Sorting.SortedPrefixOfAll | src/routes/coins.js:117 | a sorted prefix as long as the list is a permutation of the whole list |
| Timespan.ParseTimespanMs | src/tokens.js:89-96 | a value neither all digits nor digits with a unit letter gives 15 minutes |
| Timespan.ParseDigitsWithUnit | src/tokens.js:91-95 | digits followed by `s`, `m`, `h` or `d` give the number times 1, 60, 3600 or 86400 seconds, in ms |
| Timespan.ParseSeconds | src/tokens.js:90 | a bare number `n` gives `n * 1000` |
| Timespan.ParseBareDigits | src/tokens.js:90 | any all-digit string, leading zeros included, gives its decimal value times 1000 |
| Timespan.ParseLeadingZeros | src/tokens.js:90 | "007" gives 7000 |
| Timespan.ParseWithUnit | src/tokens.js:91-95 | `<n><unit>` gives `n` times the unit's seconds times 1000 |
| Timespan.DefaultSettings | src/tokens.js:8-9 | the defaults "15m" and "30d" are 900000 and 2592000000 ms |
| Timespan.FallbackExamples | src/tokens.js:92 | the empty string, "1.5h", "-5m", "10 m" and "5w" fall back to 15 minutes |
| HashedLedger.Issue | src/tokens.js:28-41 | one row under `hash(raw)`: given user, next id, expiry `now + ttl`, not revoked, other rows unchanged; a taken hash changes nothing |
| HashedLedger.Rotate | src/tokens.js:45-67 | in order: no row is `invalid_refresh`, revoked is `revoked`, `expiresAt <= now` is `expired`, any error changes nothing; success adds the successor for the same user and revokes and links the old row |
| HashedLedger.Revoke | src/tokens.js:70-77 | never fails; stamps `revokedAt` only on an existing unrevoked row; every other row is unchanged |
| HashedLedger.RevokeAllForUser | src/tokens.js:80-86 | exactly that user's unrevoked rows get `revokedAt = now`, expired or not; all others are unchanged |
| HashedLedger.IssueKeepsValid | src/tokens.js:28-41 | issuing keeps keys equal to hashes, ids unique and `replacedBy` links same-user |
| HashedLedger.RotateKeepsValid | src/tokens.js:58-64 | rotation keeps the ledger valid; the `replacedBy` link names a row of the same user |
| HashedLedger.RevokeKeepsValid | src/tokens.js:70-77 | revoking keeps the ledger valid |
| HashedLedger.RevokeAllKeepsValid | src/tokens.js:80-86 | revoking all of a user's rows keeps the ledger valid |
| HashedLedger.RotateIsSingleUse | src/tokens.js:51 | after a successful rotation, presenting the same token again fails with `revoked` |
| HashedLedger.RotatedTokenIsLive | src/tokens.js:49-58 | the successor token is refused for none of the three token reasons until it expires |
| HashedLedger.RevokeIdempotent | src/tokens.js:74 | revoking twice equals revoking once |
| HashedLedger.RevokeAllBlocksRotate | src/tokens.js:80-86 | after revoke-all, no token of that user can be rotated |
| Tokens.RefreshTokenService.constructor | src/tokens.js:9 | the TTL setting is the environment's when truthy, else "30d"; the table starts empty |
| Tokens.RefreshTokenService.IssueRefreshToken | src/tokens.js:28-41 | the new table is `Issue` of the old one, and it stays valid |
| Tokens.RefreshTokenService.RotateRefreshToken | src/tokens.js:45-67 | the new table is `Rotate` of the old one, and it stays valid |
| Tokens.RefreshTokenService.RevokeRefreshToken | src/tokens.js:70-77 | the new table is `Revoke` of the old one, and it stays valid |
| Tokens.RefreshTokenService.RevokeAllForUser | src/tokens.js:80-86 | the new table is `RevokeAllForUser` of the old one, and it stays valid |
| ServerLedger.ParseBearer | src/server.js:41-43 | a token is read only after a case-insensitive "Bearer" and at least one space; it is the rest of the header, non-empty and without line terminators |
| ServerLedger.ParseBearerComplete | src/server.js:42 | any spelling of the scheme, any non-empty space run and any token not starting with a space is read back exactly |
| ServerLedger.AuthMiddleware | src/server.js:40-51 | a header that fails the pattern is 401 before verification; otherwise authenticated exactly when the verifier accepts the token, with its claims |
| ServerLedger.MalformedHeaderIgnoresVerifier | src/server.js:43 | a malformed header gets 401 whatever the verifier would say |
| ServerLedger.WellFormedHeaders | src/server.js:42 | "Bearer abc" and "bearer \tabc" both yield "abc" |
| ServerLedger.SpacesOnlyHeaders | src/server.js:42 | "Bearer" and two spaces yields one space as the token; "Bearer" and one space is refused |
| ServerLedger.OtherSchemesRejected | src/server.js:42-43 | "Basic abc" and "Bearerabc" are refused |
| ServerLedger.Register | src/server.js:73-93 | a missing field is 400 `email_password_required`; a taken e-mail is 400 `email_exists`; errors change nothing; otherwise exactly one user with role "user" and name-or-null |
| ServerLedger.Login | src/server.js:96-124 | an unknown e-mail or wrong password is the same 401; a known e-mail with the matching password and an unused token string always gets a token pair; success adds exactly one refresh row expiring `ttlDays` later and returns the user's claims; a missing e-mail, a missing password for a known e-mail, or a taken token string after a matching password is 500 `server_error` with no change |
| ServerLedger.Refresh | src/server.js:127-161 | a missing token is 400 `bad_request`; unknown, revoked or expired is 400 `invalid_refresh_token` with no change; otherwise the successor is created, the old row revoked and linked to its id, and the access token's claims are those of the row's user; when that user is missing the reply after the writes is 500 `server_error`; a taken successor string is 500 with no change |
| ServerLedger.Logout | src/server.js:164-184 | a missing token is 400; an unknown token is `{ok:true}` with no change; a known one gets `revokedAt = now` even when already revoked |
| ServerLedger.LogoutAll | src/server.js:187-198 | without authentication 401 and no change; an authenticated request always answers `{ok:true}`, and every unrevoked row of the user is revoked regardless of expiry, and nothing else changes |
| ServerLedger.RefreshKeepsValid | src/server.js:140-153 | refreshing keeps the state valid: `replacedBy` names a row of the same user |
| ServerLedger.RegisterKeepsValid | src/server.js:79-86 | registering keeps the state valid |
| ServerLedger.LoginKeepsValid | src/server.js:106-113 | logging in keeps the state valid |
| ServerLedger.LogoutKeepsValid | src/server.js:174-177 | logging out keeps the state valid |
| ServerLedger.LogoutAllKeepsValid | src/server.js:189-192 | logging out everywhere keeps the state valid |
| ServerLedger.RefreshIsSingleUse | src/server.js:136-153 | a refresh token is accepted once; presenting it again is 400 `invalid_refresh_token` |
| ServerLedger.LogoutOverwritesRevokedAt | src/server.js:174-177 | a second logout moves `revokedAt` to the later time |
| ServerLedger.LogoutAllBlocksRefresh | src/server.js:189-192 | after an authenticated logout-all, none of the user's tokens can be refreshed |
| ServerLedger.RegisterThenLogin | src/server.js:73-124 | registering, then logging in with the same password, yields a token pair for the new user's id |
| Server.App.constructor | src/server.js:23 | `REFRESH_TTL_DAYS` defaults to 30; the tables start empty and valid |
| Server.App.Register | src/server.js:73-93 | the new state and reply are `ServerLedger.Register` of the old state, and it stays valid |
| Server.App.Login | src/server.js:96-124 | the new state and reply are `ServerLedger.Login` of the old state, and it stays valid |
| Server.App.Refresh | src/server.js:127-161 | the new state and reply are `ServerLedger.Refresh` of the old state, and it stays valid |
| Server.App.Logout | src/server.js:164-184 | the new state and reply are `ServerLedger.Logout` of the old state, and it stays valid |
| Server.App.LogoutAll | src/server.js:187-198 | the new state and reply are `ServerLedger.LogoutAll` of the old state, and it stays valid |
| AuthLedger.CreateRefreshToken | src/auth.js:17-23 | one row for the fresh token, expiring `ttlSeconds * 1000` later, not revoked; a taken token changes nothing |
| AuthLedger.RevokeToken | src/auth.js:24-26 | only an unrevoked row is touched: it gets `revokedAt = now` and `replacedBy = null`; all others are unchanged |
| AuthLedger.RotateRefreshToken | src/auth.js:27-31 | one new row for the user; the old token's row is revoked with `replacedBy` = the new token string, even when already revoked |
| AuthLedger.FindValidRefresh | src/auth.js:32-35 | a row is found exactly when it is unrevoked and `expiresAt > now` |
| AuthLedger.BearerToken | src/auth.js:38-40 | a token is read exactly when the header starts with the case-sensitive "Bearer " and something follows; it is the rest |
| AuthLedger.BearerTokenExamples | src/auth.js:39-40 | "bearer x", "Bearer  x" with two spaces, and "Bearer " are handled as the exact prefix test says |
| AuthLedger.BearerTokenRoundTrip | src/auth.js:39 | "Bearer " plus any non-empty token reads back that token |
| AuthLedger.AuthMiddleware | src/auth.js:37-48 | no token is 401 before verification; otherwise authenticated exactly when the verifier accepts the token |
| AuthLedger.Register | src/auth.js:50-69 | a missing field is 400; a taken e-mail is 409 with no change; otherwise one user, then one refresh token; a failing token create answers 500 and keeps the new user |
| AuthLedger.Login | src/auth.js:71-90 | a missing field is 400; an unknown e-mail or wrong password is the same 401 with no change; both fields given, a known e-mail, a matching password and an unused token string always get a token pair; success adds exactly one refresh row; a matching password with a taken token string is 500 `server_error` with no change |
| AuthLedger.Refresh | src/auth.js:92-110 | a missing token is 400; an invalid, revoked or expired token is 404 `not_found` with no change; a valid token of an existing user with an unused successor string always gets a token pair, whose access claims are that user's; otherwise the state is the rotation for the row's user; a valid token whose user is missing, or a taken successor string, is 500 `server_error` with no change |
| AuthLedger.Logout | src/auth.js:112-117 | a missing token is 400 with no change; otherwise `{ok:true}`, and the state is `RevokeToken` of the old one |
| AuthLedger.LogoutAll | src/auth.js:119-127 | without authentication 401 and no change; an authenticated request always answers `{ok:true}`; only the user's unrevoked and unexpired rows are revoked, with `replacedBy` cleared; every other row is unchanged |
| AuthLedger.RevokeTokenIdempotent | src/auth.js:25 | revoking twice equals revoking once |
| AuthLedger.RefreshIsSingleUse | src/auth.js:97-103 | a refresh token accepted once is 404 the next time |
| AuthLedger.RefreshKeepsValid | src/auth.js:101-103 | refreshing keeps the state valid: `replacedBy` names the successor's token, owned by the same user |
| AuthLedger.LogoutAllKeepsValid | src/auth.js:122-125 | logout-all keeps the state valid |
| AuthLedger.LogoutKeepsValid | src/auth.js:115 | logout keeps the state valid |
| AuthLedger.RegisterThenLogin | src/auth.js:50-90 | registering, then logging in with the same e-mail and a matching password, yields a token pair for the new user's id and e-mail with role `user` |
| AuthLedger.LoginKeepsValid | src/auth.js:83 | login keeps the state valid |
| AuthLedger.RegisterKeepsValid | src/auth.js:59-62 | register keeps the state valid |
| AuthLedger.LogoutAllLeavesExpiredRows | src/auth.js:123 | after an authenticated logout-all, an expired unrevoked row still has a null `revokedAt` |
| AuthLedger.LogoutAllBlocksRefresh | src/auth.js:119-125 | after an authenticated logout-all, none of the user's tokens is accepted by refresh at that time or later |
| Auth.Router.constructor | src/auth.js:12 | `REFRESH_TTL_SECONDS` defaults to 604800; the tables start empty |
| Auth.Router.CreateRefreshToken | src/auth.js:17-23 | the new state is `AuthLedger.CreateRefreshToken` of the old one |
| Auth.Router.RevokeToken | src/auth.js:24-26 | the new state is `AuthLedger.RevokeToken` of the old one |
| Auth.Router.RotateRefreshToken | src/auth.js:27-31 | the new state is `AuthLedger.RotateRefreshToken` of the old one |
| Auth.Router.Register | src/auth.js:50-69 | the new state and reply are `AuthLedger.Register` of the old state, and it stays valid |
| Auth.Router.Login | src/auth.js:71-90 | the new state and reply are `AuthLedger.Login` of the old state, and it stays valid |
| Auth.Router.Refresh | src/auth.js:92-110 | the new state and reply are `AuthLedger.Refresh` of the old state, and it stays valid |
| Auth.Router.Logout | src/auth.js:112-117 | the new state and reply are `AuthLedger.Logout` of the old state, and it stays valid |
| Auth.Router.LogoutAll | src/auth.js:119-127 | the new state and reply are `AuthLedger.LogoutAll` of the old state, and it stays valid |
| OneTimeTokens.Insert | src/routes/email.js:20 | the create adds exactly one unused row for a new token; a taken token is refused |
| OneTimeTokens.MarkUsed | src/routes/email.js:47-50 | the update sets `usedAt = now` on that token's row only |
| OneTimeTokens.InsertedRedeemableUntilExpiry | src/routes/email.js:43 | a fresh token is accepted exactly while `now <= expiresAt` |
| OneTimeTokens.InsertLeavesOthers | src/routes/email.js:20 | inserting a token does not change whether another token is accepted |
| OneTimeTokens.UsedNeverRedeemable | src/routes/email.js:43 | a used token is never accepted again |
| OneTimeTokens.MarkUsedLeavesOthers | src/routes/email.js:47-50 | using one token does not change whether another is accepted |
| EmailVerification.RequestVerify | src/routes/email.js:10-34 | a missing e-mail is 400; an unknown one is `{ok:true}` with no row; a known one adds one row expiring `TTL_MIN * 60000` later; a mail failure is 500 after the row exists |
| EmailVerification.VerifyGet | src/routes/email.js:37-60 | a missing token is 400 `bad_request`; an absent, used or expired token is 400 `invalid_token` with no change; a present, unused, unexpired token always gets the success page and the row is marked used |
| EmailVerification.VerifyPost | src/routes/email.js:63-80 | the same checks as GET; a present, unused, unexpired token always gets `{ok:true}` and is marked used |
| EmailVerification.VerifyVariantsAgree | src/routes/email.js:43-50 | GET and POST accept the same tokens, reject with the same error and leave the same state |
| EmailVerification.VerifyIsSingleUse | src/routes/email.js:43-50 | after one successful verify, both variants refuse the token with `invalid_token` |
| EmailVerification.RequestThenVerify | src/routes/email.js:18-20 | a requested link verifies up to `TTL_MIN` minutes later and never after |
| EmailVerification.RequestVerifyKeepsValid | src/routes/email.js:15-20 | requesting keeps every verification row pointing at an existing user |
| EmailVerification.VerifyKeepsValid | src/routes/email.js:47-50 | verifying keeps the state valid |
| EmailRoutes.Router.constructor | src/routes/email.js:7 | `EMAIL_TOKEN_TTL_MIN` defaults to 15; the verification table starts empty |
| EmailRoutes.Router.RequestVerify | src/routes/email.js:10-34 | the new state and reply are `RequestVerify` of the old state |
| EmailRoutes.Router.Consume | src/routes/email.js:42-50 | accepts exactly a redeemable token and marks it used; otherwise the table is unchanged |
| EmailRoutes.Router.VerifyGet | src/routes/email.js:37-60 | the new state and reply are `VerifyGet` of the old state |
| EmailRoutes.Router.VerifyPost | src/routes/email.js:63-80 | the new state and reply are `VerifyPost` of the old state |
| PasswordReset.StripHyphens | src/routes/password.js:19 | `replace(/-/g, '')`: the result has no hyphen, and a string without hyphens is left as it is |
| PasswordReset.StripHyphensCount | src/routes/password.js:19 | every character other than `-` occurs in the result exactly as often as in the input |
| PasswordReset.StripHyphensAppend | src/routes/password.js:19 | removing hyphens distributes over concatenation |
| PasswordReset.StripHyphensJoin | src/routes/password.js:19 | a hyphen between two parts is dropped and the parts are kept |
| PasswordReset.StripHyphensUuid | src/routes/password.js:19 | a uuid's five groups are joined in order without their four separators |
| PasswordReset.RequestReset | src/routes/password.js:11-35 | a missing e-mail is 400; an unknown one is `{ok:true}` with no row; a known one adds one row under the hyphen-free token; a mail failure is 500 after the row exists |
| PasswordReset.Reset | src/routes/password.js:38-60 | a missing field is 400; an absent, used or expired token is 400 `invalid_or_expired` with no change; otherwise the token is used and the owner's hash replaced in one step |
| PasswordReset.RequestResetTokenHasNoHyphen | src/routes/password.js:19-21 | every row a request creates has a token without `-` |
| PasswordReset.ValidResetSucceeds | src/routes/password.js:50-53 | in a valid state an accepted token always succeeds |
| PasswordReset.ResetChangesOnlyOwner | src/routes/password.js:50-53 | a reset changes only the owner's password hash in the user table |
| PasswordReset.ResetIsSingleUse | src/routes/password.js:43-46 | a reset token cannot succeed twice |
| PasswordReset.RequestThenReset | src/routes/password.js:11-53 | a link used within `TTL_MIN` minutes sets the requester's new hash |
| PasswordReset.RequestResetKeepsValid | src/routes/password.js:16-21 | requesting keeps the state valid |
| PasswordReset.ResetKeepsValid | src/routes/password.js:50-53 | resetting keeps the state valid |
| PasswordRoutes.Router.constructor | src/routes/password.js:8 | `PWRESET_TOKEN_TTL_MIN` defaults to 15; the reset table starts empty |
| PasswordRoutes.Router.RequestReset | src/routes/password.js:11-35 | the new state and reply are `RequestReset` of the old state |
| PasswordRoutes.Router.Reset | src/routes/password.js:38-60 | the new state and reply are `Reset` of the old state |
| IconResolver.Lookup | src/lib/iconResolver.js:49-52 | a table entry counts only when present and non-empty |
| IconResolver.ResolveWith | src/lib/iconResolver.js:44-56 | falsy symbols are null; then an override for the upper-cased symbol, then the prefix plus the alias, then the prefix plus the lower-cased symbol |
| IconResolver.ResolveIconUrl | src/lib/iconResolver.js:44-45 | with the shipped tables, the result is null exactly for a falsy symbol |
| IconResolver.CaseInsensitive | src/lib/iconResolver.js:43-52 | symbols equal up to case resolve to the same URL, whatever the tables |
| IconResolver.OverrideWins | src/lib/iconResolver.js:49 | an override beats an alias |
| IconResolver.EmptySymbol | src/lib/iconResolver.js:45 | a missing or empty symbol gives null |
| IconResolver.AliasExamples | src/lib/iconResolver.js:21 | NANO and nano both use the alias xno |
| IconResolver.RenamedCoinExample | src/lib/iconResolver.js:13 | MATIC uses the alias pol |
| IconResolver.DefaultRuleExample | src/lib/iconResolver.js:55 | "Btc" becomes the prefix plus "btc" |
| CoinsList.UntilHyphen | src/routes/coins.js:59 | the longest hyphen-free prefix is a prefix without `-`, followed by `-` or the end |
| CoinsList.Symbol | src/routes/coins.js:59 | `split('-')[1]` of a "KRW-" market is the field after the first hyphen |
| CoinsList.KrwMarkets | src/routes/coins.js:53-60 | only entries whose market starts with "KRW-" are kept, each mapped to its listing (order and multiplicity: the two lemmas below) |
| CoinsList.KrwMarketsSingle | src/routes/coins.js:53-60 | a one-entry input gives one listing exactly when its market starts with "KRW-", else none |
| CoinsList.KrwMarketsAppend | src/routes/coins.js:53-60 | the listing of `a + b` is the listing of `a` followed by that of `b`, so order and repeats are kept |
| CoinsList.KrwMarketsComplete | src/routes/coins.js:54 | every KRW entry appears in the listing with its names |
| CoinsList.KrwMarketsSound | src/routes/coins.js:54 | every listing comes from a KRW entry of the input |
| CoinsList.SymbolExamples | src/routes/coins.js:59 | "KRW-BTC" gives "BTC", and only the first field is taken |
| CoinsList.ChunksOfFront | src/routes/coins.js:63-65 | the chunks from position `i` are the slice `i..i+size` (cut at the end) followed by the chunks after it |
| CoinsList.ChunksOfPartition | src/routes/coins.js:63-65 | the chunks concatenate back to the input, and each holds 1 to 50 markets |
| CoinsList.MarketCodes | src/routes/coins.js:69 | the codes are the chunk's markets in order |
| CoinsList.FindTicker | src/routes/coins.js:76 | `find` gives the first ticker for the market, or none |
| CoinsList.RoundTo2 | src/routes/coins.js:82-84 | the result is a multiple of 0.01 within half a cent of the input; a tie rounds away from zero |
| CoinsList.Merge | src/routes/coins.js:75-88 | one coin per listing in order, with that listing's identity and its first ticker's figures or nulls; `change` is the ticker's `signed_change_price`, `changeRate` is `signed_change_rate * 100` rounded to 2 places, or null |
| CoinsList.ParseLimit | src/routes/coins.js:42-43 | a numeric limit is clamped into [1, 200]: below 1 gives 1, above 200 gives 200; a non-number means no cut |
| CoinsList.ParseLimitNegative | src/routes/coins.js:42-43 | a negative limit such as "-5" (or "-0") gives 1 |
| CoinsList.ParseLimitDecimal | src/routes/coins.js:42-43 | a decimal count `n` gives `max(1, min(200, n))` |
| CoinsList.ParseLimitAbsent | src/routes/coins.js:42-43 | an absent limit means no cut |
| CoinsList.GainersOrder | src/routes/coins.js:103-105 | gainers are non-increasing in `changeRate`, a missing rate counting as -999 |
| CoinsList.LosersOrder | src/routes/coins.js:106-108 | losers are non-decreasing in `changeRate`, a missing rate counting as 999 |
| CoinsList.VolumeOrder | src/routes/coins.js:109-111 | volume is non-increasing in `volume24h`, a missing volume counting as -1 |
| CoinsList.TrendingOrder | src/routes/coins.js:112-115 | trending and any unknown type are non-increasing in `value24h`, a missing value counting as -1 |
| CoinsList.EmptyCacheIsStale | src/routes/coins.js:46 | an empty cache is never served, however recent |
| Coins.SortAndSlice | src/routes/coins.js:100-118 | a sorted prefix of the list in the type's order, cut to the limit when one is set |
| Coins.Chunk | src/routes/coins.js:63-65 | the loop yields the chunks of 50 |
| Coins.FetchTickers | src/routes/coins.js:67-72 | the loop yields all tickers of all chunks in order, or fails as soon as one request fails |
| Coins.FetchAllFailsFrom | src/routes/coins.js:68-71 | once one request fails, the whole run fails |
| Coins.Route.constructor | src/routes/coins.js:6 | the cache starts at time 0 with no data |
| Coins.Route.Get | src/routes/coins.js:39-98 | a fresh non-empty cache answers from the cache and keeps it; a failed fetch is 500 `E_COINS` with the cache kept; otherwise the merged list is cached at `now` and answered sorted and cut |
| ErrorMiddleware.ErrorHandler | src/middlewares/error.js:1-16 | the status is the error's or 500; the code is the error's or derived from the status; the message is shown only for `expose === true` and a string message |
| ErrorMiddleware.HiddenMessageIgnored | src/middlewares/error.js:9-13 | an unexposed error's message has no influence on the response |
| ErrorMiddleware.ExposedMessageShown | src/middlewares/error.js:11-12 | an exposed string message is passed through as it is |
| ErrorMiddleware.BareErrorExample | src/middlewares/error.js:2-7 | a bare error, or status 0 with an empty code, is `500 E_UNKNOWN` |
| ErrorMiddleware.CodeExamples | src/middlewares/error.js:3-7 | 401, 400 and others map to their codes; an explicit code wins |
| SignalScoring.SignalLimit | src/routes/signals.js:82 | the limit is in [1, 20]; `NaN` or 0 gives 5; a value in [1, 20] is rounded down |
| SignalScoring.ReasonsCounted | src/routes/signals.js:68-75 | there is one reason per firing labelled condition |
| SignalScoring.TableScorePositive | src/routes/signals.js:68-75 | the sum is positive exactly when some condition with positive weight fires |
| SignalScoring.ShippedScore | src/routes/signals.js:70-75 | the shipped table scores 30, 20, 10, 20, 20 and 5 for its six conditions |
| SignalScoring.ShippedReasons | src/routes/signals.js:70-74 | the shipped table's reasons come in that order, with none for a rising close |
| SignalScoring.AllConditionsCapped | src/routes/signals.js:77 | all six conditions sum to 105, capped at 100 |
| SignalScoring.PriceUpAlone | src/routes/signals.js:75 | a rising close alone scores 5 with no reason |
| SignalScoring.ScorePositiveIffSomeCondition | src/routes/signals.js:68-77 | the capped score is positive exactly when at least one condition holds |
| SignalScoring.KrwOnly | src/routes/signals.js:21 | exactly the input's "KRW-" markets are kept |
| SignalScoring.WithoutCaution | src/routes/signals.js:88 | exactly the markets without a CAUTION warning are kept |
| SignalScoring.KrwOnlySingle | src/routes/signals.js:21 | a one-row list keeps its row exactly when it is a "KRW-" market |
| SignalScoring.KrwOnlyAppend | src/routes/signals.js:21 | the KRW rows of `a + b` are those of `a` followed by those of `b`, so order and repeats are kept |
| SignalScoring.WithoutCautionSingle | src/routes/signals.js:88 | a one-row list keeps its row exactly when it has no CAUTION warning |
| SignalScoring.WithoutCautionAppend | src/routes/signals.js:88 | the kept rows of `a + b` are those of `a` followed by those of `b`, so order and repeats are kept |
| Signals.CacheGet | src/routes/signals.js:8-13 | a missing key misses; an entry older than the TTL is deleted and misses; otherwise its data is returned |
| Signals.CacheSet | src/routes/signals.js:14 | the key holds the data stamped `now`; all other keys are unchanged |
| Signals.SetThenGetHit | src/routes/signals.js:8-14 | stored data is read back while its age is at most the TTL |
| Signals.SetThenGetExpired | src/routes/signals.js:11 | past the TTL the read misses and the entry is deleted |
| Signals.SetLeavesOtherKeys | src/routes/signals.js:14 | storing under one key does not change another key's reads |
| Signals.KeysDisjoint | src/routes/signals.js:17-27 | the market-list key is never a candle key |
| Signals.ScoreSignal | src/routes/signals.js:37-78 | fewer than 40 candles score 0 with no reason; otherwise the capped table score and the table's reasons |
| Signals.Route.constructor | src/routes/signals.js:7 | the cache starts empty |
| Signals.Route.GetCache | src/routes/signals.js:8-13 | the result and new cache are `CacheGet` of the old cache |
| Signals.Route.SetCache | src/routes/signals.js:14 | the new cache is `CacheSet` of the old one |
| Signals.Route.GetKrwMarkets | src/routes/signals.js:16-24 | a cached list is returned as it is; otherwise the fetched list (or `[]`) filtered to KRW is cached and returned; the result holds only KRW markets; result and cache are `MarketsFor` and `MarketsEntries` of the old cache |
| Signals.Route.GetCandles | src/routes/signals.js:26-35 | cached candles are returned; otherwise the fetched rows (or `[]`) reversed are cached and returned; result and cache are `CandlesFor` and `CandleEntries` of the old cache |
| Signals.TopQualify | src/routes/signals.js:119-120 | sorting by score and slicing keeps only qualifying items, highest score first, at most `limit` of them |
| Signals.Route.Candidate | src/routes/signals.js:94-116 | one market's pass: the item is `CandidateOf` the cached or fetched candle series and its indicators, and the new cache is `CandleEntries` of the old one |
| SignalScoring.CandidateOfSpec | src/routes/signals.js:94-116 | an item exactly when the series has at least 40 candles, the last price and volume meet the minimums and the rule score is positive; it carries the market's names, last price, capped score and the rules' reasons |
| Signals.CandidatesFromFits | src/routes/signals.js:93-117 | the pass over the top markets yields at most one item per market, in market order (strictly increasing positions in `top`, each item naming its market), each qualifying |
| Signals.ConsFits | src/routes/signals.js:93-107 | putting one market's optional item in front of the rest's pass keeps the items in market order |
| Signals.CandidatesFromAt | src/routes/signals.js:93-117 | the pass from market `k` is that market's item, if any, followed by the pass from `k + 1` over the cache market `k` leaves |
| Signals.CandidatesStep | src/routes/signals.js:93-117 | one turn of the loop: the output so far plus market `k`'s item, followed by the pass from `k + 1`, is the whole pass |
| Signals.Route.Candidates | src/routes/signals.js:93-117 | the loop's output and the cache it leaves are `CandidatesFrom` of the top markets and the first cache, each market seeing the cache its predecessors left |
| Signals.Route.Handle | src/routes/signals.js:80-120 | `top` is the 60 highest-trading KRW markets without a caution, from the cached or fetched list; the candidates and the final cache are `CandidatesFrom` of `top`; every candidate is a KRW market with positive score at or above the minimum price; at most 60; the answer is the `limit` best by score, best first |
| Signals.Reverse | src/routes/signals.js:32 | the reversed list has the same length, and item `i` is the input's item `|s| - 1 - i` |
| RegisterFlow.Register | src/routes-auth-register.js:5-30 | in order: a missing field is 400 `VALIDATION_REQUIRED`, a short password 400 `PASSWORD_TOO_SHORT`, a taken e-mail 409 `EMAIL_TAKEN`, a hash failure 500; errors change nothing; success inserts exactly one row with name-or-null and answers id, e-mail and name |
| RegisterFlow.RegisterKeepsWellFormed | src/routes-auth-register.js:15-24 | registering keeps ids equal to positions and e-mails unique |
| RegisterFlow.ShortPasswordIgnoresTable | src/routes-auth-register.js:11-15 | the length check comes before the lookup: a short password gets the same answer whatever the table holds |
| RegisterFlow.SecondRegistrationTaken | src/routes-auth-register.js:15-18 | registering an e-mail a second time is 409 with the table unchanged |
| RegisterFlow.EmptyNameStoredAsNull | src/routes-auth-register.js:22 | an empty or missing name is stored as null |
| RegisterRoute.UserTable.constructor | src/routes-auth-register.js:4 | the table starts empty |
| RegisterRoute.UserTable.Register | src/routes-auth-register.js:5-30 | the new table and reply are `RegisterFlow.Register` of the old table, and it stays well formed |
| LoginFlow.Login | src/routes-auth-login.js:5-32 | a missing field is 400; an unknown e-mail or wrong password is the identical 401; a matched blocked account is 403; otherwise a token signed for the id, with id, e-mail and name |
| LoginFlow.UnknownEmailLikeWrongPassword | src/routes-auth-login.js:13-20 | an unknown e-mail and a wrong password get the identical reply |
| LoginFlow.BlockedCheckedAfterPassword | src/routes-auth-login.js:17-24 | a blocked account with a wrong password gets 401; with the right password, 403 |
| LoginFlow.RegisterThenLogin | src/routes-auth-login.js:12-27 | registering, then logging in with an accepted password, yields a token for the new row's id |

## Left out

- Server.App.constructor: `REFRESH_TTL_DAYS` is taken as absent or a whole
  number of days; a `Number(...)` that is NaN, negative or fractional is not
  modelled.
- Auth.Router.constructor: `REFRESH_TTL_SECONDS` is taken as absent or a whole
  number of seconds; a NaN, negative or fractional setting is not modelled.
- EmailRoutes.Router.constructor: `EMAIL_TOKEN_TTL_MIN` is taken as absent or
  a whole number of minutes; a NaN, negative or fractional setting is not
  modelled.
- PasswordRoutes.Router.constructor: `PWRESET_TOKEN_TTL_MIN` is taken as
  absent or a whole number of minutes; a NaN, negative or fractional setting
  is not modelled.

- Persistence, concurrency and transactions: each handler call is one
  atomic step on the model state. Interleavings of concurrent requests are
  not modelled. This includes two registrations racing past the e-mail check.
- Clock: a handler reads the clock once (`now`). The source reads
  `Date.now()` or `new Date()` several times in one call, a few
  milliseconds apart.
- Cryptography: SHA-256, bcrypt, jsonwebtoken and the random generators are
  abstract parameters, as described above. JWT expiry (`ACCESS_TTL`) is not modelled.
- SMTP and file I/O of `sendMail`: only its result or its throwing is modelled.
- Network: Upbit responses are inputs. Status codes and JSON parsing of
  `jfetch` are not modelled.
- Prisma field shapes: `userAgent`/`ip` metadata are stored but never
  enforced. The `user.status` default of the database schema is not part
  of this model: a registered row holds `null`. The `/api/me` handler of
  src/server.js is not modelled.
- Express input shapes: query and body values are strings or absent. Arrays
  and other JSON types, which `String(...)` or `.length` would treat
  differently, are not modelled.
- String semantics: lengths count Unicode scalar values rather than UTF-16
  code units. `toUpperCase`/`toLowerCase` are modelled on ASCII letters only.
- Numbers: figures are exact reals. Floating-point rounding is not
  modelled; nor is `Infinity` from a huge digit string in `parseInt` or
  `Number`; nor is NaN in a ticker figure.
- `Number(...)` of a query: it is given as `NaN` or a number. The grammar
  of `Number` is not modelled.
- Sorting.SortByKey: JavaScript's sort is stable; the contract states the
  order and the permutation, but not the order among equal keys.
- Sorting.SortedPrefix: states the order, the top-`n` property and that the
  items come from the list, but not the order among equal keys.
- Coins.SortAndSlice: the order among coins with equal sort keys is not
  stated, for the same reason.
- Indicators: the moving averages, RSI and MACD of src/lib/indicators.js,
  and the six conditions of src/routes/signals.js:40-66, four of which use
  those indicators,
  are an input of `Signals.ScoreSignal`.
- Signals.Route.Handle: the `changeRate` field (`toFixed` of a float ratio) is
  not part of an item.
- Signals.Route.Handle: a row of `/market/all` without a `market` field has
  `market = None` and is dropped by the KRW filter, as `m.market?.startsWith`
  does. A missing `acc_trade_price_24h` counts as 0.
- ErrorMiddleware.ErrorHandler: `expose` is read as `Some(true)` only for the
  boolean `true`. A truthy non-boolean is represented as not exposed, as
  `=== true` does.
- Store failures other than a unique-index collision, such as a lost
  database connection, are not modelled. The 500 paths these would take are
  modelled where another cause reaches them: a collision, a thrown hash, a
  failed mail, a missing user row.
- LoginFlow.Login: `bcrypt.compare` never throws in the model, so the
  route's 500 catch path is unreachable there.
