/**
 * src/server.js: the `Authorization` header parse of `authMiddleware`, and
 * the register, login, refresh, logout and logout-all handlers as a state
 * machine over the `user` table and a refresh-token table keyed by the raw
 * token string.
 */
module ServerLedger {
  import opened Wrappers
  import opened JsString
  import opened UserStore

  predicate NoLineTerminator(s: string) {
    forall i :: 0 <= i < |s| ==> !IsLineTerminator(s[i])
  }

  /** Six characters that the `i` flag makes equal to "Bearer". */
  predicate IsBearerScheme(s: string) {
    |s| == 6 && forall i :: 0 <= i < 6 ==> AsciiLower(s[i]) == "bearer"[i]
  }

  /**
   * `h.match(/^Bearer\s+(.+)$/i)[1]`. The greedy `\s+` takes the whole
   * run of spaces after the scheme unless nothing would be left for `(.+)`,
   * in which case it gives back one space; `.` refuses line terminators.
   */
  function ParseBearer(h: string): (r: Option<string>)
    ensures r.Some? ==>
      var w := |h| - |r.value|;
      && 7 <= w && IsBearerScheme(h[..6]) && AllSpace(h[6..w]) && h[w..] == r.value
      && r.value != [] && NoLineTerminator(r.value)
  {
    if |h| < 7 || !IsBearerScheme(h[..6]) then None
    else
      var rest := h[6..];
      var k := SpaceRun(rest);
      // where `(.+)` starts: after the whole run, or one space earlier when the run is all there is
      var w := if k < |rest| then 6 + k else 5 + k;
      if w < 7 || !NoLineTerminator(h[w..]) then None
      else
        assert AllSpace(h[6..w]) by {
          assert h[6..w] == rest[..k][..w - 6];
        }
        Some(h[w..])
  }

  /** Any scheme spelling, any non-empty run of spaces, and a token with no spaces in front is read back. */
  lemma ParseBearerComplete(scheme: string, spaces: string, token: string)
    requires IsBearerScheme(scheme) && spaces != [] && AllSpace(spaces)
    requires token != [] && !IsJsSpace(token[0]) && NoLineTerminator(token)
    ensures ParseBearer(scheme + spaces + token) == Some(token)
  {
    var h := scheme + spaces + token;
    assert h[..6] == scheme;
    var rest := h[6..];
    assert rest == spaces + token;
    SpaceRunOver(spaces, token);
    assert rest[|spaces|..] == token;
  }

  /** `req.headers.authorization || ""`. */
  function HeaderText(authorization: Option<string>): string {
    if authorization.Some? then authorization.value else ""
  }

  /**
   * `authMiddleware`: a header that does not match the pattern is refused
   * before the verifier is consulted; otherwise the verifier decides.
   */
  function AuthMiddleware(authorization: Option<string>, verify: string -> Option<Claims>): (r: AuthResult)
    ensures ParseBearer(HeaderText(authorization)).None? ==> r == Unauthorized
    ensures r.Authenticated? <==>
      ParseBearer(HeaderText(authorization)).Some? && verify(ParseBearer(HeaderText(authorization)).value).Some?
    ensures r.Authenticated? ==> Some(r.user) == verify(ParseBearer(HeaderText(authorization)).value)
  {
    match ParseBearer(HeaderText(authorization))
    case None => Unauthorized
    case Some(token) =>
      match verify(token)
      case None => Unauthorized
      case Some(c) => Authenticated(c)
  }

  /** A malformed header gets the same answer whatever the verifier would say. */
  lemma MalformedHeaderIgnoresVerifier(authorization: Option<string>, v1: string -> Option<Claims>, v2: string -> Option<Claims>)
    requires ParseBearer(HeaderText(authorization)).None?
    ensures AuthMiddleware(authorization, v1) == AuthMiddleware(authorization, v2) == Unauthorized
  {
  }

  /** Either spelling of the scheme, and a space, a tab or both before the token. */
  lemma WellFormedHeaders()
    ensures ParseBearer("Bearer abc") == Some("abc")
    ensures ParseBearer("bearer \tabc") == Some("abc")
  {
    ParseBearerComplete("Bearer", " ", "abc");
    assert "Bearer" + " " + "abc" == "Bearer abc";
    ParseBearerComplete("bearer", " \t", "abc");
    assert "bearer" + " \t" + "abc" == "bearer \tabc";
  }

  /** With nothing after the spaces, `\s+` gives its last space to `(.+)`; a single space is not enough. */
  lemma SpacesOnlyHeaders()
    ensures ParseBearer("Bearer  ") == Some(" ")
    ensures ParseBearer("Bearer ") == None
  {
    assert "Bearer  "[..6] == "Bearer" && "Bearer  "[6..] == "  ";
    assert SpaceRun(" ") == 1 by { assert " "[1..] == []; }
    assert SpaceRun("  ") == 2 by { assert "  "[1..] == " "; }
    assert "  "[1..] == " ";
    assert "Bearer "[..6] == "Bearer" && "Bearer "[6..] == " ";
  }

  lemma OtherSchemesRejected()
    ensures ParseBearer("Basic abc") == None
    ensures ParseBearer("Bearerabc") == None
  {
    assert "Basic abc"[..6][1] == 'a' && AsciiLower('a') != "bearer"[1];
    assert "Bearerabc"[6..] == "abc" && "abc"[0] == 'a' && !IsJsSpace('a');
  }

  datatype TokenRow = TokenRow(id: nat, token: string, userId: nat, expiresAt: int, revokedAt: Option<int>, replacedBy: Option<nat>)

  datatype State = State(users: seq<User>, tokens: map<string, TokenRow>, nextTokenId: nat)

  /** There is a row with this id that belongs to this user. */
  ghost predicate RowOwnedBy(tokens: map<string, TokenRow>, id: nat, userId: nat) {
    exists t :: t in tokens && tokens[t].id == id && tokens[t].userId == userId
  }

  /**
   * The user table is well formed, every token row sits under its own
   * token with a unique allocated id, and `replacedBy` is only set on a
   * revoked row and names a row of the same user.
   */
  ghost predicate Valid(st: State) {
    && WellFormed(st.users)
    && (forall t :: t in st.tokens ==> st.tokens[t].token == t && st.tokens[t].id < st.nextTokenId)
    && (forall t1, t2 :: t1 in st.tokens && t2 in st.tokens && t1 != t2 ==> st.tokens[t1].id != st.tokens[t2].id)
    && (forall t :: t in st.tokens && st.tokens[t].replacedBy.Some? ==>
          st.tokens[t].revokedAt.Some? && RowOwnedBy(st.tokens, st.tokens[t].replacedBy.value, st.tokens[t].userId))
  }

  const DayMs: nat := 24 * 60 * 60 * 1000

  /** The user fields the register handler selects: never the password hash. */
  datatype PublicUser = PublicUser(id: nat, email: string, name: Option<string>, role: string)

  datatype Response =
    | Error(status: nat, error: string)
    | UserBody(user: PublicUser)
    | TokenPair(access: Claims, refreshToken: string)
    | OkTrue

  function StatusOf(r: Response): nat {
    if r.Error? then r.status else 200
  }

  datatype Step = Step(state: State, response: Response)

  /** `signAccessToken`: the claims signed for a user, role defaulting to "user". */
  function AccessClaims(u: User): Claims {
    Claims(u.id, u.email, if u.role == "" then "user" else u.role)
  }

  /** POST /api/auth/register. `passwordHash` is what `bcrypt.hash(password, 10)` yields. */
  function Register(st: State, email: Option<string>, name: Option<string>, password: Option<string>, passwordHash: string): (r: Step)
    ensures r.response.Error? ==> r.state == st
    ensures r.response == Error(400, "email_password_required") <==> !Truthy(email) || !Truthy(password)
    ensures r.response == Error(400, "email_exists") <==>
      Truthy(email) && Truthy(password) && FindByEmail(st.users, email.value).Some?
    ensures r.response.UserBody? <==> Truthy(email) && Truthy(password) && FindByEmail(st.users, email.value).None?
    ensures r.response.UserBody? ==>
      && r.state.tokens == st.tokens && r.state.nextTokenId == st.nextTokenId
      && r.state.users == st.users + [User(|st.users|, email.value, OrNull(name), passwordHash, "user")]
      && r.response.user == PublicUser(|st.users|, email.value, OrNull(name), "user")
  {
    if !Truthy(email) || !Truthy(password) then Step(st, Error(400, "email_password_required"))
    else if FindByEmail(st.users, email.value).Some? then Step(st, Error(400, "email_exists"))
    else
      var users := Create(st.users, email.value, OrNull(name), passwordHash, "user");
      Step(st.(users := users), UserBody(PublicUser(|st.users|, email.value, OrNull(name), "user")))
  }

  /**
   * POST /api/auth/login. `compare` is `bcrypt.compare`, `newToken` the
   * fresh `crypto.randomUUID()`. A body without an e-mail makes the store's
   * lookup throw and one without a password makes the comparison throw:
   * both end in the handler's 500.
   */
  function Login(st: State, email: Option<string>, password: Option<string>, compare: (string, string) -> bool,
                 newToken: string, now: int, ttlDays: nat): (r: Step)
    ensures r.response.Error? ==> r.state == st
    ensures r.response == Error(401, "invalid_credentials") <==>
      email.Some? &&
      (FindByEmail(st.users, email.value).None? ||
       (password.Some? && !compare(password.value, st.users[FindByEmail(st.users, email.value).value].passwordHash)))
    ensures r.response.TokenPair? ==>
      && email.Some? && FindByEmail(st.users, email.value).Some? && password.Some?
      && var u := st.users[FindByEmail(st.users, email.value).value];
      && compare(password.value, u.passwordHash)
      && newToken !in st.tokens
      && r.response == TokenPair(AccessClaims(u), newToken)
      && r.state == st.(tokens := st.tokens[newToken := TokenRow(st.nextTokenId, newToken, u.id, now + ttlDays * DayMs, None, None)],
                        nextTokenId := st.nextTokenId + 1)
    ensures (&& email.Some? && FindByEmail(st.users, email.value).Some? && password.Some?
             && compare(password.value, st.users[FindByEmail(st.users, email.value).value].passwordHash)
             && newToken !in st.tokens)
      ==> r.response.TokenPair?
    ensures (|| email.None?
             || (&& FindByEmail(st.users, email.value).Some?
                 && (|| password.None?
                     || (compare(password.value, st.users[FindByEmail(st.users, email.value).value].passwordHash)
                         && newToken in st.tokens))))
      ==> r == Step(st, Error(500, "server_error"))
  {
    if email.None? then Step(st, Error(500, "server_error"))
    else
      match FindByEmail(st.users, email.value)
      case None => Step(st, Error(401, "invalid_credentials"))
      case Some(i) =>
        var user := st.users[i];
        if password.None? then Step(st, Error(500, "server_error"))
        else if !compare(password.value, user.passwordHash) then Step(st, Error(401, "invalid_credentials"))
        else if newToken in st.tokens then Step(st, Error(500, "server_error"))
        else
          var row := TokenRow(st.nextTokenId, newToken, user.id, now + ttlDays * DayMs, None, None);
          Step(st.(tokens := st.tokens[newToken := row], nextTokenId := st.nextTokenId + 1), TokenPair(AccessClaims(user), newToken))
  }

  /** The refresh handler's acceptance test: present, not revoked, and `expiresAt < now` is false. */
  predicate Refreshable(st: State, token: string, now: int) {
    token in st.tokens && st.tokens[token].revokedAt.None? && !(st.tokens[token].expiresAt < now)
  }

  /**
   * POST /api/auth/refresh: create the successor row first, then revoke
   * the presented row with `replacedBy` = the successor's id, then sign
   * for the row's user (a missing user makes the signing throw after
   * both writes).
   */
  function Refresh(st: State, refreshToken: Option<string>, newToken: string, now: int, ttlDays: nat): (r: Step)
    ensures r.response == Error(400, "bad_request") <==> !Truthy(refreshToken)
    ensures r.response == Error(400, "invalid_refresh_token") <==>
      Truthy(refreshToken) && !Refreshable(st, refreshToken.value, now)
    ensures !Truthy(refreshToken) || !Refreshable(st, refreshToken.value, now) ==> r.state == st
    ensures r.response.TokenPair? ==> r.response.refreshToken == newToken
    ensures Truthy(refreshToken) && Refreshable(st, refreshToken.value, now) && newToken !in st.tokens ==>
      var t := refreshToken.value;
      var found := st.tokens[t];
      var row := TokenRow(st.nextTokenId, newToken, found.userId, now + ttlDays * DayMs, None, None);
      && t != newToken
      && r.state.users == st.users && r.state.nextTokenId == st.nextTokenId + 1
      && r.state.tokens == st.tokens[newToken := row][t := found.(revokedAt := Some(now), replacedBy := Some(row.id))]
      && (r.response.TokenPair? <==> FindById(st.users, found.userId).Some?)
      && (r.response.TokenPair? ==> r.response.access == AccessClaims(st.users[FindById(st.users, found.userId).value]))
      && (FindById(st.users, found.userId).None? ==> r.response == Error(500, "server_error"))
    ensures Truthy(refreshToken) && Refreshable(st, refreshToken.value, now) && newToken in st.tokens ==>
      r == Step(st, Error(500, "server_error"))
  {
    if !Truthy(refreshToken) then Step(st, Error(400, "bad_request"))
    else
      var t := refreshToken.value;
      if !Refreshable(st, t, now) then Step(st, Error(400, "invalid_refresh_token"))
      else if newToken in st.tokens then Step(st, Error(500, "server_error"))
      else
        var found := st.tokens[t];
        var row := TokenRow(st.nextTokenId, newToken, found.userId, now + ttlDays * DayMs, None, None);
        var tokens := st.tokens[newToken := row][t := found.(revokedAt := Some(now), replacedBy := Some(row.id))];
        var st' := st.(tokens := tokens, nextTokenId := st.nextTokenId + 1);
        match FindById(st.users, found.userId)
        case None => Step(st', Error(500, "server_error"))
        case Some(i) => Step(st', TokenPair(AccessClaims(st.users[i]), newToken))
  }

  /** POST /api/auth/logout: an unknown token is fine; a known one gets `revokedAt = now`, even when already revoked. */
  function Logout(st: State, refreshToken: Option<string>, now: int): (r: Step)
    ensures r.response == Error(400, "bad_request") <==> !Truthy(refreshToken)
    ensures Truthy(refreshToken) ==> r.response == OkTrue
    ensures !Truthy(refreshToken) || refreshToken.value !in st.tokens ==> r.state == st
    ensures Truthy(refreshToken) && refreshToken.value in st.tokens ==>
      r.state == st.(tokens := st.tokens[refreshToken.value := st.tokens[refreshToken.value].(revokedAt := Some(now))])
  {
    if !Truthy(refreshToken) then Step(st, Error(400, "bad_request"))
    else
      var t := refreshToken.value;
      if t !in st.tokens then Step(st, OkTrue)
      else Step(st.(tokens := st.tokens[t := st.tokens[t].(revokedAt := Some(now))]), OkTrue)
  }

  /** The row `updateMany({ where: { userId, revokedAt: null } })` leaves behind. */
  function RevokedIfUnrevoked(row: TokenRow, userId: nat, now: int): TokenRow {
    if row.userId == userId && row.revokedAt.None? then row.(revokedAt := Some(now)) else row
  }

  /** POST /api/auth/logout-all: every unrevoked row of the authenticated user, regardless of expiry. */
  function LogoutAll(st: State, authorization: Option<string>, verify: string -> Option<Claims>, now: int): (r: Step)
    ensures r.response == Error(401, "unauthorized") <==> AuthMiddleware(authorization, verify).Unauthorized?
    ensures r.response.Error? ==> r.state == st
    ensures r.response.Error? || r.response == OkTrue
    ensures AuthMiddleware(authorization, verify).Authenticated? ==> r.response == OkTrue
    ensures r.state.users == st.users && r.state.nextTokenId == st.nextTokenId && r.state.tokens.Keys == st.tokens.Keys
    ensures r.response == OkTrue ==>
      var u := AuthMiddleware(authorization, verify).user.sub;
      && (forall t :: t in st.tokens && st.tokens[t].userId == u ==> r.state.tokens[t].revokedAt.Some?)
      && (forall t :: t in st.tokens && st.tokens[t].userId == u && st.tokens[t].revokedAt.None? ==>
            r.state.tokens[t] == st.tokens[t].(revokedAt := Some(now)))
      && (forall t :: t in st.tokens && (st.tokens[t].userId != u || st.tokens[t].revokedAt.Some?) ==>
            r.state.tokens[t] == st.tokens[t])
  {
    match AuthMiddleware(authorization, verify)
    case Unauthorized => Step(st, Error(401, "unauthorized"))
    case Authenticated(c) =>
      Step(st.(tokens := map t | t in st.tokens :: RevokedIfUnrevoked(st.tokens[t], c.sub, now)), OkTrue)
  }

  lemma RowOwnedByKept(tokens: map<string, TokenRow>, tokens': map<string, TokenRow>, id: nat, userId: nat)
    requires RowOwnedBy(tokens, id, userId)
    requires forall t :: t in tokens ==> t in tokens' && tokens'[t].id == tokens[t].id && tokens'[t].userId == tokens[t].userId
    ensures RowOwnedBy(tokens', id, userId)
  {
    var t :| t in tokens && tokens[t].id == id && tokens[t].userId == userId;
    assert t in tokens' && tokens'[t].id == id && tokens'[t].userId == userId;
  }

  /** Each handler keeps the state valid; in particular `replacedBy` always names a row of the same user. */
  lemma RefreshKeepsValid(st: State, refreshToken: Option<string>, newToken: string, now: int, ttlDays: nat)
    requires Valid(st)
    ensures Valid(Refresh(st, refreshToken, newToken, now, ttlDays).state)
  {
    var r := Refresh(st, refreshToken, newToken, now, ttlDays).state;
    if Truthy(refreshToken) && Refreshable(st, refreshToken.value, now) && newToken !in st.tokens {
      var t := refreshToken.value;
      assert r.tokens[newToken].id == st.nextTokenId && r.tokens[newToken].userId == st.tokens[t].userId;
      forall x | x in r.tokens && r.tokens[x].replacedBy.Some?
        ensures r.tokens[x].revokedAt.Some? && RowOwnedBy(r.tokens, r.tokens[x].replacedBy.value, r.tokens[x].userId)
      {
        if x != t {
          assert x in st.tokens && r.tokens[x] == st.tokens[x];
          RowOwnedByKept(st.tokens, r.tokens, r.tokens[x].replacedBy.value, r.tokens[x].userId);
        }
      }
    }
  }

  lemma RegisterKeepsValid(st: State, email: Option<string>, name: Option<string>, password: Option<string>, passwordHash: string)
    requires Valid(st)
    ensures Valid(Register(st, email, name, password, passwordHash).state)
  {
    if Truthy(email) && Truthy(password) && FindByEmail(st.users, email.value).None? {
      CreateKeepsWellFormed(st.users, email.value, OrNull(name), passwordHash, "user");
    }
  }

  lemma LoginKeepsValid(st: State, email: Option<string>, password: Option<string>, compare: (string, string) -> bool,
                        newToken: string, now: int, ttlDays: nat)
    requires Valid(st)
    ensures Valid(Login(st, email, password, compare, newToken, now, ttlDays).state)
  {
    var r := Login(st, email, password, compare, newToken, now, ttlDays).state;
    forall x | x in r.tokens && r.tokens[x].replacedBy.Some?
      ensures RowOwnedBy(r.tokens, r.tokens[x].replacedBy.value, r.tokens[x].userId)
    {
      RowOwnedByKept(st.tokens, r.tokens, r.tokens[x].replacedBy.value, r.tokens[x].userId);
    }
  }

  lemma LogoutKeepsValid(st: State, refreshToken: Option<string>, now: int)
    requires Valid(st)
    ensures Valid(Logout(st, refreshToken, now).state)
  {
    var r := Logout(st, refreshToken, now).state;
    forall x | x in r.tokens && r.tokens[x].replacedBy.Some?
      ensures RowOwnedBy(r.tokens, r.tokens[x].replacedBy.value, r.tokens[x].userId)
    {
      RowOwnedByKept(st.tokens, r.tokens, r.tokens[x].replacedBy.value, r.tokens[x].userId);
    }
  }

  lemma LogoutAllKeepsValid(st: State, authorization: Option<string>, verify: string -> Option<Claims>, now: int)
    requires Valid(st)
    ensures Valid(LogoutAll(st, authorization, verify, now).state)
  {
    var r := LogoutAll(st, authorization, verify, now).state;
    forall x | x in r.tokens && r.tokens[x].replacedBy.Some?
      ensures RowOwnedBy(r.tokens, r.tokens[x].replacedBy.value, r.tokens[x].userId)
    {
      RowOwnedByKept(st.tokens, r.tokens, r.tokens[x].replacedBy.value, r.tokens[x].userId);
    }
  }

  /** A refresh token is good for one refresh: presenting it again is refused. */
  lemma RefreshIsSingleUse(st: State, refreshToken: Option<string>, newToken: string, now: int, ttlDays: nat,
                           newToken': string, later: int)
    requires Refresh(st, refreshToken, newToken, now, ttlDays).response.TokenPair?
    ensures Refresh(Refresh(st, refreshToken, newToken, now, ttlDays).state, refreshToken, newToken', later, ttlDays).response
            == Error(400, "invalid_refresh_token")
  {
  }

  /** Logging out a second time moves `revokedAt` to the later time (this variant does not skip revoked rows). */
  lemma LogoutOverwritesRevokedAt(st: State, token: string, now: int, later: int)
    requires token != [] && token in st.tokens
    ensures var st2 := Logout(Logout(st, Some(token), now).state, Some(token), later).state;
            st2.tokens[token].revokedAt == Some(later)
  {
  }

  /** Once a user has logged out everywhere, none of the tokens they held can be refreshed. */
  lemma LogoutAllBlocksRefresh(st: State, authorization: Option<string>, verify: string -> Option<Claims>, now: int,
                               token: string, newToken: string, later: int, ttlDays: nat)
    requires AuthMiddleware(authorization, verify).Authenticated?
    requires token != [] && token in st.tokens && st.tokens[token].userId == AuthMiddleware(authorization, verify).user.sub
    ensures Refresh(LogoutAll(st, authorization, verify, now).state, Some(token), newToken, later, ttlDays).response
            == Error(400, "invalid_refresh_token")
  {
  }

  /** Registering and then logging in with the same password yields a token pair for the new user. */
  lemma RegisterThenLogin(st: State, email: string, name: Option<string>, password: string, passwordHash: string,
                          compare: (string, string) -> bool, newToken: string, now: int, ttlDays: nat)
    requires email != [] && password != [] && FindByEmail(st.users, email).None?
    requires compare(password, passwordHash) && newToken !in st.tokens
    ensures var st1 := Register(st, Some(email), name, Some(password), passwordHash).state;
            Login(st1, Some(email), Some(password), compare, newToken, now, ttlDays).response
            == TokenPair(Claims(|st.users|, email, "user"), newToken)
  {
    var st1 := Register(st, Some(email), name, Some(password), passwordHash).state;
    assert FindByEmail(st1.users, email) == Some(|st.users|);
  }
}

/** src/server.js as an application object holding the two tables. */
module Server {
  import opened Wrappers
  import opened UserStore
  import opened ServerLedger

  class App {
    /** `REFRESH_TTL_DAYS`. */
    const refreshTtlDays: nat
    var users: seq<User>
    var tokens: map<string, TokenRow>
    var nextTokenId: nat

    function State(): ServerLedger.State
      reads this
    {
      ServerLedger.State(users, tokens, nextTokenId)
    }

    ghost predicate Valid()
      reads this
    {
      ServerLedger.Valid(State())
    }

    /**
     * `Number(process.env.REFRESH_TTL_DAYS || 30)`: `None` stands for a
     * setting that is absent or empty, `Some(n)` for the digits of `n`.
     */
    constructor (refreshTtlDays: Option<nat>)
      ensures Valid() && State() == ServerLedger.State([], map[], 0)
      ensures this.refreshTtlDays == if refreshTtlDays.Some? then refreshTtlDays.value else 30
    {
      this.refreshTtlDays := if refreshTtlDays.Some? then refreshTtlDays.value else 30;
      users := [];
      tokens := map[];
      nextTokenId := 0;
    }

    method Register(email: Option<string>, name: Option<string>, password: Option<string>, passwordHash: string)
      returns (response: Response)
      requires Valid()
      modifies this
      ensures Valid()
      ensures Step(State(), response) == ServerLedger.Register(old(State()), email, name, password, passwordHash)
    {
      RegisterKeepsValid(State(), email, name, password, passwordHash);
      if !Truthy(email) || !Truthy(password) {
        return Error(400, "email_password_required");
      }
      var taken := FindByEmail(users, email.value);
      if taken.Some? {
        return Error(400, "email_exists");
      }
      var id := |users|;
      users := users + [User(id, email.value, OrNull(name), passwordHash, "user")];
      response := UserBody(PublicUser(id, email.value, OrNull(name), "user"));
    }

    method Login(email: Option<string>, password: Option<string>, compare: (string, string) -> bool,
                 newToken: string, now: int) returns (response: Response)
      requires Valid()
      modifies this
      ensures Valid()
      ensures Step(State(), response) == ServerLedger.Login(old(State()), email, password, compare, newToken, now, refreshTtlDays)
    {
      LoginKeepsValid(State(), email, password, compare, newToken, now, refreshTtlDays);
      if email.None? {
        return Error(500, "server_error");
      }
      var found := FindByEmail(users, email.value);
      if found.None? {
        return Error(401, "invalid_credentials");
      }
      var user := users[found.value];
      if password.None? {
        return Error(500, "server_error");
      }
      var ok := compare(password.value, user.passwordHash);
      if !ok {
        return Error(401, "invalid_credentials");
      }
      if newToken in tokens {
        return Error(500, "server_error");
      }
      var row := TokenRow(nextTokenId, newToken, user.id, now + refreshTtlDays * DayMs, None, None);
      assert ServerLedger.Login(State(), email, password, compare, newToken, now, refreshTtlDays)
        == Step(State().(tokens := tokens[newToken := row], nextTokenId := nextTokenId + 1), TokenPair(AccessClaims(user), newToken));
      tokens := tokens[newToken := row];
      nextTokenId := nextTokenId + 1;
      response := TokenPair(AccessClaims(user), newToken);
    }

    method Refresh(refreshToken: Option<string>, newToken: string, now: int) returns (response: Response)
      requires Valid()
      modifies this
      ensures Valid()
      ensures Step(State(), response) == ServerLedger.Refresh(old(State()), refreshToken, newToken, now, refreshTtlDays)
    {
      RefreshKeepsValid(State(), refreshToken, newToken, now, refreshTtlDays);
      if !Truthy(refreshToken) {
        return Error(400, "bad_request");
      }
      var t := refreshToken.value;
      if t !in tokens || tokens[t].revokedAt.Some? || tokens[t].expiresAt < now {
        return Error(400, "invalid_refresh_token");
      }
      var found := tokens[t];
      if newToken in tokens {
        return Error(500, "server_error");
      }
      var newRow := TokenRow(nextTokenId, newToken, found.userId, now + refreshTtlDays * DayMs, None, None);
      ghost var after := State().(tokens := tokens[newToken := newRow][t := found.(revokedAt := Some(now), replacedBy := Some(newRow.id))],
                                  nextTokenId := nextTokenId + 1);
      ghost var expected := ServerLedger.Refresh(State(), refreshToken, newToken, now, refreshTtlDays);
      assert expected.state == after;
      tokens := tokens[newToken := newRow];
      nextTokenId := nextTokenId + 1;
      tokens := tokens[t := tokens[t].(revokedAt := Some(now), replacedBy := Some(newRow.id))];
      var owner := FindById(users, found.userId);
      if owner.None? {
        return Error(500, "server_error");
      }
      response := TokenPair(AccessClaims(users[owner.value]), newToken);
    }

    method Logout(refreshToken: Option<string>, now: int) returns (response: Response)
      requires Valid()
      modifies this
      ensures Valid()
      ensures Step(State(), response) == ServerLedger.Logout(old(State()), refreshToken, now)
    {
      LogoutKeepsValid(State(), refreshToken, now);
      if !Truthy(refreshToken) {
        return Error(400, "bad_request");
      }
      var t := refreshToken.value;
      if t !in tokens {
        return OkTrue;
      }
      tokens := tokens[t := tokens[t].(revokedAt := Some(now))];
      response := OkTrue;
    }

    method LogoutAll(authorization: Option<string>, verify: string -> Option<Claims>, now: int) returns (response: Response)
      requires Valid()
      modifies this
      ensures Valid()
      ensures Step(State(), response) == ServerLedger.LogoutAll(old(State()), authorization, verify, now)
    {
      LogoutAllKeepsValid(State(), authorization, verify, now);
      var auth := AuthMiddleware(authorization, verify);
      if auth.Unauthorized? {
        return Error(401, "unauthorized");
      }
      tokens := map t | t in tokens :: RevokedIfUnrevoked(tokens[t], auth.user.sub, now);
      response := OkTrue;
    }
  }
}
