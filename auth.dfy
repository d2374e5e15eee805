/**
 * src/auth.js: the router variant whose refresh-token table is keyed by the
 * raw token, whose `replacedBy` holds the successor's token string, and
 * whose revocations skip rows that are already revoked.
 */
module AuthLedger {
  import opened Wrappers
  import opened UserStore

  datatype TokenRow = TokenRow(id: nat, token: string, userId: nat, expiresAt: int, revokedAt: Option<int>, replacedBy: Option<string>)

  datatype State = State(users: seq<User>, tokens: map<string, TokenRow>, nextTokenId: nat)

  /**
   * The user table is well formed, every row sits under its own token with
   * a unique allocated id, and `replacedBy` is only set on a revoked row and
   * names the token of a row of the same user.
   */
  ghost predicate Valid(st: State) {
    WellFormed(st.users) && TokensValid(st.tokens, st.nextTokenId)
  }

  /** Rows keyed by their token, ids unique and below the next id, and `replacedBy` naming a row of the same user. */
  ghost predicate TokensValid(tokens: map<string, TokenRow>, nextTokenId: nat) {
    && (forall t :: t in tokens ==> tokens[t].token == t && tokens[t].id < nextTokenId)
    && (forall t1, t2 :: t1 in tokens && t2 in tokens && t1 != t2 ==> tokens[t1].id != tokens[t2].id)
    && (forall t :: t in tokens && tokens[t].replacedBy.Some? ==>
          && tokens[t].revokedAt.Some?
          && tokens[t].replacedBy.value in tokens
          && tokens[tokens[t].replacedBy.value].userId == tokens[t].userId)
  }

  /** A fresh, unlinked row with the next id keeps the token table valid. */
  lemma AddRowKeepsValid(tokens: map<string, TokenRow>, nextTokenId: nat, row: TokenRow)
    requires TokensValid(tokens, nextTokenId) && row.token !in tokens && row.id == nextTokenId && row.replacedBy.None?
    ensures TokensValid(tokens[row.token := row], nextTokenId + 1)
  {
  }

  /** Rows revoked in place, with their keys, ids and owners kept and their links only ever cleared, keep the table valid. */
  lemma RevokeRowsKeepsValid(tokens: map<string, TokenRow>, revoked: map<string, TokenRow>, nextTokenId: nat)
    requires TokensValid(tokens, nextTokenId) && revoked.Keys == tokens.Keys
    requires forall t :: t in tokens ==>
      && revoked[t].token == tokens[t].token && revoked[t].id == tokens[t].id && revoked[t].userId == tokens[t].userId
      && (revoked[t].replacedBy.Some? ==> revoked[t] == tokens[t])
    ensures TokensValid(revoked, nextTokenId)
  {
  }

  datatype CreateOutcome = Created(token: string) | Collision
  datatype CreateStep = CreateStep(state: State, outcome: CreateOutcome)

  /**
   * `createRefreshToken`: one row for `token` (the fresh uuid) expiring
   * `ttlSeconds` from now. A token already in the table violates the
   * unique index and the create throws.
   */
  function CreateRefreshToken(st: State, userId: nat, token: string, now: int, ttlSeconds: nat): (r: CreateStep)
    ensures r.outcome.Created? <==> token !in st.tokens
    ensures r.outcome.Collision? ==> r.state == st
    ensures r.outcome.Created? ==>
      && r.outcome.token == token
      && r.state.users == st.users
      && r.state.tokens == st.tokens[token := TokenRow(st.nextTokenId, token, userId, now + ttlSeconds * 1000, None, None)]
      && r.state.nextTokenId == st.nextTokenId + 1
  {
    if token in st.tokens then CreateStep(st, Collision)
    else
      var row := TokenRow(st.nextTokenId, token, userId, now + ttlSeconds * 1000, None, None);
      CreateStep(st.(tokens := st.tokens[token := row], nextTokenId := st.nextTokenId + 1), Created(token))
  }

  /**
   * `revokeToken`: `updateMany` over the rows with this token and no
   * `revokedAt`, setting `revokedAt` and clearing `replacedBy`.
   */
  function RevokeToken(st: State, token: string, now: int): (r: State)
    ensures r.users == st.users && r.nextTokenId == st.nextTokenId && r.tokens.Keys == st.tokens.Keys
    ensures token !in st.tokens || st.tokens[token].revokedAt.Some? ==> r == st
    ensures token in st.tokens && st.tokens[token].revokedAt.None? ==>
      r.tokens[token] == st.tokens[token].(revokedAt := Some(now), replacedBy := None)
    ensures forall t :: t in st.tokens && t != token ==> r.tokens[t] == st.tokens[t]
  {
    if token in st.tokens && st.tokens[token].revokedAt.None? then
      st.(tokens := st.tokens[token := st.tokens[token].(revokedAt := Some(now), replacedBy := None)])
    else st
  }

  /**
   * `rotateRefreshToken`: create the successor for `userId`, then mark
   * every row with the old token revoked with `replacedBy` = the new token
   * string (this `updateMany` does not filter on `revokedAt`).
   */
  function RotateRefreshToken(st: State, oldToken: string, userId: nat, newToken: string, now: int, ttlSeconds: nat): (r: CreateStep)
    ensures r.outcome.Collision? <==> newToken in st.tokens
    ensures r.outcome.Collision? ==> r.state == st
    ensures r.outcome.Created? ==>
      && r.outcome.token == newToken
      && r.state.users == st.users && r.state.nextTokenId == st.nextTokenId + 1
      && r.state.tokens.Keys == st.tokens.Keys + {newToken}
      && (var row := TokenRow(st.nextTokenId, newToken, userId, now + ttlSeconds * 1000, None, None);
          // the second `updateMany` also matches the new row when both tokens coincide
          r.state.tokens[newToken] == if oldToken == newToken then row.(revokedAt := Some(now), replacedBy := Some(newToken)) else row)
      && (oldToken in st.tokens ==>
            r.state.tokens[oldToken] == st.tokens[oldToken].(revokedAt := Some(now), replacedBy := Some(newToken)))
      && (forall t :: t in st.tokens && t != oldToken ==> r.state.tokens[t] == st.tokens[t])
  {
    var created := CreateRefreshToken(st, userId, newToken, now, ttlSeconds);
    if created.outcome.Collision? then created
    else
      var s := created.state;
      if oldToken in s.tokens then
        CreateStep(s.(tokens := s.tokens[oldToken := s.tokens[oldToken].(revokedAt := Some(now), replacedBy := Some(newToken))]),
                   created.outcome)
      else created
  }

  /** `findValidRefresh`: the row for `token` only if it is unrevoked and `expiresAt > now`. */
  function FindValidRefresh(st: State, token: string, now: int): (r: Option<TokenRow>)
    ensures r.Some? <==> token in st.tokens && st.tokens[token].revokedAt.None? && st.tokens[token].expiresAt > now
    ensures r.Some? ==> r.value == st.tokens[token]
  {
    if token in st.tokens && st.tokens[token].revokedAt.None? && st.tokens[token].expiresAt > now then Some(st.tokens[token])
    else None
  }

  /** `h.startsWith("Bearer ") ? h.slice(7) : null`, where an empty remainder is refused too. */
  function BearerToken(h: string): (r: Option<string>)
    ensures r.Some? <==> |h| > 7 && h[..7] == "Bearer "
    ensures r.Some? ==> h == "Bearer " + r.value && r.value != ""
  {
    if |h| >= 7 && h[..7] == "Bearer " && h[7..] != "" then Some(h[7..]) else None
  }

  /** The scheme is case-sensitive and exactly one space is consumed. */
  lemma BearerTokenExamples()
    ensures BearerToken("Bearer abc") == Some("abc")
    ensures BearerToken("Bearer  abc") == Some(" abc")
    ensures BearerToken("bearer abc") == None
    ensures BearerToken("Bearer ") == None
  {
    assert "Bearer abc"[..7] == "Bearer " && "Bearer abc"[7..] == "abc";
    assert "Bearer  abc"[..7] == "Bearer " && "Bearer  abc"[7..] == " abc";
    assert "bearer abc"[..7][0] == 'b';
  }

  /** A well-formed header is read back for any non-empty token. */
  lemma BearerTokenRoundTrip(token: string)
    requires token != ""
    ensures BearerToken("Bearer " + token) == Some(token)
  {
    assert ("Bearer " + token)[..7] == "Bearer " && ("Bearer " + token)[7..] == token;
  }

  function HeaderText(authorization: Option<string>): string {
    if authorization.Some? then authorization.value else ""
  }

  /** `authMiddleware`: a missing or malformed header is refused before the verifier is consulted. */
  function AuthMiddleware(authorization: Option<string>, verify: string -> Option<Claims>): (r: AuthResult)
    ensures BearerToken(HeaderText(authorization)).None? ==> r == Unauthorized
    ensures r.Authenticated? <==>
      BearerToken(HeaderText(authorization)).Some? && verify(BearerToken(HeaderText(authorization)).value).Some?
    ensures r.Authenticated? ==> Some(r.user) == verify(BearerToken(HeaderText(authorization)).value)
  {
    match BearerToken(HeaderText(authorization))
    case None => Unauthorized
    case Some(token) =>
      match verify(token)
      case None => Unauthorized
      case Some(c) => Authenticated(c)
  }

  /** `signAccessToken`: `{ sub, email, role }` of the user, role taken as stored. */
  function AccessClaims(u: User): Claims {
    Claims(u.id, u.email, u.role)
  }

  datatype Response =
    | Error(status: nat, error: string)
    | TokenPair(access: Claims, refreshToken: string)
    | OkTrue

  datatype Step = Step(state: State, response: Response)

  /**
   * POST /register. The user is created before its refresh token, so a
   * failing token create leaves the new user in place and answers 500.
   */
  function Register(st: State, email: Option<string>, name: Option<string>, password: Option<string>,
                    passwordHash: string, newToken: string, now: int, ttlSeconds: nat): (r: Step)
    ensures r.response == Error(400, "bad_request") <==> !Truthy(email) || !Truthy(password)
    ensures r.response == Error(409, "email_exists") <==>
      Truthy(email) && Truthy(password) && FindByEmail(st.users, email.value).Some?
    ensures r.response.Error? && r.response.status != 500 ==> r.state == st
    ensures Truthy(email) && Truthy(password) && FindByEmail(st.users, email.value).None? ==>
      && r.state.users == st.users + [User(|st.users|, email.value, OrNull(name), passwordHash, "user")]
      && (r.response.TokenPair? <==> newToken !in st.tokens)
      && (r.response.TokenPair? ==>
            && r.response == TokenPair(Claims(|st.users|, email.value, "user"), newToken)
            && r.state.tokens == st.tokens[newToken := TokenRow(st.nextTokenId, newToken, |st.users|, now + ttlSeconds * 1000, None, None)])
      && (!r.response.TokenPair? ==> r.response == Error(500, "server_error") && r.state.tokens == st.tokens)
  {
    if !Truthy(email) || !Truthy(password) then Step(st, Error(400, "bad_request"))
    else if FindByEmail(st.users, email.value).Some? then Step(st, Error(409, "email_exists"))
    else
      var user := User(|st.users|, email.value, OrNull(name), passwordHash, "user");
      var st1 := st.(users := Create(st.users, email.value, OrNull(name), passwordHash, "user"));
      var created := CreateRefreshToken(st1, user.id, newToken, now, ttlSeconds);
      if created.outcome.Collision? then Step(st1, Error(500, "server_error"))
      else Step(created.state, TokenPair(AccessClaims(user), newToken))
  }

  /** POST /login: validation, then the same 401 for an unknown e-mail and a wrong password. */
  function Login(st: State, email: Option<string>, password: Option<string>, compare: (string, string) -> bool,
                 newToken: string, now: int, ttlSeconds: nat): (r: Step)
    ensures r.response.Error? ==> r.state == st
    ensures r.response == Error(400, "bad_request") <==> !Truthy(email) || !Truthy(password)
    ensures r.response == Error(401, "invalid_credentials") <==>
      Truthy(email) && Truthy(password) &&
      (FindByEmail(st.users, email.value).None? ||
       !compare(password.value, st.users[FindByEmail(st.users, email.value).value].passwordHash))
    ensures r.response.TokenPair? ==>
      var u := st.users[FindByEmail(st.users, email.value).value];
      && r.response == TokenPair(AccessClaims(u), newToken)
      && r.state == CreateRefreshToken(st, u.id, newToken, now, ttlSeconds).state
      && newToken !in st.tokens
    ensures (&& Truthy(email) && Truthy(password) && FindByEmail(st.users, email.value).Some?
             && compare(password.value, st.users[FindByEmail(st.users, email.value).value].passwordHash)
             && newToken !in st.tokens)
      ==> r.response.TokenPair?
    ensures (&& Truthy(email) && Truthy(password) && FindByEmail(st.users, email.value).Some?
             && compare(password.value, st.users[FindByEmail(st.users, email.value).value].passwordHash)
             && newToken in st.tokens)
      ==> r == Step(st, Error(500, "server_error"))
  {
    if !Truthy(email) || !Truthy(password) then Step(st, Error(400, "bad_request"))
    else
      match FindByEmail(st.users, email.value)
      case None => Step(st, Error(401, "invalid_credentials"))
      case Some(i) =>
        var user := st.users[i];
        if !compare(password.value, user.passwordHash) then Step(st, Error(401, "invalid_credentials"))
        else
          var created := CreateRefreshToken(st, user.id, newToken, now, ttlSeconds);
          if created.outcome.Collision? then Step(st, Error(500, "server_error"))
          else Step(created.state, TokenPair(AccessClaims(user), newToken))
  }

  /**
   * POST /refresh: an invalid, revoked or expired token is 404 with no
   * change; otherwise the rotation runs in one transaction for the row's
   * user.
   */
  function Refresh(st: State, refreshToken: Option<string>, newToken: string, now: int, ttlSeconds: nat): (r: Step)
    ensures r.response == Error(400, "bad_request") <==> !Truthy(refreshToken)
    ensures r.response == Error(404, "not_found") <==>
      Truthy(refreshToken) && FindValidRefresh(st, refreshToken.value, now).None?
    ensures r.response.Error? ==> r.state == st
    ensures r.response.TokenPair? ==>
      var found := st.tokens[refreshToken.value];
      && FindValidRefresh(st, refreshToken.value, now) == Some(found)
      && FindById(st.users, found.userId).Some?
      && r.response.refreshToken == newToken
      && r.response.access == AccessClaims(st.users[FindById(st.users, found.userId).value])
      && r.state == RotateRefreshToken(st, refreshToken.value, found.userId, newToken, now, ttlSeconds).state
    ensures (&& Truthy(refreshToken) && FindValidRefresh(st, refreshToken.value, now).Some?
             && FindById(st.users, FindValidRefresh(st, refreshToken.value, now).value.userId).Some?
             && newToken !in st.tokens)
      ==> r.response.TokenPair?
    ensures (&& Truthy(refreshToken) && FindValidRefresh(st, refreshToken.value, now).Some?
             && (|| FindById(st.users, FindValidRefresh(st, refreshToken.value, now).value.userId).None?
                 || newToken in st.tokens))
      ==> r == Step(st, Error(500, "server_error"))
  {
    if !Truthy(refreshToken) then Step(st, Error(400, "bad_request"))
    else
      match FindValidRefresh(st, refreshToken.value, now)
      case None => Step(st, Error(404, "not_found"))
      case Some(found) =>
        match FindById(st.users, found.userId)
        case None => Step(st, Error(500, "server_error"))
        case Some(i) =>
          var rotated := RotateRefreshToken(st, refreshToken.value, found.userId, newToken, now, ttlSeconds);
          if rotated.outcome.Collision? then Step(st, Error(500, "server_error"))
          else Step(rotated.state, TokenPair(AccessClaims(st.users[i]), newToken))
  }

  /** POST /logout. */
  function Logout(st: State, refreshToken: Option<string>, now: int): (r: Step)
    ensures r.response == Error(400, "bad_request") <==> !Truthy(refreshToken)
    ensures !Truthy(refreshToken) ==> r.state == st
    ensures Truthy(refreshToken) ==> r.response == OkTrue && r.state == RevokeToken(st, refreshToken.value, now)
  {
    if !Truthy(refreshToken) then Step(st, Error(400, "bad_request"))
    else Step(RevokeToken(st, refreshToken.value, now), OkTrue)
  }

  /** The row `updateMany({ where: { userId, revokedAt: null, expiresAt: { gt: now } } })` leaves. */
  function RevokedIfLive(row: TokenRow, userId: nat, now: int): TokenRow {
    if row.userId == userId && row.revokedAt.None? && row.expiresAt > now then row.(revokedAt := Some(now), replacedBy := None)
    else row
  }

  /** POST /logout-all: only the user's unrevoked and unexpired rows; expired rows keep a null `revokedAt`. */
  function LogoutAll(st: State, authorization: Option<string>, verify: string -> Option<Claims>, now: int): (r: Step)
    ensures r.response == Error(401, "unauthorized") <==> AuthMiddleware(authorization, verify).Unauthorized?
    ensures r.response.Error? ==> r.state == st
    ensures r.response.Error? || r.response == OkTrue
    ensures AuthMiddleware(authorization, verify).Authenticated? ==> r.response == OkTrue
    ensures r.state.users == st.users && r.state.nextTokenId == st.nextTokenId && r.state.tokens.Keys == st.tokens.Keys
    ensures r.response == OkTrue ==>
      var u := AuthMiddleware(authorization, verify).user.sub;
      && (forall t :: t in st.tokens && st.tokens[t].userId == u && st.tokens[t].revokedAt.None? && st.tokens[t].expiresAt > now ==>
            r.state.tokens[t] == st.tokens[t].(revokedAt := Some(now), replacedBy := None))
      && (forall t :: t in st.tokens && (st.tokens[t].userId != u || st.tokens[t].revokedAt.Some? || st.tokens[t].expiresAt <= now) ==>
            r.state.tokens[t] == st.tokens[t])
  {
    match AuthMiddleware(authorization, verify)
    case Unauthorized => Step(st, Error(401, "unauthorized"))
    case Authenticated(c) =>
      Step(st.(tokens := map t | t in st.tokens :: RevokedIfLive(st.tokens[t], c.sub, now)), OkTrue)
  }

  /** Revoking twice is the same as revoking once, whatever the second call's clock says. */
  lemma RevokeTokenIdempotent(st: State, token: string, now: int, later: int)
    ensures RevokeToken(RevokeToken(st, token, now), token, later) == RevokeToken(st, token, now)
  {
  }

  /** A token accepted by the refresh handler is refused the second time it is presented. */
  lemma RefreshIsSingleUse(st: State, refreshToken: Option<string>, newToken: string, now: int, ttlSeconds: nat,
                           newToken': string, later: int)
    requires Refresh(st, refreshToken, newToken, now, ttlSeconds).response.TokenPair?
    ensures Refresh(Refresh(st, refreshToken, newToken, now, ttlSeconds).state, refreshToken, newToken', later, ttlSeconds).response
            == Error(404, "not_found")
  {
    var found := st.tokens[refreshToken.value];
    assert refreshToken.value != newToken;
  }

  /** The refresh handler keeps the state valid: `replacedBy` names the successor, which belongs to the same user. */
  lemma RefreshKeepsValid(st: State, refreshToken: Option<string>, newToken: string, now: int, ttlSeconds: nat)
    requires Valid(st)
    ensures Valid(Refresh(st, refreshToken, newToken, now, ttlSeconds).state)
  {
    var r := Refresh(st, refreshToken, newToken, now, ttlSeconds);
    if r.response.TokenPair? {
      var t := refreshToken.value;
      assert t in st.tokens && newToken !in st.tokens;
      LinkRowKeepsValid(st.tokens, r.state.tokens, st.nextTokenId, t, r.state.tokens[newToken]);
    }
  }

  /** Rotation: a fresh row of the same user, and the old row revoked and linked to it, keep the table valid. */
  lemma LinkRowKeepsValid(tokens: map<string, TokenRow>, rotated: map<string, TokenRow>, nextTokenId: nat, t: string, row: TokenRow)
    requires TokensValid(tokens, nextTokenId) && t in tokens && row.token !in tokens
    requires row.id == nextTokenId && row.userId == tokens[t].userId && row.replacedBy.None?
    requires rotated.Keys == tokens.Keys + {row.token} && rotated[row.token] == row
    requires rotated[t].token == t && rotated[t].id == tokens[t].id && rotated[t].userId == tokens[t].userId
    requires rotated[t].revokedAt.Some? && rotated[t].replacedBy == Some(row.token)
    requires forall x :: x in tokens && x != t ==> rotated[x] == tokens[x]
    ensures TokensValid(rotated, nextTokenId + 1)
  {
    forall x | x in rotated && rotated[x].replacedBy.Some?
      ensures rotated[x].replacedBy.value in rotated
      ensures rotated[rotated[x].replacedBy.value].userId == rotated[x].userId
    {
      if x != t {
        assert x in tokens && rotated[x] == tokens[x];
        assert rotated[x].replacedBy.value in tokens;
      }
    }
  }

  lemma LogoutAllKeepsValid(st: State, authorization: Option<string>, verify: string -> Option<Claims>, now: int)
    requires Valid(st)
    ensures Valid(LogoutAll(st, authorization, verify, now).state)
  {
    var r := LogoutAll(st, authorization, verify, now);
    RevokeRowsKeepsValid(st.tokens, r.state.tokens, st.nextTokenId);
  }

  lemma LogoutKeepsValid(st: State, refreshToken: Option<string>, now: int)
    requires Valid(st)
    ensures Valid(Logout(st, refreshToken, now).state)
  {
    var r := Logout(st, refreshToken, now);
    RevokeRowsKeepsValid(st.tokens, r.state.tokens, st.nextTokenId);
  }

  lemma LoginKeepsValid(st: State, email: Option<string>, password: Option<string>, compare: (string, string) -> bool,
                        newToken: string, now: int, ttlSeconds: nat)
    requires Valid(st)
    ensures Valid(Login(st, email, password, compare, newToken, now, ttlSeconds).state)
  {
    var r := Login(st, email, password, compare, newToken, now, ttlSeconds);
    if r.response.TokenPair? {
      AddRowKeepsValid(st.tokens, st.nextTokenId, r.state.tokens[newToken]);
    }
  }

  lemma RegisterKeepsValid(st: State, email: Option<string>, name: Option<string>, password: Option<string>,
                           passwordHash: string, newToken: string, now: int, ttlSeconds: nat)
    requires Valid(st)
    ensures Valid(Register(st, email, name, password, passwordHash, newToken, now, ttlSeconds).state)
  {
    if Truthy(email) && Truthy(password) && FindByEmail(st.users, email.value).None? {
      CreateKeepsWellFormed(st.users, email.value, OrNull(name), passwordHash, "user");
      if newToken !in st.tokens {
        AddRowKeepsValid(st.tokens, st.nextTokenId, TokenRow(st.nextTokenId, newToken, |st.users|, now + ttlSeconds * 1000, None, None));
      }
    }
  }

  /** After log-out everywhere, an expired row of that user still has no `revokedAt`. */
  lemma LogoutAllLeavesExpiredRows(st: State, authorization: Option<string>, verify: string -> Option<Claims>, now: int, t: string)
    requires AuthMiddleware(authorization, verify).Authenticated?
    requires t in st.tokens && st.tokens[t].revokedAt.None? && st.tokens[t].expiresAt <= now
    ensures LogoutAll(st, authorization, verify, now).state.tokens[t].revokedAt.None?
  {
  }

  /** After log-out everywhere, no token that user held is accepted by the refresh handler from then on. */
  lemma LogoutAllBlocksRefresh(st: State, authorization: Option<string>, verify: string -> Option<Claims>, now: int,
                               token: string, newToken: string, later: int, ttlSeconds: nat)
    requires AuthMiddleware(authorization, verify).Authenticated?
    requires token != "" && token in st.tokens && st.tokens[token].userId == AuthMiddleware(authorization, verify).user.sub
    requires later >= now
    ensures Refresh(LogoutAll(st, authorization, verify, now).state, Some(token), newToken, later, ttlSeconds).response
            == Error(404, "not_found")
  {
  }

  /**
   * Registering, then logging in with a password the hash accepts, yields a
   * token pair for the new user's id (the registration's own refresh token
   * and the login's are distinct fresh tokens).
   */
  lemma RegisterThenLogin(st: State, email: string, name: Option<string>, password: string, passwordHash: string,
                          compare: (string, string) -> bool, registerToken: string, loginToken: string,
                          now: int, later: int, ttlSeconds: nat)
    requires email != [] && password != [] && FindByEmail(st.users, email).None?
    requires compare(password, passwordHash)
    requires loginToken !in st.tokens && loginToken != registerToken
    ensures var st1 := Register(st, Some(email), name, Some(password), passwordHash, registerToken, now, ttlSeconds).state;
            Login(st1, Some(email), Some(password), compare, loginToken, later, ttlSeconds).response
            == TokenPair(Claims(|st.users|, email, "user"), loginToken)
  {
    var st1 := Register(st, Some(email), name, Some(password), passwordHash, registerToken, now, ttlSeconds).state;
    assert FindByEmail(st1.users, email) == Some(|st.users|);
    assert loginToken !in st1.tokens;
  }
}

/** src/auth.js as a router object holding the two tables. */
module Auth {
  import opened Wrappers
  import opened UserStore
  import opened AuthLedger

  class Router {
    /** `REFRESH_TTL_SECONDS`. */
    const refreshTtlSeconds: nat
    var users: seq<User>
    var tokens: map<string, TokenRow>
    var nextTokenId: nat

    function State(): AuthLedger.State
      reads this
    {
      AuthLedger.State(users, tokens, nextTokenId)
    }

    ghost predicate Valid()
      reads this
    {
      AuthLedger.Valid(State())
    }

    /** `parseInt(process.env.REFRESH_TTL_SECONDS || "604800", 10)`: `None` for an absent or empty setting. */
    constructor (refreshTtlSeconds: Option<nat>)
      ensures Valid() && State() == AuthLedger.State([], map[], 0)
      ensures this.refreshTtlSeconds == if refreshTtlSeconds.Some? then refreshTtlSeconds.value else 604800
    {
      this.refreshTtlSeconds := if refreshTtlSeconds.Some? then refreshTtlSeconds.value else 604800;
      users := [];
      tokens := map[];
      nextTokenId := 0;
    }

    method CreateRefreshToken(userId: nat, token: string, now: int) returns (out: CreateOutcome)
      modifies this
      ensures users == old(users)
      ensures CreateStep(State(), out) == AuthLedger.CreateRefreshToken(old(State()), userId, token, now, refreshTtlSeconds)
    {
      if token in tokens {
        return Collision;
      }
      tokens := tokens[token := TokenRow(nextTokenId, token, userId, now + refreshTtlSeconds * 1000, None, None)];
      nextTokenId := nextTokenId + 1;
      out := Created(token);
    }

    method RevokeToken(token: string, now: int)
      modifies this
      ensures State() == AuthLedger.RevokeToken(old(State()), token, now)
    {
      if token in tokens && tokens[token].revokedAt.None? {
        tokens := tokens[token := tokens[token].(revokedAt := Some(now), replacedBy := None)];
      }
    }

    method RotateRefreshToken(oldToken: string, userId: nat, newToken: string, now: int) returns (out: CreateOutcome)
      modifies this
      ensures CreateStep(State(), out) == AuthLedger.RotateRefreshToken(old(State()), oldToken, userId, newToken, now, refreshTtlSeconds)
    {
      out := CreateRefreshToken(userId, newToken, now);
      if out.Collision? {
        return;
      }
      if oldToken in tokens {
        tokens := tokens[oldToken := tokens[oldToken].(revokedAt := Some(now), replacedBy := Some(newToken))];
      }
    }

    method Register(email: Option<string>, name: Option<string>, password: Option<string>,
                    passwordHash: string, newToken: string, now: int) returns (response: Response)
      requires Valid()
      modifies this
      ensures Valid()
      ensures Step(State(), response) == AuthLedger.Register(old(State()), email, name, password, passwordHash, newToken, now, refreshTtlSeconds)
    {
      RegisterKeepsValid(State(), email, name, password, passwordHash, newToken, now, refreshTtlSeconds);
      if !Truthy(email) || !Truthy(password) {
        return Error(400, "bad_request");
      }
      var taken := FindByEmail(users, email.value);
      if taken.Some? {
        return Error(409, "email_exists");
      }
      var user := User(|users|, email.value, OrNull(name), passwordHash, "user");
      users := users + [user];
      var created := CreateRefreshToken(user.id, newToken, now);
      if created.Collision? {
        return Error(500, "server_error");
      }
      response := TokenPair(AccessClaims(user), newToken);
    }

    method Login(email: Option<string>, password: Option<string>, compare: (string, string) -> bool,
                 newToken: string, now: int) returns (response: Response)
      requires Valid()
      modifies this
      ensures Valid()
      ensures Step(State(), response) == AuthLedger.Login(old(State()), email, password, compare, newToken, now, refreshTtlSeconds)
    {
      LoginKeepsValid(State(), email, password, compare, newToken, now, refreshTtlSeconds);
      if !Truthy(email) || !Truthy(password) {
        return Error(400, "bad_request");
      }
      var found := FindByEmail(users, email.value);
      if found.None? {
        return Error(401, "invalid_credentials");
      }
      var user := users[found.value];
      var ok := compare(password.value, user.passwordHash);
      if !ok {
        return Error(401, "invalid_credentials");
      }
      var created := CreateRefreshToken(user.id, newToken, now);
      if created.Collision? {
        return Error(500, "server_error");
      }
      response := TokenPair(AccessClaims(user), newToken);
    }

    method Refresh(refreshToken: Option<string>, newToken: string, now: int) returns (response: Response)
      requires Valid()
      modifies this
      ensures Valid()
      ensures Step(State(), response) == AuthLedger.Refresh(old(State()), refreshToken, newToken, now, refreshTtlSeconds)
    {
      RefreshKeepsValid(State(), refreshToken, newToken, now, refreshTtlSeconds);
      if !Truthy(refreshToken) {
        return Error(400, "bad_request");
      }
      var found := FindValidRefresh(State(), refreshToken.value, now);
      if found.None? {
        return Error(404, "not_found");
      }
      var owner := FindById(users, found.value.userId);
      if owner.None? {
        return Error(500, "server_error");
      }
      var user := users[owner.value];
      var rotated := RotateRefreshToken(refreshToken.value, found.value.userId, newToken, now);
      if rotated.Collision? {
        return Error(500, "server_error");
      }
      response := TokenPair(AccessClaims(user), newToken);
    }

    method Logout(refreshToken: Option<string>, now: int) returns (response: Response)
      requires Valid()
      modifies this
      ensures Valid()
      ensures Step(State(), response) == AuthLedger.Logout(old(State()), refreshToken, now)
    {
      LogoutKeepsValid(State(), refreshToken, now);
      if !Truthy(refreshToken) {
        return Error(400, "bad_request");
      }
      RevokeToken(refreshToken.value, now);
      response := OkTrue;
    }

    method LogoutAll(authorization: Option<string>, verify: string -> Option<Claims>, now: int) returns (response: Response)
      requires Valid()
      modifies this
      ensures Valid()
      ensures Step(State(), response) == AuthLedger.LogoutAll(old(State()), authorization, verify, now)
    {
      LogoutAllKeepsValid(State(), authorization, verify, now);
      var auth := AuthMiddleware(authorization, verify);
      if auth.Unauthorized? {
        return Error(401, "unauthorized");
      }
      tokens := map t | t in tokens :: RevokedIfLive(tokens[t], auth.user.sub, now);
      response := OkTrue;
    }
  }
}
