/**
 * src/routes/password.js: password reset. A request for a known address
 * creates one single-use token row (the uuid with its hyphens removed);
 * a reset consumes the token and replaces the owner's password hash in one
 * transaction.
 */
module PasswordReset {
  import opened Wrappers
  import opened UserStore
  import opened OneTimeTokens

  datatype State = State(users: seq<User>, resets: Table)

  /** The user table is well formed and every row names an existing user (the foreign key). */
  ghost predicate Valid(st: State) {
    && WellFormed(st.users)
    && forall t :: t in st.resets ==> st.resets[t].userId < |st.users|
  }

  datatype Response = Error(status: nat, error: string) | Ok(delivery: Option<Delivery>)

  datatype Step = Step(state: State, response: Response)

  /** `s.replace(/-/g, '')`: the other characters, in order. */
  function StripHyphens(s: string): (r: string)
    ensures NoHyphen(r)
    ensures NoHyphen(s) ==> r == s
  {
    if s == [] then []
    else
      assert s == [s[0]] + s[1..];
      if s[0] == '-' then StripHyphens(s[1..]) else [s[0]] + StripHyphens(s[1..])
  }

  predicate NoHyphen(s: string) {
    forall i :: 0 <= i < |s| ==> s[i] != '-'
  }

  /** Every character other than `-` is kept as often as it occurs. */
  lemma {:induction false} StripHyphensCount(s: string)
    ensures multiset(StripHyphens(s)) == multiset(s)['-' := 0]
    decreases |s|
  {
    if s != [] {
      StripHyphensCount(s[1..]);
      assert s == [s[0]] + s[1..];
      assert multiset(s) == multiset{s[0]} + multiset(s[1..]);
    }
  }

  /** Removing hyphens distributes over concatenation. */
  lemma {:induction false} StripHyphensAppend(a: string, b: string)
    ensures StripHyphens(a + b) == StripHyphens(a) + StripHyphens(b)
    decreases |a|
  {
    if a == [] {
      assert a + b == b;
    } else {
      var h: string := if a[0] == '-' then [] else [a[0]];
      assert a + b == [a[0]] + (a[1..] + b);
      assert a == [a[0]] + a[1..];
      StripHyphensCons(a[0], a[1..] + b);
      StripHyphensCons(a[0], a[1..]);
      StripHyphensAppend(a[1..], b);
      assert h + (StripHyphens(a[1..]) + StripHyphens(b)) == (h + StripHyphens(a[1..])) + StripHyphens(b);
    }
  }

  /** One character in front: dropped when it is a hyphen, kept otherwise. */
  lemma StripHyphensCons(c: char, s: string)
    ensures StripHyphens([c] + s) == (if c == '-' then [] else [c]) + StripHyphens(s)
  {
    assert ([c] + s)[0] == c && ([c] + s)[1..] == s;
  }

  /** A hyphen between two parts is dropped and the parts keep their characters. */
  lemma StripHyphensJoin(x: string, y: string)
    requires NoHyphen(y)
    ensures StripHyphens(x + "-" + y) == StripHyphens(x) + y
  {
    var h: string := "-";
    assert StripHyphens(h) == [] by {
      assert h[0] == '-' && h[1..] == [];
    }
    StripHyphensAppend(x, h);
    StripHyphensAppend(x + h, y);
  }

  /** The five groups of a uuid are joined in order; only the four separators go. */
  lemma StripHyphensUuid(g1: string, g2: string, g3: string, g4: string, g5: string)
    requires NoHyphen(g1) && NoHyphen(g2) && NoHyphen(g3) && NoHyphen(g4) && NoHyphen(g5)
    ensures StripHyphens(g1 + "-" + g2 + "-" + g3 + "-" + g4 + "-" + g5) == g1 + g2 + g3 + g4 + g5
  {
    StripHyphensJoin(g1, g2);
    StripHyphensJoin(g1 + "-" + g2, g3);
    StripHyphensJoin(g1 + "-" + g2 + "-" + g3, g4);
    StripHyphensJoin(g1 + "-" + g2 + "-" + g3 + "-" + g4, g5);
  }

  /**
   * POST /request-reset. `uuid` is the fresh `randomUUID()` and `mail` what
   * `sendMail` returns (`None` when it throws). An unknown address answers
   * `{ ok: true }` without a row; a mail failure answers 500 after the row
   * is created.
   */
  function RequestReset(st: State, email: Option<string>, uuid: string, now: int, ttlMinutes: int,
                        mail: Option<Delivery>): (r: Step)
    ensures r.response == Error(400, "bad_request") <==> !Truthy(email)
    ensures r.state.users == st.users
    ensures !Truthy(email) || FindByEmail(st.users, email.value).None? ==> r.state == st
    ensures Truthy(email) && FindByEmail(st.users, email.value).None? ==> r.response == Ok(None)
    ensures Truthy(email) && FindByEmail(st.users, email.value).Some? ==>
      if StripHyphens(uuid) in st.resets then r == Step(st, Error(500, "server_error"))
      else
        && r.state.resets == Insert(st.resets, StripHyphens(uuid), st.users[FindByEmail(st.users, email.value).value].id,
                                    now + ttlMinutes * 60000).value
        && r.response == (if mail.Some? then Ok(mail) else Error(500, "server_error"))
  {
    if !Truthy(email) then Step(st, Error(400, "bad_request"))
    else
      match FindByEmail(st.users, email.value)
      case None => Step(st, Ok(None))
      case Some(i) =>
        match Insert(st.resets, StripHyphens(uuid), st.users[i].id, now + ttlMinutes * 60000)
        case None => Step(st, Error(500, "server_error"))
        case Some(t) =>
          var st1 := st.(resets := t);
          if mail.Some? then Step(st1, Ok(mail)) else Step(st1, Error(500, "server_error"))
  }

  /**
   * POST /reset. `newHash` is `bcrypt.hash(newPassword)`. The `usedAt`
   * update and the password update run in one transaction: when the owner
   * row is missing the second update throws and neither takes effect.
   */
  function Reset(st: State, token: Option<string>, newPassword: Option<string>, newHash: string, now: int): (r: Step)
    ensures r.response == Error(400, "bad_request") <==> !Truthy(token) || !Truthy(newPassword)
    ensures r.response == Error(400, "invalid_or_expired") <==>
      Truthy(token) && Truthy(newPassword) && !Redeemable(st.resets, token.value, now)
    ensures r.response.Error? ==> r.state == st
    ensures r.response.Error? || r.response == Ok(None)
    ensures r.response == Ok(None) <==>
      Truthy(token) && Truthy(newPassword) && Redeemable(st.resets, token.value, now) &&
      FindById(st.users, st.resets[token.value].userId).Some?
    ensures r.response == Ok(None) ==>
      var i := FindById(st.users, st.resets[token.value].userId).value;
      r.state == State(st.users[i := st.users[i].(passwordHash := newHash)], MarkUsed(st.resets, token.value, now))
  {
    if !Truthy(token) || !Truthy(newPassword) then Step(st, Error(400, "bad_request"))
    else if !Redeemable(st.resets, token.value, now) then Step(st, Error(400, "invalid_or_expired"))
    else
      match FindById(st.users, st.resets[token.value].userId)
      case None => Step(st, Error(500, "server_error"))
      case Some(i) =>
        Step(State(st.users[i := st.users[i].(passwordHash := newHash)], MarkUsed(st.resets, token.value, now)), Ok(None))
  }

  /** Every row created by a request has a token without hyphens. */
  lemma RequestResetTokenHasNoHyphen(st: State, email: Option<string>, uuid: string, now: int, ttlMinutes: int,
                                     mail: Option<Delivery>, t: string)
    requires t in RequestReset(st, email, uuid, now, ttlMinutes, mail).state.resets && t !in st.resets
    ensures t == StripHyphens(uuid) && NoHyphen(t)
  {
  }

  /** In a valid state an accepted token always updates its owner: the 500 path is unreachable. */
  lemma ValidResetSucceeds(st: State, token: string, newPassword: string, newHash: string, now: int)
    requires Valid(st) && token != "" && newPassword != "" && Redeemable(st.resets, token, now)
    ensures Reset(st, Some(token), Some(newPassword), newHash, now).response == Ok(None)
  {
    FindByIdInWellFormed(st.users, st.resets[token].userId);
  }

  /** A successful reset changes the password hash of the token's owner and nothing else in the user table. */
  lemma ResetChangesOnlyOwner(st: State, token: Option<string>, newPassword: Option<string>, newHash: string, now: int)
    requires Valid(st) && Reset(st, token, newPassword, newHash, now).response == Ok(None)
    ensures var users' := Reset(st, token, newPassword, newHash, now).state.users;
      var owner := st.resets[token.value].userId;
      && |users'| == |st.users|
      && users'[owner] == st.users[owner].(passwordHash := newHash)
      && forall j :: 0 <= j < |st.users| && j != owner ==> users'[j] == st.users[j]
  {
    FindByIdInWellFormed(st.users, st.resets[token.value].userId);
  }

  /** A reset token cannot succeed twice. */
  lemma ResetIsSingleUse(st: State, token: Option<string>, newPassword: Option<string>, newHash: string, now: int,
                         newPassword': Option<string>, newHash': string, later: int)
    requires Reset(st, token, newPassword, newHash, now).response == Ok(None)
    requires Truthy(newPassword')
    ensures Reset(Reset(st, token, newPassword, newHash, now).state, token, newPassword', newHash', later).response
            == Error(400, "invalid_or_expired")
  {
    UsedNeverRedeemable(st.resets, token.value, now, later);
  }

  /** A requested reset link, used within `TTL_MIN` minutes, sets the new hash of the account that asked for it. */
  lemma RequestThenReset(st: State, email: string, uuid: string, now: int, ttlMinutes: int, mail: Option<Delivery>,
                         newPassword: string, newHash: string, at: int)
    requires Valid(st) && email != "" && FindByEmail(st.users, email).Some?
    requires StripHyphens(uuid) != "" && StripHyphens(uuid) !in st.resets && newPassword != ""
    requires at <= now + ttlMinutes * 60000
    ensures var st1 := RequestReset(st, Some(email), uuid, now, ttlMinutes, mail).state;
      var st2 := Reset(st1, Some(StripHyphens(uuid)), Some(newPassword), newHash, at).state;
      st2.users[FindByEmail(st.users, email).value].passwordHash == newHash
  {
    var i := FindByEmail(st.users, email).value;
    var st1 := RequestReset(st, Some(email), uuid, now, ttlMinutes, mail).state;
    RequestResetKeepsValid(st, Some(email), uuid, now, ttlMinutes, mail);
    InsertedRedeemableUntilExpiry(st.resets, StripHyphens(uuid), st.users[i].id, now + ttlMinutes * 60000, at);
    ValidResetSucceeds(st1, StripHyphens(uuid), newPassword, newHash, at);
    ResetChangesOnlyOwner(st1, Some(StripHyphens(uuid)), Some(newPassword), newHash, at);
  }

  lemma RequestResetKeepsValid(st: State, email: Option<string>, uuid: string, now: int, ttlMinutes: int, mail: Option<Delivery>)
    requires Valid(st)
    ensures Valid(RequestReset(st, email, uuid, now, ttlMinutes, mail).state)
  {
  }

  lemma ResetKeepsValid(st: State, token: Option<string>, newPassword: Option<string>, newHash: string, now: int)
    requires Valid(st)
    ensures Valid(Reset(st, token, newPassword, newHash, now).state)
  {
    var r := Reset(st, token, newPassword, newHash, now);
    if r.response == Ok(None) {
      FindByIdInWellFormed(st.users, st.resets[token.value].userId);
      assert forall j :: 0 <= j < |r.state.users| ==> r.state.users[j].email == st.users[j].email;
    }
  }
}

/** src/routes/password.js as a router object holding the user and reset tables. */
module PasswordRoutes {
  import opened Wrappers
  import opened UserStore
  import opened OneTimeTokens
  import opened PasswordReset

  class Router {
    /** `TOKEN_TTL_MIN`. */
    const ttlMinutes: int
    var users: seq<User>
    var resets: Table

    function State(): PasswordReset.State
      reads this
    {
      PasswordReset.State(users, resets)
    }

    ghost predicate Valid()
      reads this
    {
      PasswordReset.Valid(State())
    }

    /** `Number(process.env.PWRESET_TOKEN_TTL_MIN || 15)`: `None` for an absent or empty setting. */
    constructor (users: seq<User>, ttlMinutes: Option<int>)
      requires WellFormed(users)
      ensures Valid() && State() == PasswordReset.State(users, map[])
      ensures this.ttlMinutes == if ttlMinutes.Some? then ttlMinutes.value else 15
    {
      this.ttlMinutes := if ttlMinutes.Some? then ttlMinutes.value else 15;
      this.users := users;
      resets := map[];
    }

    method RequestReset(email: Option<string>, uuid: string, now: int, mail: Option<Delivery>) returns (response: Response)
      requires Valid()
      modifies this
      ensures Valid()
      ensures Step(State(), response) == PasswordReset.RequestReset(old(State()), email, uuid, now, ttlMinutes, mail)
    {
      RequestResetKeepsValid(State(), email, uuid, now, ttlMinutes, mail);
      if !Truthy(email) {
        return Error(400, "bad_request");
      }
      var found := FindByEmail(users, email.value);
      if found.None? {
        return Ok(None);
      }
      var user := users[found.value];
      var token := StripHyphens(uuid);
      if token in resets {
        return Error(500, "server_error");
      }
      resets := resets[token := TokenRow(user.id, now + ttlMinutes * 60000, None)];
      if mail.None? {
        return Error(500, "server_error");
      }
      response := Ok(mail);
    }

    method Reset(token: Option<string>, newPassword: Option<string>, newHash: string, now: int) returns (response: Response)
      requires Valid()
      modifies this
      ensures Valid()
      ensures Step(State(), response) == PasswordReset.Reset(old(State()), token, newPassword, newHash, now)
    {
      ResetKeepsValid(State(), token, newPassword, newHash, now);
      if !Truthy(token) || !Truthy(newPassword) {
        return Error(400, "bad_request");
      }
      if token.value !in resets {
        return Error(400, "invalid_or_expired");
      }
      var row := resets[token.value];
      if row.usedAt.Some? || row.expiresAt < now {
        return Error(400, "invalid_or_expired");
      }
      var owner := FindById(users, row.userId);
      if owner.None? {
        // the transaction rolls back the `usedAt` update
        return Error(500, "server_error");
      }
      resets := resets[token.value := row.(usedAt := Some(now))];
      users := users[owner.value := users[owner.value].(passwordHash := newHash)];
      response := Ok(None);
    }
  }
}
