/**
 * src/routes/email.js: e-mail verification. A request for a known address
 * creates one single-use token row and mails a link; either verify handler
 * accepts the token once, while it is unused and unexpired.
 */
module EmailVerification {
  import opened Wrappers
  import opened UserStore
  import opened OneTimeTokens

  datatype State = State(users: seq<User>, verifications: Table)

  /** The user table is well formed and every row names an existing user (the foreign key). */
  ghost predicate Valid(st: State) {
    && WellFormed(st.users)
    && forall t :: t in st.verifications ==> st.verifications[t].userId < |st.users|
  }

  datatype Response =
    | Error(status: nat, error: string)
    | Ok(delivery: Option<Delivery>)
    | Text(body: string)

  datatype Step = Step(state: State, response: Response)

  const VerifiedText := "Email verified. You can close this page."

  /** `TOKEN_TTL_MIN * 60_000`. */
  function TtlMs(ttlMinutes: int): int {
    ttlMinutes * 60000
  }

  /**
   * POST /request-verify. `token` is the fresh uuid and `mail` what
   * `sendMail` returns (`None` when it throws). An unknown address answers
   * `{ ok: true }` without a row; a mail failure answers 500 after the row
   * is created.
   */
  function RequestVerify(st: State, email: Option<string>, token: string, now: int, ttlMinutes: int,
                         mail: Option<Delivery>): (r: Step)
    ensures r.response == Error(400, "bad_request") <==> !Truthy(email)
    ensures r.state.users == st.users
    ensures !Truthy(email) || FindByEmail(st.users, email.value).None? ==> r.state == st
    ensures Truthy(email) && FindByEmail(st.users, email.value).None? ==> r.response == Ok(None)
    ensures Truthy(email) && FindByEmail(st.users, email.value).Some? ==>
      if token in st.verifications then r == Step(st, Error(500, "server_error"))
      else
        && r.state.verifications == Insert(st.verifications, token, st.users[FindByEmail(st.users, email.value).value].id,
                                           now + TtlMs(ttlMinutes)).value
        && r.response == (if mail.Some? then Ok(mail) else Error(500, "server_error"))
  {
    if !Truthy(email) then Step(st, Error(400, "bad_request"))
    else
      match FindByEmail(st.users, email.value)
      case None => Step(st, Ok(None))
      case Some(i) =>
        match Insert(st.verifications, token, st.users[i].id, now + TtlMs(ttlMinutes))
        case None => Step(st, Error(500, "server_error"))
        case Some(t) =>
          var st1 := st.(verifications := t);
          if mail.Some? then Step(st1, Ok(mail)) else Step(st1, Error(500, "server_error"))
  }

  /** GET /verify?token=...: answers with a text page on success. */
  function VerifyGet(st: State, token: Option<string>, now: int): (r: Step)
    ensures r.response == Error(400, "bad_request") <==> !Truthy(token)
    ensures r.response == Error(400, "invalid_token") <==> Truthy(token) && !Redeemable(st.verifications, token.value, now)
    ensures r.response.Error? ==> r.state == st
    ensures r.response.Error? || r.response == Text(VerifiedText)
    ensures Truthy(token) && Redeemable(st.verifications, token.value, now) ==> r.response == Text(VerifiedText)
    ensures r.response == Text(VerifiedText) ==>
      r.state == st.(verifications := MarkUsed(st.verifications, token.value, now))
  {
    if !Truthy(token) then Step(st, Error(400, "bad_request"))
    else if !Redeemable(st.verifications, token.value, now) then Step(st, Error(400, "invalid_token"))
    else Step(st.(verifications := MarkUsed(st.verifications, token.value, now)), Text(VerifiedText))
  }

  /** POST /verify with `{ token }`: answers `{ ok: true }` on success. */
  function VerifyPost(st: State, token: Option<string>, now: int): (r: Step)
    ensures r.response == Error(400, "bad_request") <==> !Truthy(token)
    ensures r.response == Error(400, "invalid_token") <==> Truthy(token) && !Redeemable(st.verifications, token.value, now)
    ensures r.response.Error? ==> r.state == st
    ensures r.response.Error? || r.response == Ok(None)
    ensures Truthy(token) && Redeemable(st.verifications, token.value, now) ==> r.response == Ok(None)
    ensures r.response == Ok(None) ==>
      r.state == st.(verifications := MarkUsed(st.verifications, token.value, now))
  {
    if !Truthy(token) then Step(st, Error(400, "bad_request"))
    else if !Redeemable(st.verifications, token.value, now) then Step(st, Error(400, "invalid_token"))
    else Step(st.(verifications := MarkUsed(st.verifications, token.value, now)), Ok(None))
  }

  /** The two verify handlers accept the same tokens, reject with the same error and leave the same state. */
  lemma VerifyVariantsAgree(st: State, token: Option<string>, now: int)
    ensures VerifyGet(st, token, now).state == VerifyPost(st, token, now).state
    ensures VerifyGet(st, token, now).response.Error? <==> VerifyPost(st, token, now).response.Error?
    ensures VerifyGet(st, token, now).response.Error? ==> VerifyGet(st, token, now).response == VerifyPost(st, token, now).response
  {
  }

  /** A token accepted once is refused by both handlers afterwards. */
  lemma VerifyIsSingleUse(st: State, token: Option<string>, now: int, later: int)
    requires !VerifyPost(st, token, now).response.Error?
    ensures VerifyPost(VerifyPost(st, token, now).state, token, later).response == Error(400, "invalid_token")
    ensures VerifyGet(VerifyPost(st, token, now).state, token, later).response == Error(400, "invalid_token")
  {
    UsedNeverRedeemable(st.verifications, token.value, now, later);
  }

  /**
   * A link requested for a known address verifies at any time up to
   * `TTL_MIN` minutes later and at no time after that.
   */
  lemma RequestThenVerify(st: State, email: string, token: string, now: int, ttlMinutes: int, mail: Option<Delivery>, at: int)
    requires email != "" && FindByEmail(st.users, email).Some? && token != "" && token !in st.verifications
    ensures var st1 := RequestVerify(st, Some(email), token, now, ttlMinutes, mail).state;
      VerifyPost(st1, Some(token), at).response == (if at <= now + ttlMinutes * 60000 then Ok(None) else Error(400, "invalid_token"))
  {
    var i := FindByEmail(st.users, email).value;
    InsertedRedeemableUntilExpiry(st.verifications, token, st.users[i].id, now + TtlMs(ttlMinutes), at);
  }

  lemma RequestVerifyKeepsValid(st: State, email: Option<string>, token: string, now: int, ttlMinutes: int, mail: Option<Delivery>)
    requires Valid(st)
    ensures Valid(RequestVerify(st, email, token, now, ttlMinutes, mail).state)
  {
  }

  lemma VerifyKeepsValid(st: State, token: Option<string>, now: int)
    requires Valid(st)
    ensures Valid(VerifyGet(st, token, now).state) && Valid(VerifyPost(st, token, now).state)
  {
  }
}

/** src/routes/email.js as a router object holding the user and verification tables. */
module EmailRoutes {
  import opened Wrappers
  import opened UserStore
  import opened OneTimeTokens
  import opened EmailVerification

  class Router {
    /** `TOKEN_TTL_MIN`. */
    const ttlMinutes: int
    var users: seq<User>
    var verifications: Table

    function State(): EmailVerification.State
      reads this
    {
      EmailVerification.State(users, verifications)
    }

    ghost predicate Valid()
      reads this
    {
      EmailVerification.Valid(State())
    }

    /** `Number(process.env.EMAIL_TOKEN_TTL_MIN || 15)`: `None` for an absent or empty setting. */
    constructor (users: seq<User>, ttlMinutes: Option<int>)
      requires WellFormed(users)
      ensures Valid() && State() == EmailVerification.State(users, map[])
      ensures this.ttlMinutes == if ttlMinutes.Some? then ttlMinutes.value else 15
    {
      this.ttlMinutes := if ttlMinutes.Some? then ttlMinutes.value else 15;
      this.users := users;
      verifications := map[];
    }

    method RequestVerify(email: Option<string>, token: string, now: int, mail: Option<Delivery>) returns (response: Response)
      requires Valid()
      modifies this
      ensures Valid()
      ensures Step(State(), response) == EmailVerification.RequestVerify(old(State()), email, token, now, ttlMinutes, mail)
    {
      RequestVerifyKeepsValid(State(), email, token, now, ttlMinutes, mail);
      if !Truthy(email) {
        return Error(400, "bad_request");
      }
      var found := FindByEmail(users, email.value);
      if found.None? {
        return Ok(None);
      }
      var user := users[found.value];
      if token in verifications {
        return Error(500, "server_error");
      }
      verifications := verifications[token := TokenRow(user.id, now + ttlMinutes * 60000, None)];
      if mail.None? {
        return Error(500, "server_error");
      }
      response := Ok(mail);
    }

    /** The check both verify handlers make, then the `usedAt` update; `false` leaves the table alone. */
    method Consume(token: string, now: int) returns (accepted: bool)
      modifies this
      ensures accepted <==> Redeemable(old(verifications), token, now)
      ensures users == old(users)
      ensures verifications == if accepted then MarkUsed(old(verifications), token, now) else old(verifications)
    {
      if token !in verifications {
        return false;
      }
      var row := verifications[token];
      if row.usedAt.Some? || row.expiresAt < now {
        return false;
      }
      verifications := verifications[token := row.(usedAt := Some(now))];
      accepted := true;
    }

    method VerifyGet(token: Option<string>, now: int) returns (response: Response)
      requires Valid()
      modifies this
      ensures Valid()
      ensures Step(State(), response) == EmailVerification.VerifyGet(old(State()), token, now)
    {
      VerifyKeepsValid(State(), token, now);
      if !Truthy(token) {
        return Error(400, "bad_request");
      }
      var accepted := Consume(token.value, now);
      if !accepted {
        return Error(400, "invalid_token");
      }
      response := Text(VerifiedText);
    }

    method VerifyPost(token: Option<string>, now: int) returns (response: Response)
      requires Valid()
      modifies this
      ensures Valid()
      ensures Step(State(), response) == EmailVerification.VerifyPost(old(State()), token, now)
    {
      VerifyKeepsValid(State(), token, now);
      if !Truthy(token) {
        return Error(400, "bad_request");
      }
      var accepted := Consume(token.value, now);
      if !accepted {
        return Error(400, "invalid_token");
      }
      response := Ok(None);
    }
  }
}
