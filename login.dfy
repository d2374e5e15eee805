/**
 * src/routes-auth-login.js: POST /api/auth/login. Both fields must be
 * present; an unknown e-mail and a wrong password get the same 401; only
 * an account whose password matched is then refused when it is blocked;
 * otherwise an access token signed for `{ uid }` is returned. The table is
 * only read.
 */
module LoginFlow {
  import opened Wrappers
  import opened Accounts
  import RegisterFlow

  const MsgRequired := "이메일과 비밀번호를 입력해주세요."
  const MsgInvalid := "이메일 또는 비밀번호가 올바르지 않습니다."
  const MsgBlocked := "차단된 계정입니다. 관리자에게 문의해주세요."

  /** The one answer for an unknown e-mail and for a wrong password alike. */
  const InvalidCredentials := Err(401, "AUTH_INVALID_CREDENTIALS", MsgInvalid)

  predicate Blocked(a: Account) {
    a.status == Some("blocked")
  }

  /**
   * The handler on the table `rows`. `compare` is `bcrypt.compare`, `sign`
   * is `signJwt` applied to the claims `{ uid }`.
   */
  function Login(rows: seq<Account>, email: Option<string>, password: Option<string>,
                 compare: (string, string) -> bool, sign: nat -> string): (r: Reply)
    ensures r == Err(400, "VALIDATION_REQUIRED", MsgRequired) <==> !Truthy(email) || !Truthy(password)
    ensures r == InvalidCredentials <==>
      Truthy(email) && Truthy(password) &&
      (FindAccount(rows, email.value).None? ||
       !compare(password.value, rows[FindAccount(rows, email.value).value].passwordHash))
    ensures r.Err? && r.status == 403 <==>
      Truthy(email) && Truthy(password) && FindAccount(rows, email.value).Some? &&
      var a := rows[FindAccount(rows, email.value).value];
      compare(password.value, a.passwordHash) && Blocked(a)
    ensures r.Ok? <==>
      Truthy(email) && Truthy(password) && FindAccount(rows, email.value).Some? &&
      var a := rows[FindAccount(rows, email.value).value];
      compare(password.value, a.passwordHash) && !Blocked(a)
    ensures r.Ok? ==>
      var a := rows[FindAccount(rows, email.value).value];
      r.data == Session(sign(a.id), Public(a))
  {
    if !Truthy(email) || !Truthy(password) then Err(400, "VALIDATION_REQUIRED", MsgRequired)
    else
      match FindAccount(rows, email.value)
      case None => InvalidCredentials
      case Some(i) =>
        var user := rows[i];
        if !compare(password.value, user.passwordHash) then InvalidCredentials
        else if Blocked(user) then Err(403, "AUTH_BLOCKED", MsgBlocked)
        else Ok(Session(sign(user.id), Public(user)))
  }

  /**
   * No answer tells an unknown e-mail from a known one with a wrong
   * password: whichever account table and compare function, both give the
   * same reply.
   */
  lemma UnknownEmailLikeWrongPassword(rows: seq<Account>, unknown: string, known: string, password: string,
                                      compare: (string, string) -> bool, sign: nat -> string)
    requires unknown != "" && known != "" && password != ""
    requires FindAccount(rows, unknown).None?
    requires FindAccount(rows, known).Some? && !compare(password, rows[FindAccount(rows, known).value].passwordHash)
    ensures Login(rows, Some(unknown), Some(password), compare, sign) == Login(rows, Some(known), Some(password), compare, sign)
  {
  }

  /** A blocked account with a wrong password gets the 401 of bad credentials, not the 403. */
  lemma BlockedCheckedAfterPassword(rows: seq<Account>, i: nat, password: string,
                                    compare: (string, string) -> bool, sign: nat -> string)
    requires WellFormed(rows) && i < |rows| && rows[i].email != "" && password != ""
    requires Blocked(rows[i])
    ensures !compare(password, rows[i].passwordHash) ==>
      Login(rows, Some(rows[i].email), Some(password), compare, sign) == InvalidCredentials
    ensures compare(password, rows[i].passwordHash) ==>
      Login(rows, Some(rows[i].email), Some(password), compare, sign) == Err(403, "AUTH_BLOCKED", MsgBlocked)
  {
    FindAccountUnique(rows, i);
  }

  /**
   * Registering and then logging in with the same password, under a
   * `compare` that accepts the password against its hash, yields an access
   * token for the new row's id.
   */
  lemma RegisterThenLogin(rows: seq<Account>, email: string, password: string, name: Option<string>, hash: string,
                          compare: (string, string) -> bool, sign: nat -> string)
    requires WellFormed(rows) && email != "" && |password| >= RegisterFlow.MinPasswordLength
    requires FindAccount(rows, email).None? && compare(password, hash)
    ensures var rows1 := RegisterFlow.Register(rows, Some(email), Some(password), name, Some(hash)).rows;
            Login(rows1, Some(email), Some(password), compare, sign) ==
              Ok(Session(sign(|rows|), PublicAccount(|rows|, email, OrNull(name))))
  {
    var rows1 := RegisterFlow.Register(rows, Some(email), Some(password), name, Some(hash)).rows;
    RegisterFlow.RegisterKeepsWellFormed(rows, Some(email), Some(password), name, Some(hash));
    assert rows1[|rows|].email == email;
    FindAccountUnique(rows1, |rows|);
  }
}
