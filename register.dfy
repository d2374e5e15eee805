/**
 * src/routes-auth-register.js: POST /api/auth/register. The checks run in
 * order and the first that fails answers: both fields present, a password
 * of at least 8 characters, an e-mail not yet taken; then the password is
 * hashed and exactly one row is inserted.
 */
module RegisterFlow {
  import opened Wrappers
  import opened Accounts

  const MsgRequired := "이메일과 비밀번호를 입력해주세요."
  const MsgTooShort := "비밀번호는 8자 이상이어야 합니다."
  const MsgTaken := "이미 가입된 이메일입니다."
  const MsgServer := "서버 오류가 발생했습니다."

  /** The shortest password the route accepts. */
  const MinPasswordLength := 8

  datatype Step = Step(rows: seq<Account>, reply: Reply)

  /** The row a successful registration inserts: `name || null`, and an unset status. */
  function NewAccount(rows: seq<Account>, email: string, name: Option<string>, hash: string): Account {
    Account(|rows|, email, OrNull(name), hash, None)
  }

  /**
   * The handler on the table `rows`. `hash` is what `bcrypt.hash(password, 10)`
   * yields, `None` when it throws, which ends in the handler's 500.
   */
  function Register(rows: seq<Account>, email: Option<string>, password: Option<string>, name: Option<string>,
                    hash: Option<string>): (r: Step)
    ensures r.reply.Err? ==> r.rows == rows
    ensures r.reply == Err(400, "VALIDATION_REQUIRED", MsgRequired) <==> !Truthy(email) || !Truthy(password)
    ensures r.reply == Err(400, "PASSWORD_TOO_SHORT", MsgTooShort) <==>
      Truthy(email) && Truthy(password) && |password.value| < MinPasswordLength
    ensures r.reply == Err(409, "EMAIL_TAKEN", MsgTaken) <==>
      Truthy(email) && Truthy(password) && |password.value| >= MinPasswordLength && FindAccount(rows, email.value).Some?
    ensures r.reply == Err(500, "SERVER_ERROR", MsgServer) <==>
      Truthy(email) && Truthy(password) && |password.value| >= MinPasswordLength && FindAccount(rows, email.value).None?
      && hash.None?
    ensures r.reply.Ok? <==>
      Truthy(email) && Truthy(password) && |password.value| >= MinPasswordLength && FindAccount(rows, email.value).None?
      && hash.Some?
    ensures r.reply.Ok? ==>
      && r.rows == rows + [NewAccount(rows, email.value, name, hash.value)]
      && r.reply.data == Registered(PublicAccount(|rows|, email.value, OrNull(name)))
  {
    if !Truthy(email) || !Truthy(password) then Step(rows, Err(400, "VALIDATION_REQUIRED", MsgRequired))
    else if |password.value| < MinPasswordLength then Step(rows, Err(400, "PASSWORD_TOO_SHORT", MsgTooShort))
    else if FindAccount(rows, email.value).Some? then Step(rows, Err(409, "EMAIL_TAKEN", MsgTaken))
    else if hash.None? then Step(rows, Err(500, "SERVER_ERROR", MsgServer))
    else
      var row := NewAccount(rows, email.value, name, hash.value);
      Step(rows + [row], Ok(Registered(Public(row))))
  }

  /** Registering keeps the table well formed: ids stay positions and e-mails stay unique. */
  lemma RegisterKeepsWellFormed(rows: seq<Account>, email: Option<string>, password: Option<string>, name: Option<string>,
                                hash: Option<string>)
    requires WellFormed(rows)
    ensures WellFormed(Register(rows, email, password, name, hash).rows)
  {
    var r := Register(rows, email, password, name, hash);
    if r.reply.Ok? {
      var rows' := r.rows;
      assert rows'[..|rows|] == rows;
      forall i, j | 0 <= i < j < |rows'| ensures rows'[i].email != rows'[j].email {
        if j == |rows| {
          assert rows'[i] == rows[i];
        }
      }
    }
  }

  /** The length check comes before the lookup: a short password gets the same answer whatever the table holds. */
  lemma ShortPasswordIgnoresTable(rows1: seq<Account>, rows2: seq<Account>, email: Option<string>, password: Option<string>,
                                  name: Option<string>, hash: Option<string>)
    requires Truthy(email) && Truthy(password) && |password.value| < MinPasswordLength
    ensures Register(rows1, email, password, name, hash).reply == Register(rows2, email, password, name, hash).reply
  {
  }

  /** A second registration with the same e-mail is refused with 409, whatever password and name it brings. */
  lemma SecondRegistrationTaken(rows: seq<Account>, email: string, password: string, name: Option<string>, hash: string,
                                password2: string, name2: Option<string>, hash2: Option<string>)
    requires email != "" && |password| >= MinPasswordLength && |password2| >= MinPasswordLength
    requires FindAccount(rows, email).None?
    ensures var rows1 := Register(rows, Some(email), Some(password), name, Some(hash)).rows;
            Register(rows1, Some(email), Some(password2), name2, hash2) == Step(rows1, Err(409, "EMAIL_TAKEN", MsgTaken))
  {
    var rows1 := Register(rows, Some(email), Some(password), name, Some(hash)).rows;
    assert rows1[|rows|].email == email;
  }

  /** An empty name is stored as `null`. */
  lemma EmptyNameStoredAsNull(rows: seq<Account>, email: string, password: string, hash: string)
    requires email != "" && |password| >= MinPasswordLength && FindAccount(rows, email).None?
    ensures Register(rows, Some(email), Some(password), Some(""), Some(hash)).rows[|rows|].name == None
    ensures Register(rows, Some(email), Some(password), None, Some(hash)).rows[|rows|].name == None
  {
  }
}

/** The register route over a table it updates in place. */
module RegisterRoute {
  import opened Wrappers
  import opened Accounts
  import opened RegisterFlow

  class UserTable {
    var rows: seq<Account>

    ghost predicate Valid()
      reads this
    {
      WellFormed(rows)
    }

    constructor ()
      ensures Valid() && rows == []
    {
      rows := [];
    }

    /** The handler: the early returns in source order, then one insert. */
    method Register(email: Option<string>, password: Option<string>, name: Option<string>, hash: Option<string>)
      returns (reply: Reply)
      requires Valid()
      modifies this
      ensures Valid()
      ensures Step(rows, reply) == RegisterFlow.Register(old(rows), email, password, name, hash)
    {
      RegisterKeepsWellFormed(rows, email, password, name, hash);
      if !Truthy(email) || !Truthy(password) {
        return Err(400, "VALIDATION_REQUIRED", MsgRequired);
      }
      if |password.value| < MinPasswordLength {
        return Err(400, "PASSWORD_TOO_SHORT", MsgTooShort);
      }
      var exist := FindAccount(rows, email.value);
      if exist.Some? {
        return Err(409, "EMAIL_TAKEN", MsgTaken);
      }
      if hash.None? {
        return Err(500, "SERVER_ERROR", MsgServer);
      }
      var user := NewAccount(rows, email.value, name, hash.value);
      rows := rows + [user];
      reply := Ok(Registered(Public(user)));
    }
  }
}
