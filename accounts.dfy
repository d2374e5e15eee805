/**
 * The Prisma `user` table behind src/routes-auth-register.js and
 * src/routes-auth-login.js, and the `ok`/`err` reply shapes of
 * src/error-util.js. A new row gets the id `|rows|`, so a well-formed
 * table has `rows[i].id == i` and unique e-mail addresses (the unique
 * index on `email`).
 *
 * The rows here carry `status` and `name`, the columns these two routes
 * read; the `user` rows of src/server.js, src/auth.js and src/routes/ carry
 * `role` instead and are the `UserStore` module's.
 */
module Accounts {
  import opened Wrappers

  /** A row: `status` is whatever the column holds, `None` for `null`. */
  datatype Account = Account(id: nat, email: string, name: Option<string>, passwordHash: string, status: Option<string>)

  /** The fields both routes select for their answer: never the password hash or the status. */
  datatype PublicAccount = PublicAccount(id: nat, email: string, name: Option<string>)

  /** The `data` of a successful reply: `{ user }` after registering, `{ accessToken, user }` after logging in. */
  datatype Data = Registered(user: PublicAccount) | Session(accessToken: string, user: PublicAccount)

  /** `ok(res, data)` answers 200 `{ ok: true, data }`; `err(res, http, code, message)` answers `{ ok: false, code, message }`. */
  datatype Reply = Ok(data: Data) | Err(status: nat, code: string, message: string)

  /** The HTTP status a reply is sent with. */
  function StatusOf(r: Reply): (s: nat)
    ensures s == 200 <==> r.Ok? || r.status == 200
  {
    if r.Ok? then 200 else r.status
  }

  ghost predicate WellFormed(rows: seq<Account>) {
    && (forall i :: 0 <= i < |rows| ==> rows[i].id == i)
    && (forall i, j :: 0 <= i < j < |rows| ==> rows[i].email != rows[j].email)
  }

  /** `user.findUnique({ where: { email } })`: the position of the row with that e-mail. */
  function FindAccount(rows: seq<Account>, email: string): (r: Option<nat>)
    ensures r.Some? ==> r.value < |rows| && rows[r.value].email == email
    ensures r.None? <==> forall i :: 0 <= i < |rows| ==> rows[i].email != email
    decreases |rows|
  {
    if rows == [] then None
    else if rows[|rows| - 1].email == email then Some(|rows| - 1)
    else FindAccount(rows[..|rows| - 1], email)
  }

  /** In a well-formed table an e-mail address names at most one row, so the lookup finds that row. */
  lemma FindAccountUnique(rows: seq<Account>, i: nat)
    requires WellFormed(rows) && i < |rows|
    ensures FindAccount(rows, rows[i].email) == Some(i)
  {
  }

  /** The answer row of an account: its id, e-mail and name. */
  function Public(a: Account): PublicAccount {
    PublicAccount(a.id, a.email, a.name)
  }
}
