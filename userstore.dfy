/**
 * The `user` table the authentication handlers read and write, and the
 * claims of the access tokens they sign. Rows are
 * kept in creation order; the store gives a new row the id `|users|`, so a
 * well-formed store has `users[i].id == i` and unique e-mail addresses
 * (the unique index on `email`).
 */
module UserStore {
  import opened Wrappers

  datatype User = User(id: nat, email: string, name: Option<string>, passwordHash: string, role: string)

  /**
   * The claims of an access token: `sub`, `email` and `role`. Signing and
   * verifying are abstract; a token is represented by the claims it carries.
   */
  datatype Claims = Claims(sub: nat, email: string, role: string)

  /** What an `authMiddleware` lets through: nothing, or the verified claims. */
  datatype AuthResult = Unauthorized | Authenticated(user: Claims)

  ghost predicate WellFormed(users: seq<User>) {
    && (forall i :: 0 <= i < |users| ==> users[i].id == i)
    && (forall i, j :: 0 <= i < j < |users| ==> users[i].email != users[j].email)
  }

  /** `findUnique({ where: { email } })`: the position of the row with that e-mail. */
  function FindByEmail(users: seq<User>, email: string): (r: Option<nat>)
    ensures r.Some? ==> r.value < |users| && users[r.value].email == email
    ensures r.None? <==> forall i :: 0 <= i < |users| ==> users[i].email != email
    decreases |users|
  {
    if users == [] then None
    else if users[|users| - 1].email == email then Some(|users| - 1)
    else FindByEmail(users[..|users| - 1], email)
  }

  /** `findUnique({ where: { id } })`: the position of the row with that id. */
  function FindById(users: seq<User>, id: nat): (r: Option<nat>)
    ensures r.Some? ==> r.value < |users| && users[r.value].id == id
    ensures r.None? <==> forall i :: 0 <= i < |users| ==> users[i].id != id
    decreases |users|
  {
    if users == [] then None
    else if users[|users| - 1].id == id then Some(|users| - 1)
    else FindById(users[..|users| - 1], id)
  }

  /** `user.create(...)`: appends one row whose id is the next free one. */
  function Create(users: seq<User>, email: string, name: Option<string>, passwordHash: string, role: string): (r: seq<User>)
    ensures |r| == |users| + 1 && r[..|users|] == users
    ensures r[|users|] == User(|users|, email, name, passwordHash, role)
  {
    users + [User(|users|, email, name, passwordHash, role)]
  }

  /** Creating a user whose e-mail is not yet taken keeps the store well formed. */
  lemma CreateKeepsWellFormed(users: seq<User>, email: string, name: Option<string>, passwordHash: string, role: string)
    requires WellFormed(users) && FindByEmail(users, email).None?
    ensures WellFormed(Create(users, email, name, passwordHash, role))
  {
  }

  /** In a well-formed store, the row with id `id` is at position `id`. */
  lemma FindByIdInWellFormed(users: seq<User>, id: nat)
    requires WellFormed(users)
    ensures FindById(users, id) == if id < |users| then Some(id) else None
  {
  }
}
