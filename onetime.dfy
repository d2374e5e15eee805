/**
 * The single-use token tables shared by e-mail verification and password
 * reset: a row per token with its user, its `expiresAt` and `usedAt`. A
 * token is accepted while it is present, unused and not yet past
 * `expiresAt`; accepting it stamps `usedAt`.
 */
module OneTimeTokens {
  import opened Wrappers

  datatype TokenRow = TokenRow(userId: nat, expiresAt: int, usedAt: Option<int>)

  type Table = map<string, TokenRow>

  /** What `sendMail` reports after mailing the link: sent over SMTP, or saved to a file. */
  datatype Delivery = Sent(messageId: string) | Saved(file: string)

  /** The negation of `!row || row.usedAt || row.expiresAt < now`. */
  predicate Redeemable(t: Table, token: string, now: int) {
    token in t && t[token].usedAt.None? && !(t[token].expiresAt < now)
  }

  /** `create({ data: { userId, token, expiresAt } })`: `None` when the unique index on `token` refuses it. */
  function Insert(t: Table, token: string, userId: nat, expiresAt: int): (r: Option<Table>)
    ensures r.None? <==> token in t
    ensures r.Some? ==> r.value.Keys == t.Keys + {token}
    ensures r.Some? ==> forall other :: other in t ==> other in r.value && r.value[other] == t[other]
    ensures r.Some? ==> r.value[token] == TokenRow(userId, expiresAt, None)
  {
    if token in t then None else Some(t[token := TokenRow(userId, expiresAt, None)])
  }

  /** `update({ where: { token }, data: { usedAt: now } })`. */
  function MarkUsed(t: Table, token: string, now: int): (r: Table)
    requires token in t
    ensures r.Keys == t.Keys
    ensures r[token] == t[token].(usedAt := Some(now))
    ensures forall other :: other in t && other != token ==> r[other] == t[other]
  {
    t[token := t[token].(usedAt := Some(now))]
  }

  /** A freshly inserted token is accepted exactly up to and including its `expiresAt`. */
  lemma InsertedRedeemableUntilExpiry(t: Table, token: string, userId: nat, expiresAt: int, now: int)
    requires token !in t
    ensures Redeemable(Insert(t, token, userId, expiresAt).value, token, now) <==> now <= expiresAt
  {
  }

  /** Inserting a token does not change whether any other token is accepted. */
  lemma InsertLeavesOthers(t: Table, token: string, userId: nat, expiresAt: int, other: string, now: int)
    requires token !in t && other != token
    ensures Redeemable(Insert(t, token, userId, expiresAt).value, other, now) <==> Redeemable(t, other, now)
  {
  }

  /** Once used, a token is never accepted again, at any later or earlier time. */
  lemma UsedNeverRedeemable(t: Table, token: string, now: int, later: int)
    requires token in t
    ensures !Redeemable(MarkUsed(t, token, now), token, later)
  {
  }

  /** Using one token does not change whether any other token is accepted. */
  lemma MarkUsedLeavesOthers(t: Table, token: string, now: int, other: string, later: int)
    requires token in t && other != token
    ensures Redeemable(MarkUsed(t, token, now), other, later) <==> Redeemable(t, other, later)
  {
  }
}
