/**
 * The timespan setting parser of src/tokens.js: "15m", "30d" or a bare
 * number of seconds, turned into milliseconds.
 */
module Timespan {
  import opened JsString

  predicate IsUnit(c: char) {
    c == 's' || c == 'm' || c == 'h' || c == 'd'
  }

  /** The string matches `^(\d+)([smhd])$`. */
  predicate HasUnitSuffix(s: string) {
    |s| >= 2 && IsDigits(s[..|s| - 1]) && IsUnit(s[|s| - 1])
  }

  /** The unit table `{ s: 1, m: 60, h: 3600, d: 86400 }`, in seconds. */
  function UnitSeconds(c: char): nat
    requires IsUnit(c)
  {
    match c
    case 's' => 1
    case 'm' => 60
    case 'h' => 3600
    case 'd' => 86400
  }

  /** The value used for a setting of any other shape: 15 minutes. */
  const DefaultMs: nat := 15 * 60 * 1000

  /** `parseTimespanMs`: all digits are seconds, digits and a unit letter are that many units, anything else the default. */
  function ParseTimespanMs(s: string): (ms: nat)
    ensures !IsDigits(s) && !HasUnitSuffix(s) ==> ms == DefaultMs
  {
    if IsDigits(s) then DecimalValue(s) * 1000
    else if HasUnitSuffix(s) then DecimalValue(s[..|s| - 1]) * UnitSeconds(s[|s| - 1]) * 1000
    else DefaultMs
  }

  /** A string of digits alone, leading zeros included, is that many seconds. */
  lemma ParseBareDigits(d: string)
    requires IsDigits(d)
    ensures ParseTimespanMs(d) == DecimalValue(d) * 1000
  {
  }

  /** Leading zeros are read as part of the number: "007" is seven seconds. */
  lemma ParseLeadingZeros()
    ensures ParseTimespanMs("007") == 7000
  {
    ParseBareDigits("007");
    assert "007" == "0" + "07" && "07" == "0" + "7";
    DecimalLeadingZero("07");
    DecimalLeadingZero("7");
    assert "7"[..0] == [];
  }

  /** A string of digits followed by a unit letter is that many units. */
  lemma ParseDigitsWithUnit(d: string, u: char)
    requires IsDigits(d) && IsUnit(u)
    ensures ParseTimespanMs(d + [u]) == DecimalValue(d) * UnitSeconds(u) * 1000
  {
    var s := d + [u];
    assert !IsDigit(s[|s| - 1]);
    assert s[..|s| - 1] == d;
  }

  /** A bare number is read as seconds. */
  lemma ParseSeconds(n: nat)
    ensures ParseTimespanMs(ToDecimal(n)) == n * 1000
  {
    DecimalRoundTrip(n);
  }

  /** `<n><unit>` is n times the unit's length in seconds, in milliseconds. */
  lemma ParseWithUnit(n: nat, u: char)
    requires IsUnit(u)
    ensures ParseTimespanMs(ToDecimal(n) + [u]) == n * UnitSeconds(u) * 1000
  {
    DecimalRoundTrip(n);
    ParseDigitsWithUnit(ToDecimal(n), u);
  }

  /** The defaults of the module: 15 minutes for access tokens, 30 days for refresh tokens. */
  lemma DefaultSettings()
    ensures ParseTimespanMs("15m") == 900000
    ensures ParseTimespanMs("30d") == 2592000000
  {
    ParseDigitsWithUnit("15", 'm');
    ParseDigitsWithUnit("30", 'd');
    assert "15" + ['m'] == "15m" && "30" + ['d'] == "30d";
    assert "15"[..1] == "1" && "30"[..1] == "3" && "1"[..0] == [] && "3"[..0] == [];
    assert DecimalValue("15") == 15 && DecimalValue("30") == 30;
  }

  /** Shapes the two patterns do not accept fall back to 15 minutes. */
  lemma FallbackExamples()
    ensures ParseTimespanMs("") == DefaultMs
    ensures ParseTimespanMs("1.5h") == DefaultMs
    ensures ParseTimespanMs("-5m") == DefaultMs
    ensures ParseTimespanMs("10 m") == DefaultMs
    ensures ParseTimespanMs("5w") == DefaultMs
  {
    assert !IsDigit('.') && !IsDigit('-') && !IsDigit(' ') && !IsUnit('w');
    assert "1.5h"[1] == '.' && "-5m"[0] == '-' && "10 m"[2] == ' ' && "5w"[1] == 'w';
    assert "1.5h"[..3][1] == '.' && "-5m"[..2][0] == '-' && "10 m"[..3][2] == ' ';
  }
}

/**
 * The refresh-token ledger of src/tokens.js as a state machine over values.
 * The table is keyed by `tokenHash` (its unique index); the raw token is
 * never part of a record.
 */
module HashedLedger {
  import opened Wrappers

  /** Optional binding metadata recorded with a token; never enforced. */
  datatype Meta = Meta(userAgent: Option<string>, ip: Option<string>)

  datatype TokenRecord = TokenRecord(
    id: nat,
    userId: nat,
    tokenHash: string,
    userAgent: Option<string>,
    ip: Option<string>,
    expiresAt: int,
    revokedAt: Option<int>,
    replacedBy: Option<nat>)

  /** The rows by token hash, and the id the store gives the next row. */
  datatype Ledger = Ledger(rows: map<string, TokenRecord>, nextId: nat)

  /** There is a row with this id that belongs to this user. */
  ghost predicate RecordOwnedBy(l: Ledger, id: nat, userId: nat) {
    exists h :: h in l.rows && l.rows[h].id == id && l.rows[h].userId == userId
  }

  /**
   * Every row sits under its own hash, ids are unique and allocated, and a
   * `replacedBy` link is only set on a revoked row and names a row of the
   * same user.
   */
  ghost predicate Valid(l: Ledger) {
    && (forall h :: h in l.rows ==> l.rows[h].tokenHash == h && l.rows[h].id < l.nextId)
    && (forall h1, h2 :: h1 in l.rows && h2 in l.rows && h1 != h2 ==> l.rows[h1].id != l.rows[h2].id)
    && (forall h :: h in l.rows && l.rows[h].replacedBy.Some? ==>
          l.rows[h].revokedAt.Some? && RecordOwnedBy(l, l.rows[h].replacedBy.value, l.rows[h].userId))
  }

  datatype IssueOutcome = Issued(raw: string, record: TokenRecord) | HashCollision
  datatype IssueStep = IssueStep(ledger: Ledger, outcome: IssueOutcome)

  /** The errors `rotateRefreshToken` throws: "invalid_refresh", "revoked", "expired", or a store error. */
  datatype RotateError = InvalidRefresh | Revoked | Expired | StoreError
  datatype RotateOutcome = Rotated(newRaw: string, newRecord: TokenRecord) | Rejected(reason: RotateError)
  datatype RotateStep = RotateStep(ledger: Ledger, outcome: RotateOutcome)

  /**
   * `issueRefreshToken`: store one row for `hash(raw)`. A hash already in
   * the table violates the unique index; the create throws and nothing changes.
   */
  function Issue(l: Ledger, hash: string -> string, userId: nat, meta: Meta, raw: string, now: int, ttlMs: nat): (r: IssueStep)
    ensures r.outcome.Issued? <==> hash(raw) !in l.rows
    ensures r.outcome.HashCollision? ==> r.ledger == l
    ensures r.outcome.Issued? ==>
      && r.outcome.raw == raw
      && r.ledger.rows.Keys == l.rows.Keys + {hash(raw)}
      && r.ledger.rows[hash(raw)] == r.outcome.record
      && r.outcome.record.id == l.nextId && r.ledger.nextId == l.nextId + 1
      && r.outcome.record.userId == userId
      && r.outcome.record.tokenHash == hash(raw)
      && r.outcome.record.expiresAt == now + ttlMs
      && r.outcome.record.revokedAt.None? && r.outcome.record.replacedBy.None?
      && (forall h :: h in l.rows ==> r.ledger.rows[h] == l.rows[h])
  {
    var h := hash(raw);
    if h in l.rows then IssueStep(l, HashCollision)
    else
      var rec := TokenRecord(l.nextId, userId, h, meta.userAgent, meta.ip, now + ttlMs, None, None);
      IssueStep(Ledger(l.rows[h := rec], l.nextId + 1), Issued(raw, rec))
  }

  /**
   * `rotateRefreshToken`: the checks come in the source's order, and on
   * any error the ledger is unchanged. On success one row is added for the
   * same user and the presented row is revoked with a link to it.
   */
  function Rotate(l: Ledger, hash: string -> string, raw: string, meta: Meta, newRaw: string, now: int, ttlMs: nat): (r: RotateStep)
    ensures r.outcome.Rejected? ==> r.ledger == l
    ensures r.outcome == Rejected(InvalidRefresh) <==> hash(raw) !in l.rows
    ensures r.outcome == Rejected(Revoked) <==> hash(raw) in l.rows && l.rows[hash(raw)].revokedAt.Some?
    ensures r.outcome == Rejected(Expired) <==>
      hash(raw) in l.rows && l.rows[hash(raw)].revokedAt.None? && l.rows[hash(raw)].expiresAt <= now
    ensures r.outcome == Rejected(StoreError) <==>
      hash(raw) in l.rows && l.rows[hash(raw)].revokedAt.None? && l.rows[hash(raw)].expiresAt > now
      && hash(newRaw) in l.rows
    ensures r.outcome.Rotated? ==>
      var found := l.rows[hash(raw)];
      var rec := r.outcome.newRecord;
      && r.outcome.newRaw == newRaw
      && hash(newRaw) !in l.rows
      && r.ledger.rows.Keys == l.rows.Keys + {hash(newRaw)}
      && r.ledger.nextId == l.nextId + 1
      && r.ledger.rows[hash(newRaw)] == rec
      && rec.id == l.nextId && rec.tokenHash == hash(newRaw) && rec.userId == found.userId
      && rec.expiresAt == now + ttlMs && rec.revokedAt.None? && rec.replacedBy.None?
      && r.ledger.rows[hash(raw)] == found.(revokedAt := Some(now), replacedBy := Some(rec.id))
      && (forall h :: h in l.rows && h != hash(raw) ==> r.ledger.rows[h] == l.rows[h])
  {
    var h := hash(raw);
    if h !in l.rows then RotateStep(l, Rejected(InvalidRefresh))
    else
      var found := l.rows[h];
      if found.revokedAt.Some? then RotateStep(l, Rejected(Revoked))
      else if found.expiresAt <= now then RotateStep(l, Rejected(Expired))
      else
        var issued := Issue(l, hash, found.userId, meta, newRaw, now, ttlMs);
        match issued.outcome
        case HashCollision => RotateStep(l, Rejected(StoreError))
        case Issued(_, rec) =>
          var revoked := found.(revokedAt := Some(now), replacedBy := Some(rec.id));
          RotateStep(Ledger(issued.ledger.rows[h := revoked], issued.ledger.nextId), Rotated(newRaw, rec))
  }

  /**
   * `revokeRefreshToken`: never fails; revokes the row only when it exists
   * and is not revoked yet, so an existing `revokedAt` is kept.
   */
  function Revoke(l: Ledger, hash: string -> string, raw: string, now: int): (r: Ledger)
    ensures r.rows.Keys == l.rows.Keys && r.nextId == l.nextId
    ensures hash(raw) !in l.rows || l.rows[hash(raw)].revokedAt.Some? ==> r == l
    ensures hash(raw) in l.rows && l.rows[hash(raw)].revokedAt.None? ==>
      r.rows[hash(raw)] == l.rows[hash(raw)].(revokedAt := Some(now))
    ensures forall h :: h in l.rows && h != hash(raw) ==> r.rows[h] == l.rows[h]
  {
    var h := hash(raw);
    if h in l.rows && l.rows[h].revokedAt.None? then
      Ledger(l.rows[h := l.rows[h].(revokedAt := Some(now))], l.nextId)
    else l
  }

  /** The row `revokeAllForUser` leaves under each key: `updateMany` over the user's unrevoked rows. */
  function RevokedIfActive(rec: TokenRecord, userId: nat, now: int): TokenRecord {
    if rec.userId == userId && rec.revokedAt.None? then rec.(revokedAt := Some(now)) else rec
  }

  /** `revokeAllForUser`: stamps `revokedAt` on exactly that user's unrevoked rows, expired or not. */
  function RevokeAllForUser(l: Ledger, userId: nat, now: int): (r: Ledger)
    ensures r.rows.Keys == l.rows.Keys && r.nextId == l.nextId
    ensures forall h :: h in l.rows && l.rows[h].userId == userId ==> r.rows[h].revokedAt.Some?
    ensures forall h :: h in l.rows && l.rows[h].userId == userId && l.rows[h].revokedAt.None? ==>
      r.rows[h] == l.rows[h].(revokedAt := Some(now))
    ensures forall h :: h in l.rows && (l.rows[h].userId != userId || l.rows[h].revokedAt.Some?) ==>
      r.rows[h] == l.rows[h]
  {
    Ledger(map h | h in l.rows :: RevokedIfActive(l.rows[h], userId, now), l.nextId)
  }

  /** A ledger that keeps every row's id and owner still has the rows `RecordOwnedBy` found. */
  lemma OwnedByKept(l: Ledger, l': Ledger, id: nat, userId: nat)
    requires RecordOwnedBy(l, id, userId)
    requires forall h :: h in l.rows ==> h in l'.rows && l'.rows[h].id == l.rows[h].id && l'.rows[h].userId == l.rows[h].userId
    ensures RecordOwnedBy(l', id, userId)
  {
    var h :| h in l.rows && l.rows[h].id == id && l.rows[h].userId == userId;
    assert h in l'.rows && l'.rows[h].id == id && l'.rows[h].userId == userId;
  }

  lemma IssueKeepsValid(l: Ledger, hash: string -> string, userId: nat, meta: Meta, raw: string, now: int, ttlMs: nat)
    requires Valid(l)
    ensures Valid(Issue(l, hash, userId, meta, raw, now, ttlMs).ledger)
  {
    var r := Issue(l, hash, userId, meta, raw, now, ttlMs).ledger;
    forall h | h in r.rows && r.rows[h].replacedBy.Some?
      ensures r.rows[h].revokedAt.Some? && RecordOwnedBy(r, r.rows[h].replacedBy.value, r.rows[h].userId)
    {
      assert h in l.rows && r.rows[h] == l.rows[h];
      OwnedByKept(l, r, r.rows[h].replacedBy.value, r.rows[h].userId);
    }
  }

  /** Rotation keeps the ledger valid: in particular `replacedBy` names a row of the same user. */
  lemma RotateKeepsValid(l: Ledger, hash: string -> string, raw: string, meta: Meta, newRaw: string, now: int, ttlMs: nat)
    requires Valid(l)
    ensures Valid(Rotate(l, hash, raw, meta, newRaw, now, ttlMs).ledger)
  {
    var st := Rotate(l, hash, raw, meta, newRaw, now, ttlMs);
    if st.outcome.Rotated? {
      var r := st.ledger;
      var rec := st.outcome.newRecord;
      assert r.rows[hash(newRaw)] == rec;
      forall h | h in r.rows && r.rows[h].replacedBy.Some?
        ensures r.rows[h].revokedAt.Some? && RecordOwnedBy(r, r.rows[h].replacedBy.value, r.rows[h].userId)
      {
        if h == hash(raw) {
          assert r.rows[hash(newRaw)].id == r.rows[h].replacedBy.value;
          assert r.rows[hash(newRaw)].userId == r.rows[h].userId;
        } else {
          assert h in l.rows && r.rows[h] == l.rows[h];
          OwnedByKept(l, r, r.rows[h].replacedBy.value, r.rows[h].userId);
        }
      }
    }
  }

  lemma RevokeKeepsValid(l: Ledger, hash: string -> string, raw: string, now: int)
    requires Valid(l)
    ensures Valid(Revoke(l, hash, raw, now))
  {
    var r := Revoke(l, hash, raw, now);
    forall h | h in r.rows && r.rows[h].replacedBy.Some?
      ensures RecordOwnedBy(r, r.rows[h].replacedBy.value, r.rows[h].userId)
    {
      OwnedByKept(l, r, r.rows[h].replacedBy.value, r.rows[h].userId);
    }
  }

  lemma RevokeAllKeepsValid(l: Ledger, userId: nat, now: int)
    requires Valid(l)
    ensures Valid(RevokeAllForUser(l, userId, now))
  {
    var r := RevokeAllForUser(l, userId, now);
    forall h | h in r.rows && r.rows[h].replacedBy.Some?
      ensures RecordOwnedBy(r, r.rows[h].replacedBy.value, r.rows[h].userId)
    {
      OwnedByKept(l, r, r.rows[h].replacedBy.value, r.rows[h].userId);
    }
  }

  /** Single use: once a token has been rotated, presenting it again fails with `revoked`. */
  lemma RotateIsSingleUse(l: Ledger, hash: string -> string, raw: string, meta: Meta, newRaw: string, now: int, ttlMs: nat,
                          meta': Meta, newRaw': string, later: int)
    requires Rotate(l, hash, raw, meta, newRaw, now, ttlMs).outcome.Rotated?
    ensures Rotate(Rotate(l, hash, raw, meta, newRaw, now, ttlMs).ledger, hash, raw, meta', newRaw', later, ttlMs).outcome
            == Rejected(Revoked)
  {
    var l1 := Rotate(l, hash, raw, meta, newRaw, now, ttlMs).ledger;
    assert l1.rows[hash(raw)].revokedAt == Some(now);
  }

  /**
   * The token handed out by a rotation is itself accepted until it
   * expires: a second rotation presenting it is refused for none of the
   * three token reasons.
   */
  lemma RotatedTokenIsLive(l: Ledger, hash: string -> string, raw: string, meta: Meta, newRaw: string, now: int, ttlMs: nat,
                           meta': Meta, newRaw': string, later: int)
    requires Rotate(l, hash, raw, meta, newRaw, now, ttlMs).outcome.Rotated?
    requires later < now + ttlMs
    ensures var r := Rotate(Rotate(l, hash, raw, meta, newRaw, now, ttlMs).ledger, hash, newRaw, meta', newRaw', later, ttlMs);
            r.outcome.Rotated? || r.outcome == Rejected(StoreError)
  {
    var l1 := Rotate(l, hash, raw, meta, newRaw, now, ttlMs).ledger;
    assert l1.rows[hash(newRaw)].revokedAt.None? && l1.rows[hash(newRaw)].expiresAt > later;
  }

  /** Revoking twice is the same as revoking once. */
  lemma RevokeIdempotent(l: Ledger, hash: string -> string, raw: string, now: int, later: int)
    ensures Revoke(Revoke(l, hash, raw, now), hash, raw, later) == Revoke(l, hash, raw, now)
  {
  }

  /** After log-out everywhere, no token of that user can be rotated. */
  lemma RevokeAllBlocksRotate(l: Ledger, hash: string -> string, userId: nat, now: int,
                              raw: string, meta: Meta, newRaw: string, later: int, ttlMs: nat)
    requires hash(raw) in l.rows && l.rows[hash(raw)].userId == userId
    ensures Rotate(RevokeAllForUser(l, userId, now), hash, raw, meta, newRaw, later, ttlMs).outcome == Rejected(Revoked)
  {
  }
}

/** src/tokens.js as a service object over the `refreshToken` table. */
module Tokens {
  import opened Wrappers
  import opened Timespan
  import opened HashedLedger

  class RefreshTokenService {
    /** `hashToken`: SHA-256 in the source, an arbitrary function here. */
    const hash: string -> string
    /** `parseTimespanMs(REFRESH_TOKEN_TTL)`. */
    const refreshTtlMs: nat
    var rows: map<string, TokenRecord>
    var nextId: nat

    function State(): Ledger
      reads this
    {
      Ledger(rows, nextId)
    }

    ghost predicate Valid()
      reads this
    {
      HashedLedger.Valid(State())
    }

    /** `REFRESH_TOKEN_TTL` is the environment's setting when truthy, else "30d". */
    constructor (hash: string -> string, refreshTokenTtl: Option<string>)
      ensures Valid() && State() == Ledger(map[], 0) && this.hash == hash
      ensures refreshTtlMs == ParseTimespanMs(if Truthy(refreshTokenTtl) then refreshTokenTtl.value else "30d")
    {
      this.hash := hash;
      refreshTtlMs := ParseTimespanMs(if Truthy(refreshTokenTtl) then refreshTokenTtl.value else "30d");
      rows := map[];
      nextId := 0;
    }

    /** `issueRefreshToken`, with `raw` the fresh value of `newOpaqueToken`. */
    method IssueRefreshToken(userId: nat, meta: Meta, raw: string, now: int) returns (out: IssueOutcome)
      requires Valid()
      modifies this
      ensures Valid()
      ensures IssueStep(State(), out) == Issue(old(State()), hash, userId, meta, raw, now, refreshTtlMs)
    {
      IssueKeepsValid(State(), hash, userId, meta, raw, now, refreshTtlMs);
      var tokenHash := hash(raw);
      if tokenHash in rows {
        return HashCollision;
      }
      var rec := TokenRecord(nextId, userId, tokenHash, meta.userAgent, meta.ip, now + refreshTtlMs, None, None);
      assert Issue(State(), hash, userId, meta, raw, now, refreshTtlMs) == IssueStep(Ledger(rows[tokenHash := rec], nextId + 1), Issued(raw, rec));
      rows := rows[tokenHash := rec];
      nextId := nextId + 1;
      out := Issued(raw, rec);
    }

    /** `rotateRefreshToken`: look up, check, issue the successor, then revoke and link the old row. */
    method RotateRefreshToken(rawToken: string, meta: Meta, newRaw: string, now: int) returns (out: RotateOutcome)
      requires Valid()
      modifies this
      ensures Valid()
      ensures RotateStep(State(), out) == Rotate(old(State()), hash, rawToken, meta, newRaw, now, refreshTtlMs)
    {
      RotateKeepsValid(State(), hash, rawToken, meta, newRaw, now, refreshTtlMs);
      var tokenHash := hash(rawToken);
      if tokenHash !in rows {
        return Rejected(InvalidRefresh);
      }
      var found := rows[tokenHash];
      if found.revokedAt.Some? {
        return Rejected(Revoked);
      }
      if found.expiresAt <= now {
        return Rejected(Expired);
      }
      var issued := IssueRefreshToken(found.userId, meta, newRaw, now);
      if issued.HashCollision? {
        return Rejected(StoreError);
      }
      rows := rows[tokenHash := found.(revokedAt := Some(now), replacedBy := Some(issued.record.id))];
      out := Rotated(issued.raw, issued.record);
    }

    /** `revokeRefreshToken`. */
    method RevokeRefreshToken(rawToken: string, now: int)
      requires Valid()
      modifies this
      ensures Valid()
      ensures State() == Revoke(old(State()), hash, rawToken, now)
    {
      RevokeKeepsValid(State(), hash, rawToken, now);
      var tokenHash := hash(rawToken);
      if tokenHash in rows && rows[tokenHash].revokedAt.None? {
        rows := rows[tokenHash := rows[tokenHash].(revokedAt := Some(now))];
      }
    }

    /** `revokeAllForUser`: one `updateMany` over the table. */
    method RevokeAllForUser(userId: nat, now: int)
      requires Valid()
      modifies this
      ensures Valid()
      ensures State() == HashedLedger.RevokeAllForUser(old(State()), userId, now)
    {
      RevokeAllKeepsValid(State(), userId, now);
      rows := map h | h in rows :: RevokedIfActive(rows[h], userId, now);
    }
  }
}
