/**
 The RefreshToken table and the queries that AuthService runs on it. A raw token, its hash and its row id are
 identified: raw values are fresh random strings and the hash is injective.
 */
module TokenTable {
  import opened Common

  const REFRESH_TOKEN_TTL: int := 7 * DAY

  datatype Token = Token(
    userId: Id,
    familyId: Id,
    expiresAt: Time,
    revokedAt: Option<Time>,
    replacedBy: Option<Id>)

  type Table = map<Id, Token>

  predicate Live(rows: Table, t: Id) {
    t in rows && rows[t].revokedAt.None?
  }

  /** updateMany where { id, revokedAt: null } setting revokedAt and replacedByTokenId. */
  function Exchange(rows: Table, t: Id, at: Time, successor: Id): Table {
    if Live(rows, t) then rows[t := rows[t].(revokedAt := Some(at), replacedBy := Some(successor))] else rows
  }

  /** updateMany where { tokenHash, revokedAt: null } setting revokedAt. */
  function RevokeOne(rows: Table, t: Id, at: Time): Table {
    if Live(rows, t) then rows[t := rows[t].(revokedAt := Some(at))] else rows
  }

  /** updateMany where { familyId, revokedAt: null } setting revokedAt. */
  function RevokeFamily(rows: Table, family: Id, at: Time): Table {
    map t | t in rows ::
      if rows[t].familyId == family && rows[t].revokedAt.None? then rows[t].(revokedAt := Some(at)) else rows[t]
  }

  /** deleteMany where { expiresAt: { lt: cutoff } }. */
  function PurgeExpired(rows: Table, cutoff: Time): Table {
    map t | t in rows && rows[t].expiresAt >= cutoff :: rows[t]
  }

  /** deleteMany where { userId }, the part of a user deletion that touches this table. */
  function DropUser(rows: Table, userId: Id): Table {
    map t | t in rows && rows[t].userId != userId :: rows[t]
  }

  /** The row `issueRefreshToken` inserts. */
  function Fresh(userId: Id, familyId: Id, mintedAt: Time): Token {
    Token(userId, familyId, mintedAt + REFRESH_TOKEN_TTL, None, None)
  }

  datatype Outcome = Accepted(successor: Id) | Rejected

  /**
   `refresh` when nothing else runs between its queries: the outcome for the presented token and the table it
   leaves. `newId` is the id of the successor it would mint.
   */
  function AtomicRefresh(rows: Table, users: set<Id>, now: Time, raw: Id, newId: Id): (Outcome, Table) {
    if raw !in rows then
      (Rejected, rows)
    else if rows[raw].revokedAt.Some? then
      (Rejected, RevokeFamily(rows, rows[raw].familyId, now))
    else if rows[raw].expiresAt < now || rows[raw].userId !in users then
      (Rejected, rows)
    else
      var minted := rows[newId := Fresh(rows[raw].userId, rows[raw].familyId, now)];
      (Accepted(newId), Exchange(minted, raw, now, newId))
  }
}
