/** backend/src/auth/auth.service.ts: the `refresh_tokens` table, keyed by (userId, deviceId).
    The table operations are first given as functions on the table's contents; the class
    `RefreshTokenTable` then performs them in place. Every write stores the hash of the token. */
module AuthService {
  import opened Wrappers
  import opened Crypto
  import opened Schema

  type Rows = map<TokenKey, TokenRow>

  /** `createRefreshToken`: a plain insert. A row for the same pair violates the unique index,
      and the insert fails. */
  function Insert(rows: Rows, token: Jwt, deviceId: string, expiresAt: int, userId: int, nowMs: int): (r: Option<Rows>)
    ensures r.Some? <==> (userId, deviceId) !in rows
    ensures r.Some? ==> r.value.Keys == rows.Keys + {(userId, deviceId)}
    ensures r.Some? ==> r.value[(userId, deviceId)] == TokenRow(Hash(token), nowMs, expiresAt)
    ensures r.Some? ==> forall k :: k in rows ==> r.value[k] == rows[k]
  {
    var key := (userId, deviceId);
    if key in rows then None
    else Some(rows[key := TokenRow(Hash(token), nowMs, expiresAt)])
  }

  /** `updateRefreshToken`: sets hash and expiry of the row matching both userId and deviceId;
      with no such row nothing changes. */
  function Update(rows: Rows, token: Jwt, deviceId: string, expiresAt: int, userId: int): (r: Rows)
    ensures r.Keys == rows.Keys
    ensures forall k :: k in rows && k != (userId, deviceId) ==> r[k] == rows[k]
    ensures (userId, deviceId) in rows ==>
              r[(userId, deviceId)] == TokenRow(Hash(token), rows[(userId, deviceId)].createdAt, expiresAt)
  {
    var key := (userId, deviceId);
    if key in rows then rows[key := rows[key].(hash := Hash(token), expiresAt := expiresAt)]
    else rows
  }

  /** `createOrUpdateRefreshToken`: insert, or on conflict on (userId, deviceId) overwrite hash and
      expiry. `createdAt` is not in the `set` list, so an overwritten row keeps it. */
  function Upsert(rows: Rows, token: Jwt, deviceId: string, expiresAt: int, userId: int, nowMs: int): (r: Rows)
    ensures r.Keys == rows.Keys + {(userId, deviceId)}
    ensures forall k :: k in rows && k != (userId, deviceId) ==> r[k] == rows[k]
    ensures r[(userId, deviceId)].hash == Hash(token) && r[(userId, deviceId)].expiresAt == expiresAt
    ensures r[(userId, deviceId)].createdAt ==
              if (userId, deviceId) in rows then rows[(userId, deviceId)].createdAt else nowMs
  {
    match Insert(rows, token, deviceId, expiresAt, userId, nowMs)
    case Some(inserted) => inserted
    case None => Update(rows, token, deviceId, expiresAt, userId)
  }

  /** `findRefreshTokenByUserIdAndDeviceId`: the pair's row, if any. */
  function Find(rows: Rows, userId: int, deviceId: string): (r: Option<TokenRow>)
    ensures r.Some? <==> (userId, deviceId) in rows
    ensures r.Some? ==> r.value == rows[(userId, deviceId)]
  {
    if (userId, deviceId) in rows then Some(rows[(userId, deviceId)]) else None
  }

  /** `deleteRefreshTokenByUserIdAndDeviceId`. */
  function Delete(rows: Rows, userId: int, deviceId: string): (r: Rows)
    ensures r.Keys == rows.Keys - {(userId, deviceId)}
    ensures forall k :: k in r ==> r[k] == rows[k]
  {
    rows - {(userId, deviceId)}
  }

  /** Whatever the table held, after an upsert the pair has exactly one row, found by `Find`,
      which holds the new hash and expiry. */
  lemma UpsertThenFind(rows: Rows, token: Jwt, deviceId: string, expiresAt: int, userId: int, nowMs: int)
    ensures var r := Find(Upsert(rows, token, deviceId, expiresAt, userId, nowMs), userId, deviceId);
            r.Some? && VerifyHash(token, r.value.hash) && r.value.expiresAt == expiresAt
  {
  }

  /** Update and upsert agree when the row exists; when it does not, update is a no-op and
      upsert inserts. */
  lemma UpdateIsUpsertOnExistingRow(rows: Rows, token: Jwt, deviceId: string, expiresAt: int, userId: int, nowMs: int)
    ensures (userId, deviceId) in rows ==>
              Update(rows, token, deviceId, expiresAt, userId) == Upsert(rows, token, deviceId, expiresAt, userId, nowMs)
    ensures (userId, deviceId) !in rows ==>
              Update(rows, token, deviceId, expiresAt, userId) == rows
              && Upsert(rows, token, deviceId, expiresAt, userId, nowMs)
                 == Insert(rows, token, deviceId, expiresAt, userId, nowMs).value
  {
  }

  /** Delete removes the pair's row, and deleting again changes nothing. */
  lemma DeleteIdempotent(rows: Rows, userId: int, deviceId: string)
    ensures Find(Delete(rows, userId, deviceId), userId, deviceId).None?
    ensures Delete(Delete(rows, userId, deviceId), userId, deviceId) == Delete(rows, userId, deviceId)
  {
  }

  /** Writes for one pair never change what `Find` returns for another pair. */
  lemma OtherPairsUntouched(rows: Rows, token: Jwt, deviceId: string, expiresAt: int, userId: int, nowMs: int,
                            otherUser: int, otherDevice: string)
    requires (otherUser, otherDevice) != (userId, deviceId)
    ensures Find(Update(rows, token, deviceId, expiresAt, userId), otherUser, otherDevice) == Find(rows, otherUser, otherDevice)
    ensures Find(Upsert(rows, token, deviceId, expiresAt, userId, nowMs), otherUser, otherDevice) == Find(rows, otherUser, otherDevice)
    ensures Find(Delete(rows, userId, deviceId), otherUser, otherDevice) == Find(rows, otherUser, otherDevice)
  {
  }

  /** The table's rows refer to existing users, and writes keep it so when the user exists. */
  lemma WritesKeepReferences(rows: Rows, users: map<int, User>, token: Jwt, deviceId: string, expiresAt: int,
                             userId: int, nowMs: int)
    requires TokensReferenceUsers(rows, users)
    ensures TokensReferenceUsers(Update(rows, token, deviceId, expiresAt, userId), users)
    ensures TokensReferenceUsers(Delete(rows, userId, deviceId), users)
    ensures userId in users ==> TokensReferenceUsers(Upsert(rows, token, deviceId, expiresAt, userId, nowMs), users)
  {
  }

  /** The `refresh_tokens` table, changed in place. */
  class RefreshTokenTable {
    var rows: Rows

    constructor()
      ensures rows == map[]
    {
      rows := map[];
    }

    /** Returns false, changing nothing, when the insert violates the unique index. */
    method CreateRefreshToken(token: Jwt, deviceId: string, expiresAt: int, userId: int, nowMs: int)
      returns (inserted: bool)
      modifies this
      ensures inserted <==> (userId, deviceId) !in old(rows)
      ensures inserted ==> rows == Insert(old(rows), token, deviceId, expiresAt, userId, nowMs).value
      ensures !inserted ==> rows == old(rows)
    {
      var hashed := Hash(token);
      if (userId, deviceId) in rows {
        inserted := false;
      } else {
        rows := rows[(userId, deviceId) := TokenRow(hashed, nowMs, expiresAt)];
        inserted := true;
      }
    }

    method UpdateRefreshToken(token: Jwt, deviceId: string, expiresAt: int, userId: int)
      modifies this
      ensures rows == Update(old(rows), token, deviceId, expiresAt, userId)
    {
      var hashed := Hash(token);
      var key := (userId, deviceId);
      if key in rows {
        rows := rows[key := TokenRow(hashed, rows[key].createdAt, expiresAt)];
      }
    }

    method CreateOrUpdateRefreshToken(token: Jwt, deviceId: string, expiresAt: int, userId: int, nowMs: int)
      modifies this
      ensures rows == Upsert(old(rows), token, deviceId, expiresAt, userId, nowMs)
    {
      var hashed := Hash(token);
      var key := (userId, deviceId);
      var createdAt := if key in rows then rows[key].createdAt else nowMs;
      rows := rows[key := TokenRow(hashed, createdAt, expiresAt)];
    }

    /** `res[0]` of the select: the pair's row, or nothing. */
    method FindRefreshTokenByUserIdAndDeviceId(userId: int, deviceId: string) returns (row: Option<TokenRow>)
      ensures row.Some? <==> (userId, deviceId) in rows
      ensures row.Some? ==> row.value == rows[(userId, deviceId)]
    {
      if (userId, deviceId) in rows {
        row := Some(rows[(userId, deviceId)]);
      } else {
        row := None;
      }
    }

    method DeleteRefreshTokenByUserIdAndDeviceId(userId: int, deviceId: string)
      modifies this
      ensures rows == Delete(old(rows), userId, deviceId)
    {
      rows := rows - {(userId, deviceId)};
    }
  }
}
