/** Refresh tokens: each is exchanged once for the next of its family. */
module Tokens {
  import opened Wrappers

  /** A token is its record's id and a secret; records hold the secret's hash, which here is the secret. */
  type Id = nat
  type Secret = nat
  type Family = nat
  type Account = nat

  datatype Row = Row(family: Family, account: Account, secret: Secret, expiresAt: int, usedAt: Option<int>, revoked: bool)

  type Rows = map<Id, Row>

  datatype Token = Token(id: Id, secret: Secret)

  datatype Reason = Invalid | Expired | Reused

  datatype Outcome = Rotated(account: Account, next: Token, expiresAt: int) | Refused(reason: Reason)

  // ---- specification ---------------------------------------------------------------------------

  function Save(rows: Rows, id: Id, r: Row): Rows { rows[id := r] }

  function MarkUsed(rows: Rows, id: Id, now: int): Rows {
    if id in rows then rows[id := rows[id].(usedAt := Some(now))] else rows
  }

  function RevokeFamily(rows: Rows, family: Family): Rows {
    map id | id in rows :: if rows[id].family == family then rows[id].(revoked := true) else rows[id]
  }

  function RevokeAccount(rows: Rows, account: Account): Rows {
    map id | id in rows :: if rows[id].account == account then rows[id].(revoked := true) else rows[id]
  }

  function Prune(rows: Rows, now: int): Rows { map id | id in rows && rows[id].expiresAt >= now :: rows[id] }

  function Issue(rows: Rows, account: Account, ttlMs: int, now: int, family: Family, fresh_: Token): Rows {
    Save(rows, fresh_.id, Row(family, account, fresh_.secret, now + ttlMs, None, false))
  }

  /** `next` is the token to issue if this one is good. */
  function Rotate(rows: Rows, token: Token, ttlMs: int, now: int, next: Token): (Rows, Outcome) {
    if token.id !in rows || rows[token.id].secret != token.secret then (rows, Refused(Invalid))
    else
      var r := rows[token.id];
      if r.revoked then (rows, Refused(Reused))
      else if r.usedAt.Some? then (RevokeFamily(rows, r.family), Refused(Reused))
      else if r.expiresAt <= now then (rows, Refused(Expired))
      else
        (Issue(MarkUsed(rows, token.id, now), r.account, ttlMs, now, r.family, next), Rotated(r.account, next, now + ttlMs))
  }

  function Revoke(rows: Rows, id: Id): (Rows, bool) {
    if id in rows then (RevokeFamily(rows, rows[id].family), true) else (rows, false)
  }

  // ---- the store ---------------------------------------------------------------------------------

  class TokenStore {
    var rows: Rows

    constructor ()
      ensures rows == map[]
    {
      rows := map[];
    }

    method SaveRefresh(id: Id, r: Row)
      modifies this
      ensures rows == Save(old(rows), id, r)
    {
      rows := rows[id := r];
    }

    method RefreshById(id: Id) returns (r: Option<Row>)
      ensures r == if id in rows then Some(rows[id]) else None
    {
      r := if id in rows then Some(rows[id]) else None;
    }

    method MarkRefreshUsed(id: Id, now: int)
      modifies this
      ensures rows == MarkUsed(old(rows), id, now)
    {
      if id in rows {
        rows := rows[id := rows[id].(usedAt := Some(now))];
      }
    }

    method RevokeRows(family: Family)
      modifies this
      ensures rows == RevokeFamily(old(rows), family)
    {
      rows := map id | id in rows :: if rows[id].family == family then rows[id].(revoked := true) else rows[id];
    }

    method RevokeAccountTokens(account: Account)
      modifies this
      ensures rows == RevokeAccount(old(rows), account)
    {
      rows := map id | id in rows :: if rows[id].account == account then rows[id].(revoked := true) else rows[id];
    }

    method PruneRefresh(now: int)
      modifies this
      ensures rows == Prune(old(rows), now)
    {
      rows := map id | id in rows && rows[id].expiresAt >= now :: rows[id];
    }
  }

  method IssueRefresh(store: TokenStore, account: Account, ttlMs: int, now: int, family: Family, fresh_: Token) returns (expiresAt: int)
    modifies store
    ensures expiresAt == now + ttlMs && store.rows == Issue(old(store.rows), account, ttlMs, now, family, fresh_)
  {
    expiresAt := now + ttlMs;
    store.SaveRefresh(fresh_.id, Row(family, account, fresh_.secret, expiresAt, None, false));
  }

  method RotateRefresh(store: TokenStore, token: Token, ttlMs: int, now: int, next: Token) returns (o: Outcome)
    modifies store
    ensures (store.rows, o) == Rotate(old(store.rows), token, ttlMs, now, next)
  {
    var record := store.RefreshById(token.id);
    if record.None? || record.value.secret != token.secret {
      return Refused(Invalid);
    }
    var r := record.value;
    if r.revoked {
      return Refused(Reused);
    }
    if r.usedAt.Some? {
      store.RevokeRows(r.family);
      return Refused(Reused);
    }
    if r.expiresAt <= now {
      return Refused(Expired);
    }
    store.MarkRefreshUsed(token.id, now);
    var expiresAt := IssueRefresh(store, r.account, ttlMs, now, r.family, next);
    o := Rotated(r.account, next, expiresAt);
  }

  method RevokeRefresh(store: TokenStore, id: Id) returns (known: bool)
    modifies store
    ensures (store.rows, known) == Revoke(old(store.rows), id)
  {
    var record := store.RefreshById(id);
    if record.None? {
      return false;
    }
    store.RevokeRows(record.value.family);
    known := true;
  }
}
