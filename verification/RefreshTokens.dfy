/** The refresh_tokens table: what each repository call does to it, and the repository itself. */
module RefreshTokens {
  import opened Base
  import opened Tables

  datatype Token = Token(
    userId: Id,
    serviceId: Id,
    tokenHash: Digest,
    expiresAt: Time,
    revokedAt: Option<Time>,
    replacedBy: Option<Id>)

  datatype NewToken = NewToken(id: Id, userId: Id, serviceId: Id, tokenHash: Digest, expiresAt: Time)

  type TokenTable = map<Id, Token>

  predicate Active(t: Token) {
    t.revokedAt.None?
  }

  function Row(n: NewToken): Token {
    Token(n.userId, n.serviceId, n.tokenHash, n.expiresAt, None, None)
  }

  predicate Insertable(table: TokenTable, n: NewToken) {
    n.id !in table && forall id :: id in table ==> table[id].tokenHash != n.tokenHash
  }

  predicate Rotatable(table: TokenTable, oldId: Id) {
    oldId in table && Active(table[oldId])
  }

  function Rotated(table: TokenTable, oldId: Id, next: NewToken, now: Time): TokenTable
    requires oldId in table
  {
    table[oldId := table[oldId].(revokedAt := Some(now), replacedBy := Some(next.id))][next.id := Row(next)]
  }

  function Revoke(now: Time): Token -> Token {
    (t: Token) => t.(revokedAt := Some(now))
  }

  function OwnedBy(userId: Id): Token -> bool {
    (t: Token) => t.userId == userId
  }

  function ExpiredBefore(cutoff: int): Token -> bool {
    (t: Token) => t.expiresAt < cutoff
  }

  /** The outcome of a rotation: Lost when the old token was no longer active. */
  datatype Rotation = Won | Lost | DuplicateKey

  class RefreshTokenRepository {
    var byId: TokenTable

    constructor ()
      ensures byId == map[]
    {
      byId := map[];
    }

    /** Inserts an active row unless its id or its hash is already taken. */
    method Create(token: NewToken) returns (ok: bool)
      modifies this
      ensures ok == (token.id !in old(byId) && forall i :: i in old(byId) ==> old(byId)[i].tokenHash != token.tokenHash)
      ensures byId ==
                if !ok then old(byId)
                else old(byId)[token.id := Token(token.userId, token.serviceId, token.tokenHash, token.expiresAt,
                                                 None, None)]
    {
      var clash := FindWhere(byId, (t: Token) => t.tokenHash == token.tokenHash);
      ok := token.id !in byId && clash.None?;
      if ok {
        byId := byId[token.id := Row(token)];
      }
    }

    /** Finds the row whatever its state, so callers can tell unknown from revoked. */
    method FindByHash(tokenHash: Digest) returns (found: Option<(Id, Token)>)
      ensures found.Some? ==>
                && found.value.0 in byId && byId[found.value.0] == found.value.1
                && found.value.1.tokenHash == tokenHash
      ensures found.None? ==> forall id :: id in byId ==> byId[id].tokenHash != tokenHash
    {
      var key := FindWhere(byId, (t: Token) => t.tokenHash == tokenHash);
      found := if key.Some? then Some((key.value, byId[key.value])) else None;
    }

    /** Revokes the old token only while it is active, and inserts its successor with it. */
    method Rotate(oldId: Id, next: NewToken, now: Time) returns (r: Rotation)
      modifies this
      ensures r == if !Rotatable(old(byId), oldId) then Lost
                   else if Insertable(old(byId), next) then Won else DuplicateKey
      ensures byId == if r.Won? then Rotated(old(byId), oldId, next, now) else old(byId)
      ensures r.Lost? <==> !(oldId in old(byId) && old(byId)[oldId].revokedAt.None?)
    {
      if oldId !in byId || byId[oldId].revokedAt.Some? {
        return Lost;
      }
      var row := byId[oldId];
      var ok := Create(next);
      if !ok {
        return DuplicateKey;
      }
      byId := byId[oldId := row.(revokedAt := Some(now), replacedBy := Some(next.id))];
      return Won;
    }

    /** Stamps revokedAt even on a row that already carries one. */
    method RevokeOne(id: Id, now: Time)
      modifies this
      ensures byId == if id in old(byId) then old(byId)[id := old(byId)[id].(revokedAt := Some(now))] else old(byId)
    {
      if id in byId {
        byId := byId[id := byId[id].(revokedAt := Some(now))];
      }
    }

    method RevokeAllForUser(userId: Id, now: Time)
      modifies this
      ensures byId == Rewritten(old(byId), OwnedBy(userId), Revoke(now))
      ensures byId == map i | i in old(byId) ::
                        if old(byId)[i].userId == userId then old(byId)[i].(revokedAt := Some(now)) else old(byId)[i]
    {
      var changed;
      byId, changed := UpdateWhere(byId, OwnedBy(userId), Revoke(now));
    }

    method DeleteAllForUser(userId: Id) returns (n: nat)
      modifies this
      ensures byId == Without(old(byId), OwnedBy(userId))
      ensures byId == map i | i in old(byId) && old(byId)[i].userId != userId :: old(byId)[i]
      ensures n == |Picked(old(byId), OwnedBy(userId))| == |old(byId)| - |byId|
    {
      byId, n := DeleteWhere(byId, OwnedBy(userId));
    }

    method DeleteExpiredBefore(cutoff: int) returns (n: nat)
      modifies this
      ensures byId == Without(old(byId), ExpiredBefore(cutoff))
      ensures byId == map i | i in old(byId) && old(byId)[i].expiresAt >= cutoff :: old(byId)[i]
      ensures n == |Picked(old(byId), ExpiredBefore(cutoff))| == |old(byId)| - |byId|
    {
      byId, n := DeleteWhere(byId, ExpiredBefore(cutoff));
    }
  }
}
