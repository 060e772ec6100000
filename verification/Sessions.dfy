/** The sessions table and its repository. */
module Sessions {
  import opened Base
  import opened Tables

  datatype Session = Session(userId: Id, tokenHash: Digest, expiresAt: Time, revokedAt: Option<Time>)

  type SessionTable = map<Id, Session>

  function OwnedBy(userId: Id): Session -> bool {
    (s: Session) => s.userId == userId
  }

  function ExpiredBefore(cutoff: int): Session -> bool {
    (s: Session) => s.expiresAt < cutoff
  }

  function Ended(now: Time): Session -> Session {
    (s: Session) => s.(revokedAt := Some(now))
  }

  predicate ActiveAt(s: Session, now: Time) {
    s.revokedAt.None? && s.expiresAt > now
  }

  class SessionRepository {
    var byId: SessionTable

    constructor ()
      ensures byId == map[]
    {
      byId := map[];
    }

    method Create(id: Id, session: Session) returns (ok: bool)
      modifies this
      ensures ok == (id !in old(byId) && forall k :: k in old(byId) ==> old(byId)[k].tokenHash != session.tokenHash)
      ensures byId == if ok then old(byId)[id := session.(revokedAt := None)] else old(byId)
    {
      var clash := FindWhere(byId, (s: Session) => s.tokenHash == session.tokenHash);
      ok := id !in byId && clash.None?;
      if ok {
        byId := byId[id := session.(revokedAt := None)];
      }
    }

    method FindActiveByTokenHash(tokenHash: Digest, now: Time) returns (found: Option<Id>)
      ensures found.Some? ==>
                && found.value in byId && byId[found.value].tokenHash == tokenHash
                && byId[found.value].revokedAt.None? && now < byId[found.value].expiresAt
      ensures found.None? ==>
                forall k :: k in byId && byId[k].tokenHash == tokenHash ==>
                  byId[k].revokedAt.Some? || byId[k].expiresAt <= now
    {
      found := FindWhere(byId, (s: Session) => s.tokenHash == tokenHash && ActiveAt(s, now));
    }

    method RevokeAllForUser(userId: Id, now: Time)
      modifies this
      ensures byId == Rewritten(old(byId), OwnedBy(userId), Ended(now))
      ensures byId == map i | i in old(byId) ::
                        if old(byId)[i].userId == userId then old(byId)[i].(revokedAt := Some(now)) else old(byId)[i]
    {
      var n;
      byId, n := UpdateWhere(byId, OwnedBy(userId), Ended(now));
    }

    method DeleteAllForUser(userId: Id) returns (n: nat)
      modifies this
      ensures byId == Without(old(byId), OwnedBy(userId))
      ensures byId == map i | i in old(byId) && old(byId)[i].userId != userId :: old(byId)[i]
      ensures n == |Picked(old(byId), OwnedBy(userId))| == |old(byId)| - |byId|
    {
      byId, n := DeleteWhere(byId, OwnedBy(userId));
    }

    method DeleteExpiredBefore(cutoff: int) returns (n: nat)
      modifies this
      ensures byId == Without(old(byId), ExpiredBefore(cutoff))
      ensures byId == map i | i in old(byId) && old(byId)[i].expiresAt >= cutoff :: old(byId)[i]
      ensures n == |Picked(old(byId), ExpiredBefore(cutoff))| == |old(byId)| - |byId|
    {
      byId, n := DeleteWhere(byId, ExpiredBefore(cutoff));
    }
  }
}
