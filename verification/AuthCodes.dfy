/** The authorization_codes table and its repository. */
module AuthCodes {
  import opened Base
  import opened Tables

  /** S256 derives the challenge from the verifier; anything else matches no verifier. */
  datatype Challenge = S256(verifier: Secret) | Unmatched(text: nat)

  datatype Code = Code(
    userId: Id,
    serviceId: Id,
    codeHash: Digest,
    redirectUri: nat,
    challenge: Challenge,
    expiresAt: Time,
    consumedAt: Option<Time>)

  type CodeTable = map<Id, Code>

  predicate Consumable(table: CodeTable, id: Id) {
    id in table && table[id].consumedAt.None?
  }

  function Consumed(table: CodeTable, id: Id, now: Time): CodeTable
    requires id in table
  {
    table[id := table[id].(consumedAt := Some(now))]
  }

  function OwnedBy(userId: Id): Code -> bool {
    (c: Code) => c.userId == userId
  }

  function ExpiredBefore(cutoff: int): Code -> bool {
    (c: Code) => c.expiresAt < cutoff
  }

  class AuthCodeRepository {
    var byId: CodeTable

    constructor ()
      ensures byId == map[]
    {
      byId := map[];
    }

    method Create(id: Id, code: Code) returns (ok: bool)
      modifies this
      ensures ok == (id !in old(byId) && forall c :: c in old(byId) ==> old(byId)[c].codeHash != code.codeHash)
      ensures byId == if ok then old(byId)[id := code.(consumedAt := None)] else old(byId)
    {
      var clash := FindWhere(byId, (c: Code) => c.codeHash == code.codeHash);
      ok := id !in byId && clash.None?;
      if ok {
        byId := byId[id := code.(consumedAt := None)];
      }
    }

    method FindByCodeHash(codeHash: Digest) returns (found: Option<(Id, Code)>)
      ensures found.Some? ==>
                && found.value.0 in byId && byId[found.value.0] == found.value.1
                && found.value.1.codeHash == codeHash
      ensures found.None? ==> forall id :: id in byId ==> byId[id].codeHash != codeHash
    {
      var key := FindWhere(byId, (c: Code) => c.codeHash == codeHash);
      found := if key.Some? then Some((key.value, byId[key.value])) else None;
    }

    /** Marks the code consumed only if it is not already; false means a replay or a lost race. */
    method Consume(id: Id, now: Time) returns (won: bool)
      modifies this
      ensures won == (id in old(byId) && old(byId)[id].consumedAt.None?)
      ensures byId == if won then old(byId)[id := old(byId)[id].(consumedAt := Some(now))] else old(byId)
    {
      if id !in byId || byId[id].consumedAt.Some? {
        return false;
      }
      byId := byId[id := byId[id].(consumedAt := Some(now))];
      return true;
    }

    method DeleteAllForUser(userId: Id) returns (n: nat)
      modifies this
      ensures byId == Without(old(byId), OwnedBy(userId))
      ensures byId == map i | i in old(byId) && old(byId)[i].userId != userId :: old(byId)[i]
      ensures n == |Picked(old(byId), OwnedBy(userId))| == |old(byId)| - |byId|
    {
      byId, n := DeleteWhere(byId, OwnedBy(userId));
    }

    method DeleteExpiredBefore(cutoff: int) returns (n: nat)
      modifies this
      ensures byId == Without(old(byId), ExpiredBefore(cutoff))
      ensures byId == map i | i in old(byId) && old(byId)[i].expiresAt >= cutoff :: old(byId)[i]
      ensures n == |Picked(old(byId), ExpiredBefore(cutoff))| == |old(byId)| - |byId|
    {
      byId, n := DeleteWhere(byId, ExpiredBefore(cutoff));
    }
  }
}
