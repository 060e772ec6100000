/** The passkeys and webauthn_challenges tables and their repository. */
module Passkeys {
  import opened Base
  import opened Rows

  datatype Passkey = Passkey(id: Id, userId: Id, credentialHash: Digest, counter: nat, lastUsedAt: Option<Time>)

  datatype Purpose = Register | Authenticate

  datatype Challenge = Challenge(hash: Digest, purpose: Purpose, userId: Option<Id>, expiresAt: Time,
                                 consumedAt: Option<Time>)

  function HasCredential(hash: Digest): Passkey -> bool {
    (p: Passkey) => p.credentialHash == hash
  }

  function HasId(id: Id): Passkey -> bool {
    (p: Passkey) => p.id == id
  }

  function OwnedBy(userId: Id): Passkey -> bool {
    (p: Passkey) => p.userId == userId
  }

  function NotOwnedBy(userId: Id): Passkey -> bool {
    (p: Passkey) => p.userId != userId
  }

  function Other(userId: Id, id: Id): Passkey -> bool {
    (p: Passkey) => !(p.id == id && p.userId == userId)
  }

  function Fits(hash: Digest, purpose: Purpose, userId: Option<Id>, now: Time): Challenge -> bool {
    (c: Challenge) =>
      c.hash == hash && c.purpose == purpose && c.userId == userId && c.consumedAt.None? && c.expiresAt > now
  }

  function HasHash(hash: Digest): Challenge -> bool {
    (c: Challenge) => c.hash == hash
  }

  function NotFor(userId: Id): Challenge -> bool {
    (c: Challenge) => c.userId != Some(userId)
  }

  function NotExpiredBefore(cutoff: int): Challenge -> bool {
    (c: Challenge) => c.expiresAt >= cutoff
  }

  datatype Insert = Inserted | DuplicateCredential | DuplicateId

  function InsertResult(rows: seq<Passkey>, row: Passkey): Insert {
    if exists p :: p in rows && p.credentialHash == row.credentialHash then DuplicateCredential
    else if exists p :: p in rows && p.id == row.id then DuplicateId
    else Inserted
  }

  /** recordUse touches the row with the id, if there is one. */
  function Recorded(rows: seq<Passkey>, id: Id, counter: nat, now: Time): seq<Passkey> {
    var i := First(rows, HasId(id));
    if i < |rows| then rows[i := rows[i].(counter := counter, lastUsedAt := Some(now))] else rows
  }

  function Spent(challenges: seq<Challenge>, i: nat, now: Time): seq<Challenge>
    requires i < |challenges|
  {
    challenges[i := challenges[i].(consumedAt := Some(now))]
  }

  class PasskeyRepository {
    var rows: seq<Passkey>
    var challenges: seq<Challenge>

    constructor ()
      ensures rows == [] && challenges == []
    {
      rows, challenges := [], [];
    }

    method Create(row: Passkey) returns (r: Insert)
      modifies this
      ensures r == InsertResult(old(rows), row) && challenges == old(challenges)
      ensures rows == if r.Inserted? then old(rows) + [row] else old(rows)
    {
      var sameCredential := FindIndex(rows, HasCredential(row.credentialHash));
      if sameCredential < |rows| {
        return DuplicateCredential;
      }
      var sameId := FindIndex(rows, HasId(row.id));
      if sameId < |rows| {
        return DuplicateId;
      }
      rows := rows + [row];
      return Inserted;
    }

    method FindByCredentialHash(hash: Digest) returns (found: Option<Passkey>)
      ensures found.Some? ==> found.value in rows && found.value.credentialHash == hash
      ensures found.None? ==> forall p :: p in rows ==> p.credentialHash != hash
    {
      var i := FindIndex(rows, HasCredential(hash));
      found := if i < |rows| then Some(rows[i]) else None;
    }

    method ListForUser(userId: Id) returns (owned: seq<Passkey>)
      ensures owned == Kept(rows, OwnedBy(userId))
      ensures forall p :: p in owned <==> p in rows && p.userId == userId
    {
      owned := Filter(rows, OwnedBy(userId));
    }

    method RecordUse(id: Id, counter: nat, now: Time)
      modifies this
      ensures rows == Recorded(old(rows), id, counter, now) && challenges == old(challenges)
    {
      var i := FindIndex(rows, HasId(id));
      if i < |rows| {
        rows := rows[i := rows[i].(counter := counter, lastUsedAt := Some(now))];
      }
    }

    method Delete(userId: Id, id: Id) returns (deleted: bool)
      modifies this
      ensures rows == Kept(old(rows), Other(userId, id)) && challenges == old(challenges)
      ensures forall p :: p in rows <==> p in old(rows) && !(p.id == id && p.userId == userId)
      ensures deleted == (|rows| < |old(rows)|)
    {
      var before := |rows|;
      rows := Filter(rows, Other(userId, id));
      deleted := |rows| < before;
    }

    method CreateChallenge(hash: Digest, purpose: Purpose, userId: Option<Id>, expiresAt: Time) returns (ok: bool)
      modifies this
      ensures ok == forall c :: c in old(challenges) ==> c.hash != hash
      ensures challenges == old(challenges) + if ok then [Challenge(hash, purpose, userId, expiresAt, None)] else []
      ensures rows == old(rows)
    {
      var same := FindIndex(challenges, HasHash(hash));
      ok := same == |challenges|;
      if ok {
        challenges := challenges + [Challenge(hash, purpose, userId, expiresAt, None)];
      }
    }

    /** One conditional update: purpose, user, expiry and single use are all part of the match. */
    method ConsumeChallenge(hash: Digest, purpose: Purpose, userId: Option<Id>, now: Time) returns (won: bool)
      modifies this
      ensures var i := First(old(challenges), Fits(hash, purpose, userId, now));
              && won == (i < |old(challenges)|)
              && challenges == if won then Spent(old(challenges), i, now) else old(challenges)
      ensures rows == old(rows)
    {
      var i := FindIndex(challenges, Fits(hash, purpose, userId, now));
      if i == |challenges| {
        return false;
      }
      challenges := challenges[i := challenges[i].(consumedAt := Some(now))];
      return true;
    }

    method DeleteExpiredChallengesBefore(cutoff: int) returns (n: nat)
      modifies this
      ensures challenges == Kept(old(challenges), NotExpiredBefore(cutoff)) && rows == old(rows)
      ensures forall c :: c in challenges <==> c in old(challenges) && c.expiresAt >= cutoff
      ensures n == |old(challenges)| - |challenges|
    {
      var before := |challenges|;
      challenges := Filter(challenges, NotExpiredBefore(cutoff));
      n := before - |challenges|;
    }

    method DeleteAllForUser(userId: Id) returns (n: nat)
      modifies this
      ensures rows == Kept(old(rows), NotOwnedBy(userId)) && challenges == Kept(old(challenges), NotFor(userId))
      ensures forall p :: p in rows <==> p in old(rows) && p.userId != userId
      ensures forall c :: c in challenges <==> c in old(challenges) && c.userId != Some(userId)
      ensures n == |old(rows)| + |old(challenges)| - |rows| - |challenges|
    {
      var before := |rows| + |challenges|;
      rows := Filter(rows, NotOwnedBy(userId));
      challenges := Filter(challenges, NotFor(userId));
      n := before - |rows| - |challenges|;
    }

    /** Passkeys only: challenges in flight expire on their own. */
    method DeleteAllPasskeysForUser(userId: Id) returns (n: nat)
      modifies this
      ensures rows == Kept(old(rows), NotOwnedBy(userId)) && challenges == old(challenges)
      ensures forall p :: p in rows <==> p in old(rows) && p.userId != userId
      ensures n == |old(rows)| - |rows|
    {
      var before := |rows|;
      rows := Filter(rows, NotOwnedBy(userId));
      n := before - |rows|;
    }
  }
}
