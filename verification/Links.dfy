/** The emailed links: the email_verification_tokens table and its repository. */
module Links {
  import opened Base
  import opened Tables

  datatype Purpose = VerifyEmail | EmailChange | AccountDeletion | PasswordReset

  /** Links that take over or remove the account. */
  predicate AccountChanging(p: Purpose) {
    p != VerifyEmail
  }

  /** `email` is what the link is about; `mailedTo`, kept for the record, is where it was sent. */
  datatype Link = Link(
    userId: Id,
    email: Address,
    purpose: Purpose,
    tokenHash: Digest,
    expiresAt: Time,
    consumedAt: Option<Time>,
    mailedTo: Address)

  type LinkTable = map<Id, Link>

  predicate Consumable(links: LinkTable, id: Id) {
    id in links && links[id].consumedAt.None?
  }

  function Consumed(links: LinkTable, id: Id, now: Time): LinkTable
    requires id in links
  {
    links[id := links[id].(consumedAt := Some(now))]
  }

  function Open(userId: Id): Link -> bool {
    (l: Link) => l.userId == userId && l.consumedAt.None? && AccountChanging(l.purpose)
  }

  function Used(now: Time): Link -> Link {
    (l: Link) => l.(consumedAt := Some(now))
  }

  function OwnedBy(userId: Id): Link -> bool {
    (l: Link) => l.userId == userId
  }

  function ExpiredBefore(cutoff: int): Link -> bool {
    (l: Link) => l.expiresAt < cutoff
  }

  /** The link a secret belongs to. */
  ghost function LinkWithHash(links: LinkTable, hash: Digest): (id: Option<Id>)
    ensures id.Some? ==> id.value in links && links[id.value].tokenHash == hash
    ensures id.None? ==> forall k :: k in links ==> links[k].tokenHash != hash
  {
    if exists k :: k in links && links[k].tokenHash == hash then
      var k :| k in links && links[k].tokenHash == hash;
      Some(k)
    else None
  }

  class VerificationTokenRepository {
    var byId: LinkTable

    constructor ()
      ensures byId == map[]
    {
      byId := map[];
    }

    method Create(id: Id, link: Link) returns (ok: bool)
      modifies this
      ensures ok == (id !in old(byId) && forall k :: k in old(byId) ==> old(byId)[k].tokenHash != link.tokenHash)
      ensures byId == if ok then old(byId)[id := link.(consumedAt := None)] else old(byId)
    {
      var clash := FindWhere(byId, (l: Link) => l.tokenHash == link.tokenHash);
      ok := id !in byId && clash.None?;
      if ok {
        byId := byId[id := link.(consumedAt := None)];
      }
    }

    method FindByHash(tokenHash: Digest) returns (found: Option<Id>)
      ensures found.Some? ==> found.value in byId && byId[found.value].tokenHash == tokenHash
      ensures found.None? ==> forall id :: id in byId ==> byId[id].tokenHash != tokenHash
    {
      found := FindWhere(byId, (l: Link) => l.tokenHash == tokenHash);
    }

    method Consume(id: Id, now: Time) returns (won: bool)
      modifies this
      ensures won == (id in old(byId) && old(byId)[id].consumedAt.None?)
      ensures byId == if won then old(byId)[id := old(byId)[id].(consumedAt := Some(now))] else old(byId)
    {
      if id !in byId || byId[id].consumedAt.Some? {
        return false;
      }
      byId := byId[id := byId[id].(consumedAt := Some(now))];
      return true;
    }

    /** Marks rather than deletes, so a later click still reads as a used link. */
    method ConsumeAllForUser(userId: Id, now: Time) returns (n: nat)
      modifies this
      ensures byId == Rewritten(old(byId), Open(userId), Used(now))
      ensures byId == map i | i in old(byId) ::
                        if old(byId)[i].userId == userId && old(byId)[i].consumedAt.None?
                           && old(byId)[i].purpose != VerifyEmail
                        then old(byId)[i].(consumedAt := Some(now)) else old(byId)[i]
      ensures n == |Picked(old(byId), Open(userId))|
    {
      byId, n := UpdateWhere(byId, Open(userId), Used(now));
    }

    method DeleteAllForUser(userId: Id) returns (n: nat)
      modifies this
      ensures byId == Without(old(byId), OwnedBy(userId))
      ensures byId == map i | i in old(byId) && old(byId)[i].userId != userId :: old(byId)[i]
      ensures n == |Picked(old(byId), OwnedBy(userId))| == |old(byId)| - |byId|
    {
      byId, n := DeleteWhere(byId, OwnedBy(userId));
    }

    method DeleteExpiredBefore(cutoff: int) returns (n: nat)
      modifies this
      ensures byId == Without(old(byId), ExpiredBefore(cutoff))
      ensures byId == map i | i in old(byId) && old(byId)[i].expiresAt >= cutoff :: old(byId)[i]
      ensures n == |Picked(old(byId), ExpiredBefore(cutoff))| == |old(byId)| - |byId|
    {
      byId, n := DeleteWhere(byId, ExpiredBefore(cutoff));
    }
  }
}
