/** The social_accounts table and its repository, for the one provider there is. */
module SocialAccounts {
  import opened Base
  import opened Tables

  /** What Google calls the account. */
  type Sub = nat

  datatype Account = Account(id: Id, userId: Id)

  type SocialTable = map<Sub, Account>

  predicate LinkedTo(social: SocialTable, sub: Sub, userId: Id) {
    sub in social && social[sub].userId == userId
  }

  function OwnedBy(userId: Id): Account -> bool {
    (a: Account) => a.userId == userId
  }

  class SocialAccountRepository {
    var byKey: SocialTable

    constructor ()
      ensures byKey == map[]
    {
      byKey := map[];
    }

    method FindByProviderAccount(sub: Sub) returns (userId: Option<Id>)
      ensures userId == if sub in byKey then Some(byKey[sub].userId) else None
    {
      userId := if sub in byKey then Some(byKey[sub].userId) else None;
    }

    /** A plain insert: the unique key claims the Google account against a concurrent bind. */
    method Link(id: Id, userId: Id, sub: Sub) returns (ok: bool)
      modifies this
      ensures ok == (sub !in old(byKey) && forall s :: s in old(byKey) ==> old(byKey)[s].id != id)
      ensures byKey == if ok then old(byKey)[sub := Account(id, userId)] else old(byKey)
    {
      var sameId := FindWhere(byKey, (a: Account) => a.id == id);
      ok := sub !in byKey && sameId.None?;
      if ok {
        byKey := byKey[sub := Account(id, userId)];
      }
    }

    method DeleteAllForUser(userId: Id) returns (n: nat)
      modifies this
      ensures byKey == Without(old(byKey), OwnedBy(userId))
      ensures byKey == map k | k in old(byKey) && old(byKey)[k].userId != userId :: old(byKey)[k]
      ensures n == |Picked(old(byKey), OwnedBy(userId))| == |old(byKey)| - |byKey|
    {
      byKey, n := DeleteWhere(byKey, OwnedBy(userId));
    }
  }
}
