/** The memberships table of the org repository. */
module Orgs {
  import opened Base

  datatype Member = Member(userId: Id, orgId: Id)

  function NotMemberships(members: set<Member>, userId: Id): set<Member> {
    set m | m in members && m.userId != userId
  }

  class OrgRepository {
    var members: set<Member>

    constructor ()
      ensures members == {}
    {
      members := {};
    }

    /** Idempotent: the pair is the key. */
    method AddMember(userId: Id, orgId: Id)
      modifies this
      ensures members == old(members) + {Member(userId, orgId)}
    {
      members := members + {Member(userId, orgId)};
    }

    method RemoveAllMemberships(userId: Id) returns (n: nat)
      modifies this
      ensures members == NotMemberships(old(members), userId)
      ensures forall m :: m in members <==> m in old(members) && m.userId != userId
      ensures n == |old(members)| - |members|
    {
      n := 0;
      var todo := members;
      while todo != {}
        invariant todo <= old(members)
        invariant members == set m | m in old(members) && (m in todo || m.userId != userId)
        invariant n == |old(members)| - |members|
        decreases todo
      {
        var m :| m in todo;
        todo := todo - {m};
        if m.userId == userId {
          members := members - {m};
          n := n + 1;
        }
      }
    }
  }
}
