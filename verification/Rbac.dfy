/**
  Roles and permissions per service: what the grants, assignments and revokes leave in
  force, and the permission lookups of the two repositories.
 */
module Rbac {

  /** Row ids are UUIDs: hexadecimal digits and dashes. */
  type Uuid = s: string | ':' !in s witness ""

  datatype Role = Role(serviceId: Uuid, name: string)

  datatype Permission = Permission(serviceId: Uuid, key: string)

  datatype Grant = Grant(roleId: Uuid, permissionId: Uuid)

  /** A user or a client holding a role. */
  datatype Holding = Holding(subject: Uuid, roleId: Uuid)

  /** The relations in force. */
  datatype Access = Access(
    roles: map<Uuid, Role>,
    perms: map<Uuid, Permission>,
    grants: set<Grant>,
    userRoles: set<Holding>,
    clientRoles: set<Holding>)

  /** The key is reachable when a role of the service that the subject holds grants a permission with it. */
  predicate Reaches(a: Access, held: set<Holding>, subject: Uuid, serviceId: Uuid, key: string) {
    exists roleId, permissionId ::
      && Holding(subject, roleId) in held && roleId in a.roles && a.roles[roleId].serviceId == serviceId
      && Grant(roleId, permissionId) in a.grants && permissionId in a.perms && a.perms[permissionId].key == key
  }

  predicate Distinct(keys: seq<string>) {
    forall i, j :: 0 <= i < j < |keys| ==> keys[i] != keys[j]
  }

  /** What a lookup must return: the reachable keys, each once. */
  ghost predicate Answers(keys: seq<string>, a: Access, held: set<Holding>, subject: Uuid, serviceId: Uuid) {
    Distinct(keys) && forall key :: key in keys <==> Reaches(a, held, subject, serviceId, key)
  }

  // ----- changes

  datatype Change =
    | GrantPermission(grant: Grant)
    | RevokePermission(grant: Grant)
    | AssignUser(holding: Holding)
    | RemoveUser(holding: Holding)
    | AssignClient(holding: Holding)
    | RemoveClient(holding: Holding)

  function After(a: Access, change: Change): Access {
    match change
    case GrantPermission(grant) => a.(grants := a.grants + {grant})
    case RevokePermission(grant) => a.(grants := a.grants - {grant})
    case AssignUser(holding) => a.(userRoles := a.userRoles + {holding})
    case RemoveUser(holding) => a.(userRoles := a.userRoles - {holding})
    case AssignClient(holding) => a.(clientRoles := a.clientRoles + {holding})
    case RemoveClient(holding) => a.(clientRoles := a.clientRoles - {holding})
  }

  function AfterAll(a: Access, changes: seq<Change>): Access
    decreases changes
  {
    if changes == [] then a else After(AfterAll(a, changes[..|changes| - 1]), changes[|changes| - 1])
  }

  /** Change i switches the relation on and no later change switches it off. */
  predicate LastOn(changes: seq<Change>, i: int, on: Change, off: Change) {
    0 <= i < |changes| && changes[i] == on && forall j :: i < j < |changes| ==> changes[j] != off
  }

  predicate Touched(changes: seq<Change>, on: Change, off: Change) {
    exists i :: 0 <= i < |changes| && (changes[i] == on || changes[i] == off)
  }

  /** The last change to a relation decides; one nobody touched stays as it was. */
  ghost predicate InForce(before: bool, changes: seq<Change>, on: Change, off: Change) {
    if Touched(changes, on, off) then exists i :: LastOn(changes, i, on, off) else before
  }

  lemma InForceStep(before: bool, changes: seq<Change>, last: Change, on: Change, off: Change)
    requires on != off
    ensures InForce(before, changes + [last], on, off) <==>
            last == on || (last != off && InForce(before, changes, on, off))
  {
    var all := changes + [last];
    assert all[|changes|] == last && forall i :: 0 <= i < |changes| ==> all[i] == changes[i];
    if last == on {
      assert LastOn(all, |changes|, on, off);
    } else if last == off {
      assert Touched(all, on, off);
      assert forall i :: !LastOn(all, i, on, off);
    } else {
      assert forall i :: LastOn(all, i, on, off) <==> LastOn(changes, i, on, off);
      assert Touched(all, on, off) <==> Touched(changes, on, off) by {
        if Touched(changes, on, off) {
          var i :| 0 <= i < |changes| && (changes[i] == on || changes[i] == off);
          assert all[i] == changes[i];
        }
      }
    }
  }

  /** After any changes, exactly the grants and assignments whose last change was not a revoke are in force. */
  lemma {:induction false} LastChangeDecides(a: Access, changes: seq<Change>, grant: Grant, holding: Holding)
    ensures var b := AfterAll(a, changes);
            && b.roles == a.roles && b.perms == a.perms
            && (grant in b.grants <==>
                  InForce(grant in a.grants, changes, GrantPermission(grant), RevokePermission(grant)))
            && (holding in b.userRoles <==>
                  InForce(holding in a.userRoles, changes, AssignUser(holding), RemoveUser(holding)))
            && (holding in b.clientRoles <==>
                  InForce(holding in a.clientRoles, changes, AssignClient(holding), RemoveClient(holding)))
    decreases changes
  {
    if changes != [] {
      var init, last := changes[..|changes| - 1], changes[|changes| - 1];
      LastChangeDecides(a, init, grant, holding);
      assert changes == init + [last];
      InForceStep(grant in a.grants, init, last, GrantPermission(grant), RevokePermission(grant));
      InForceStep(holding in a.userRoles, init, last, AssignUser(holding), RemoveUser(holding));
      InForceStep(holding in a.clientRoles, init, last, AssignClient(holding), RemoveClient(holding));
    }
  }

  // ----- the in-memory repository

  /** `${roleId}:${permissionId}`, the composite primary key. */
  function CompositeKey(roleId: Uuid, permissionId: Uuid): string {
    roleId + ":" + permissionId
  }

  lemma FirstColon(r: Uuid, p: Uuid)
    ensures var key := CompositeKey(r, p);
            && key[|r|] == ':' && (forall j :: 0 <= j < |r| ==> key[j] != ':')
            && key[..|r|] == r && key[|r| + 1..] == p
  {
  }

  /** No two grants share a composite key. */
  lemma CompositeKeyIsInjective(r: Uuid, p: Uuid, s: Uuid, q: Uuid)
    ensures CompositeKey(r, p) == CompositeKey(s, q) <==> r == s && p == q
  {
    FirstColon(r, p);
    FirstColon(s, q);
  }

  function HeldRoles(table: map<Uuid, set<Uuid>>, subject: Uuid): set<Uuid> {
    if subject in table then table[subject] else {}
  }

  class RbacRepository {
    var roles: map<Uuid, Role>
    var perms: map<Uuid, Permission>
    var rolePerms: set<string>
    var userRoleIds: map<Uuid, set<Uuid>>
    var clientRoleIds: map<Uuid, set<Uuid>>
    const fold: string -> string // two names collate as equal when they fold to the same

    constructor (fold: string -> string)
      ensures roles == map[] && perms == map[] && rolePerms == {} && userRoleIds == map[] && clientRoleIds == map[]
      ensures this.fold == fold
    {
      roles, perms, rolePerms, userRoleIds, clientRoleIds := map[], map[], {}, map[], map[];
      this.fold := fold;
    }

    /** The relations the maps and sets stand for. */
    ghost predicate Shows(a: Access)
      reads this
    {
      && a.roles == roles && a.perms == perms
      && (forall g: Grant :: g in a.grants <==> CompositeKey(g.roleId, g.permissionId) in rolePerms)
      && (forall h: Holding :: h in a.userRoles <==> h.roleId in HeldRoles(userRoleIds, h.subject))
      && (forall h: Holding :: h in a.clientRoles <==> h.roleId in HeldRoles(clientRoleIds, h.subject))
    }

    /** Role names are unique within a service only. */
    method CreateRole(id: Uuid, role: Role) returns (ok: bool)
      modifies this
      ensures ok == (id !in old(roles) && forall r :: r in old(roles) ==>
                       !(old(roles)[r].serviceId == role.serviceId && fold(old(roles)[r].name) == fold(role.name)))
      ensures roles == (if ok then old(roles)[id := role] else old(roles))
      ensures perms == old(perms) && rolePerms == old(rolePerms)
      ensures userRoleIds == old(userRoleIds) && clientRoleIds == old(clientRoleIds)
    {
      var todo := roles.Keys;
      while todo != {}
        invariant todo <= roles.Keys && unchanged(this)
        invariant forall r :: r in roles && r !in todo ==>
                    r != id && !(roles[r].serviceId == role.serviceId && fold(roles[r].name) == fold(role.name))
        decreases todo
      {
        var r :| r in todo;
        todo := todo - {r};
        if r == id || (roles[r].serviceId == role.serviceId && fold(roles[r].name) == fold(role.name)) {
          return false;
        }
      }
      roles := roles[id := role];
      return true;
    }

    method CreatePermission(id: Uuid, permission: Permission) returns (ok: bool)
      modifies this
      ensures ok == (id !in old(perms) && forall p :: p in old(perms) ==>
                       !(old(perms)[p].serviceId == permission.serviceId
                         && fold(old(perms)[p].key) == fold(permission.key)))
      ensures perms == (if ok then old(perms)[id := permission] else old(perms))
      ensures roles == old(roles) && rolePerms == old(rolePerms)
      ensures userRoleIds == old(userRoleIds) && clientRoleIds == old(clientRoleIds)
    {
      var todo := perms.Keys;
      while todo != {}
        invariant todo <= perms.Keys && unchanged(this)
        invariant forall p :: p in perms && p !in todo ==>
                    p != id
                    && !(perms[p].serviceId == permission.serviceId && fold(perms[p].key) == fold(permission.key))
        decreases todo
      {
        var p :| p in todo;
        todo := todo - {p};
        if p == id || (perms[p].serviceId == permission.serviceId && fold(perms[p].key) == fold(permission.key)) {
          return false;
        }
      }
      perms := perms[id := permission];
      return true;
    }

    /** A repeat is a no-op. */
    method GrantPermissionToRole(roleId: Uuid, permissionId: Uuid, ghost a: Access)
      requires Shows(a)
      modifies this
      ensures Shows(After(a, GrantPermission(Grant(roleId, permissionId))))
    {
      Injective(roleId, permissionId);
      rolePerms := rolePerms + {CompositeKey(roleId, permissionId)};
    }

    method RevokePermissionFromRole(roleId: Uuid, permissionId: Uuid, ghost a: Access)
      requires Shows(a)
      modifies this
      ensures Shows(After(a, RevokePermission(Grant(roleId, permissionId))))
    {
      Injective(roleId, permissionId);
      rolePerms := rolePerms - {CompositeKey(roleId, permissionId)};
    }

    method AssignRoleToUser(userId: Uuid, roleId: Uuid, ghost a: Access)
      requires Shows(a)
      modifies this
      ensures Shows(After(a, AssignUser(Holding(userId, roleId))))
    {
      userRoleIds := userRoleIds[userId := HeldRoles(userRoleIds, userId) + {roleId}];
    }

    method RemoveRoleFromUser(userId: Uuid, roleId: Uuid, ghost a: Access)
      requires Shows(a)
      modifies this
      ensures Shows(After(a, RemoveUser(Holding(userId, roleId))))
    {
      if userId in userRoleIds {
        userRoleIds := userRoleIds[userId := userRoleIds[userId] - {roleId}];
      }
    }

    method AssignRoleToClient(clientId: Uuid, roleId: Uuid, ghost a: Access)
      requires Shows(a)
      modifies this
      ensures Shows(After(a, AssignClient(Holding(clientId, roleId))))
    {
      clientRoleIds := clientRoleIds[clientId := HeldRoles(clientRoleIds, clientId) + {roleId}];
    }

    method RemoveRoleFromClient(clientId: Uuid, roleId: Uuid, ghost a: Access)
      requires Shows(a)
      modifies this
      ensures Shows(After(a, RemoveClient(Holding(clientId, roleId))))
    {
      if clientId in clientRoleIds {
        clientRoleIds := clientRoleIds[clientId := clientRoleIds[clientId] - {roleId}];
      }
    }

    static lemma Injective(roleId: Uuid, permissionId: Uuid)
      ensures forall g: Grant :: CompositeKey(g.roleId, g.permissionId) == CompositeKey(roleId, permissionId) ==>
                g == Grant(roleId, permissionId)
    {
      forall g: Grant | CompositeKey(g.roleId, g.permissionId) == CompositeKey(roleId, permissionId)
        ensures g == Grant(roleId, permissionId)
      {
        CompositeKeyIsInjective(g.roleId, g.permissionId, roleId, permissionId);
      }
    }

    /** The keys one role grants, added to those found so far. */
    method KeysOfRole(roleId: Uuid, found: seq<string>) returns (keys: seq<string>)
      requires Distinct(found)
      ensures Distinct(keys)
      ensures forall key :: key in keys <==>
                key in found || exists p :: p in perms && CompositeKey(roleId, p) in rolePerms && perms[p].key == key
    {
      keys := found;
      var todo := perms.Keys;
      while todo != {}
        invariant todo <= perms.Keys && Distinct(keys)
        invariant forall key :: key in keys <==>
                    key in found || exists p ::
                      p in perms && p !in todo && CompositeKey(roleId, p) in rolePerms && perms[p].key == key
        decreases todo
      {
        var p :| p in todo;
        todo := todo - {p};
        if CompositeKey(roleId, p) in rolePerms && perms[p].key !in keys {
          keys := keys + [perms[p].key];
        }
      }
    }

    /** The nested loops over the held roles and the permissions. */
    method KeysInService(held: set<Uuid>, serviceId: Uuid) returns (keys: seq<string>)
      ensures Distinct(keys)
      ensures forall key :: key in keys <==>
                exists r, p :: r in held && r in roles && roles[r].serviceId == serviceId
                               && p in perms && CompositeKey(r, p) in rolePerms && perms[p].key == key
    {
      keys := [];
      var todo := held;
      while todo != {}
        invariant todo <= held && Distinct(keys)
        invariant forall key :: key in keys <==>
                    exists r, p :: r in held && r !in todo && r in roles && roles[r].serviceId == serviceId
                                   && p in perms && CompositeKey(r, p) in rolePerms && perms[p].key == key
        decreases todo
      {
        var roleId :| roleId in todo;
        todo := todo - {roleId};
        if roleId !in roles || roles[roleId].serviceId != serviceId {
          continue;
        }
        keys := KeysOfRole(roleId, keys);
      }
    }

    method PermissionsForUserInService(userId: Uuid, serviceId: Uuid, ghost a: Access) returns (keys: seq<string>)
      requires Shows(a)
      ensures Answers(keys, a, a.userRoles, userId, serviceId)
    {
      keys := KeysInService(HeldRoles(userRoleIds, userId), serviceId);
      forall key ensures key in keys <==> Reaches(a, a.userRoles, userId, serviceId, key) {
        Translated(a, a.userRoles, userId, serviceId, key, HeldRoles(userRoleIds, userId));
      }
    }

    method PermissionsForClientInService(clientId: Uuid, serviceId: Uuid, ghost a: Access) returns (keys: seq<string>)
      requires Shows(a)
      ensures Answers(keys, a, a.clientRoles, clientId, serviceId)
    {
      keys := KeysInService(HeldRoles(clientRoleIds, clientId), serviceId);
      forall key ensures key in keys <==> Reaches(a, a.clientRoles, clientId, serviceId, key) {
        Translated(a, a.clientRoles, clientId, serviceId, key, HeldRoles(clientRoleIds, clientId));
      }
    }

    lemma Translated(a: Access, held: set<Holding>, subject: Uuid, serviceId: Uuid, key: string, roleIds: set<Uuid>)
      requires Shows(a) && forall r: Uuid :: r in roleIds <==> Holding(subject, r) in held
      ensures Reaches(a, held, subject, serviceId, key) <==>
              exists r, p :: r in roleIds && r in roles && roles[r].serviceId == serviceId
                             && p in perms && CompositeKey(r, p) in rolePerms && perms[p].key == key
    {
    }
  }

  // ----- the two-query form

  /** First query: the ids of the service's roles among the subject's. */
  function RoleRows(held: seq<Holding>, roles: map<Uuid, Role>, subject: Uuid, serviceId: Uuid): (ids: seq<Uuid>)
    ensures forall r :: r in ids <==>
              Holding(subject, r) in held && r in roles && roles[r].serviceId == serviceId
  {
    if held == [] then []
    else
      var h := held[0];
      (if h.subject == subject && h.roleId in roles && roles[h.roleId].serviceId == serviceId then [h.roleId] else [])
      + RoleRows(held[1..], roles, subject, serviceId)
  }

  /** Second query: the keys of the permissions any of the roles is granted, duplicates and all. */
  function KeyRows(grants: seq<Grant>, perms: map<Uuid, Permission>, roleIds: seq<Uuid>): (keys: seq<string>)
    ensures forall key :: key in keys <==>
              exists g ::
                g in grants && g.roleId in roleIds && g.permissionId in perms && perms[g.permissionId].key == key
  {
    if grants == [] then []
    else
      var g := grants[0];
      var rest := KeyRows(grants[1..], perms, roleIds);
      if g.roleId in roleIds && g.permissionId in perms then [perms[g.permissionId].key] + rest else rest
  }

  /** [...new Set(keys)]. */
  function Deduplicated(keys: seq<string>): (r: seq<string>)
    ensures Distinct(r) && forall key :: key in r <==> key in keys
  {
    if keys == [] then []
    else
      var init := Deduplicated(keys[..|keys| - 1]);
      if keys[|keys| - 1] in init then init else init + [keys[|keys| - 1]]
  }

  function TwoQueries(a: Access, grants: seq<Grant>, held: seq<Holding>, subject: Uuid, serviceId: Uuid): seq<string> {
    var roleIds := RoleRows(held, a.roles, subject, serviceId);
    if roleIds == [] then [] else Deduplicated(KeyRows(grants, a.perms, roleIds))
  }

  /** Whatever order the rows come in, the joins compute the reachable keys, each once. */
  lemma TwoQueriesAnswer(a: Access, grants: seq<Grant>, held: seq<Holding>, rows: set<Holding>, subject: Uuid,
                         serviceId: Uuid)
    requires (forall g :: g in grants <==> g in a.grants) && (forall h :: h in held <==> h in rows)
    ensures Answers(TwoQueries(a, grants, held, subject, serviceId), a, rows, subject, serviceId)
  {
  }

  /** The two repositories agree on the set of keys, so the issued scope does not depend on which is used. */
  lemma LookupsAgree(a: Access, held: set<Holding>, subject: Uuid, serviceId: Uuid, one: seq<string>,
                     other: seq<string>)
    requires Answers(one, a, held, subject, serviceId) && Answers(other, a, held, subject, serviceId)
    ensures multiset(one) == multiset(other)
  {
    forall key ensures multiset(one)[key] == multiset(other)[key] {
      OnceEach(one, key);
      OnceEach(other, key);
    }
  }

  lemma {:induction false} OnceEach(keys: seq<string>, key: string)
    requires Distinct(keys)
    ensures multiset(keys)[key] == if key in keys then 1 else 0
  {
    if keys != [] {
      var init, last := keys[..|keys| - 1], keys[|keys| - 1];
      assert keys == init + [last];
      OnceEach(init, key);
    }
  }
}
