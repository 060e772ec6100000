/** The users table and its repository. */
module Users {
  import opened Base
  import opened Tables

  datatype User = User(
    email: Option<Address>,
    username: Option<nat>,
    passwordHash: Option<Digest>,
    emailVerified: bool,
    deletedAt: Option<Time>)

  type UserTable = map<Id, User>

  /** The empty string, which JavaScript's `!user.email` takes for no address. */
  const EMPTY_ADDRESS := Address(0, 0)

  predicate HasAddress(user: User) {
    user.email.Some? && user.email.value != EMPTY_ADDRESS
  }

  /** The fields a patch sets; None leaves the field alone. */
  datatype Patch = Patch(email: Option<Address>, passwordHash: Option<Digest>, emailVerified: Option<bool>)

  predicate Live(users: UserTable, id: Id) {
    id in users && users[id].deletedAt.None?
  }

  /** Some row holds the address, deleted or not. */
  predicate Taken(users: UserTable, address: Address) {
    exists id :: id in users && CiEquals(users[id].email, Some(address))
  }

  predicate TakenByOther(users: UserTable, id: Id, address: Address) {
    exists other :: other in users && other != id && CiEquals(users[other].email, Some(address))
  }

  /** users.email is UNIQUE under the collation, soft-deleted rows included. */
  predicate UniqueEmails(users: UserTable) {
    forall i, j {:trigger users[i].email, users[j].email} ::
      i in users && j in users && CiEquals(users[i].email, users[j].email) ==> i == j
  }

  predicate UsernameClash(users: UserTable, username: Option<nat>) {
    username.Some? && exists id :: id in users && users[id].username == username
  }

  function Patched(user: User, patch: Patch): User {
    user.(
      email := if patch.email.Some? then patch.email else user.email,
      passwordHash := if patch.passwordHash.Some? then patch.passwordHash else user.passwordHash,
      emailVerified := patch.emailVerified.GetOr(user.emailVerified))
  }

  datatype Update = Updated | Missing | DuplicateEmail

  function UpdateResult(users: UserTable, id: Id, patch: Patch): Update {
    if id !in users then Missing
    else if patch.email.Some? && TakenByOther(users, id, patch.email.value) then DuplicateEmail
    else Updated
  }

  function AfterUpdate(users: UserTable, id: Id, patch: Patch): UserTable {
    if UpdateResult(users, id, patch).Updated? then users[id := Patched(users[id], patch)] else users
  }

  /** Every statement that writes the table. */
  datatype Write =
    | Insert(id: Id, user: User)
    | Change(id: Id, patch: Patch)
    | Marking(id: Id, email: Address)
    | SoftDeletion(id: Id, now: Time)
    | Deletion(id: Id)

  /** What the database makes of it; a write its keys or its condition refuse does nothing. */
  function Written(users: UserTable, write: Write): UserTable {
    match write
    case Insert(id, user) =>
      if id in users || (user.email.Some? && Taken(users, user.email.value)) || UsernameClash(users, user.username)
      then users else users[id := user]
    case Change(id, patch) => AfterUpdate(users, id, patch)
    case Marking(id, email) =>
      if id in users && CiEquals(users[id].email, Some(email)) then users[id := users[id].(emailVerified := true)]
      else users
    case SoftDeletion(id, now) => if Live(users, id) then users[id := users[id].(deletedAt := Some(now))] else users
    case Deletion(id) => users - {id}
  }

  function AllWritten(users: UserTable, writes: seq<Write>): UserTable
    decreases writes
  {
    if writes == [] then users else AllWritten(Written(users, writes[0]), writes[1..])
  }

  lemma WriteKeepsUnique(users: UserTable, write: Write)
    requires UniqueEmails(users)
    ensures UniqueEmails(Written(users, write))
  {
  }

  /** Whatever calls interleave, and whatever they checked before, their writes keep addresses unique. */
  lemma {:induction false} AnyWritesKeepUnique(users: UserTable, writes: seq<Write>)
    requires UniqueEmails(users)
    ensures UniqueEmails(AllWritten(users, writes))
    decreases writes
  {
    if writes != [] {
      WriteKeepsUnique(users, writes[0]);
      AnyWritesKeepUnique(Written(users, writes[0]), writes[1..]);
    }
  }

  function DeletedBefore(cutoff: int): User -> bool {
    (u: User) => u.deletedAt.Some? && u.deletedAt.value < cutoff
  }

  class UserRepository {
    var byId: UserTable
    var roles: map<Id, set<nat>>

    constructor ()
      ensures byId == map[] && roles == map[]
    {
      byId, roles := map[], map[];
    }

    /** Refuses what the database would: a repeated id, address or username. */
    method Create(id: Id, user: User) returns (ok: bool)
      modifies this
      ensures ok == (&& id !in old(byId)
                     && !(user.email.Some? && Taken(old(byId), user.email.value))
                     && !UsernameClash(old(byId), user.username))
      ensures byId == (if ok then old(byId)[id := user] else old(byId)) && roles == old(roles)
      ensures byId == Written(old(byId), Insert(id, user))
    {
      var sameEmail := FindWhere(byId, (u: User) => CiEquals(u.email, user.email));
      var sameName := FindWhere(byId, (u: User) => user.username.Some? && u.username == user.username);
      ok := id !in byId && sameEmail.None? && sameName.None?;
      if ok {
        byId := byId[id := user];
      }
    }

    method FindById(id: Id) returns (found: Option<User>)
      ensures found == if Live(byId, id) then Some(byId[id]) else None
    {
      found := if id in byId && byId[id].deletedAt.None? then Some(byId[id]) else None;
    }

    /** Hides soft-deleted rows. */
    method FindByEmail(email: Address) returns (found: Option<Id>)
      ensures found.Some? ==> Live(byId, found.value) && CiEquals(byId[found.value].email, Some(email))
      ensures found.None? ==> forall id :: Live(byId, id) ==> !CiEquals(byId[id].email, Some(email))
    {
      found := FindWhere(byId, (u: User) => CiEquals(u.email, Some(email)) && u.deletedAt.None?);
    }

    /** Unfiltered: a soft-deleted row still occupies its address. */
    method FindAnyByEmail(email: Address) returns (found: Option<Id>)
      ensures found.Some? ==> found.value in byId && CiEquals(byId[found.value].email, Some(email))
      ensures found.None? <==> !Taken(byId, email)
    {
      found := FindWhere(byId, (u: User) => CiEquals(u.email, Some(email)));
    }

    method Update(id: Id, patch: Patch) returns (r: Update)
      modifies this
      ensures r == UpdateResult(old(byId), id, patch) && byId == AfterUpdate(old(byId), id, patch)
      ensures roles == old(roles) && byId == Written(old(byId), Change(id, patch))
    {
      if id !in byId {
        return Missing;
      }
      if patch.email.Some? {
        var todo := byId.Keys;
        while todo != {}
          invariant todo <= byId.Keys && byId == old(byId) && roles == old(roles)
          invariant forall k :: k in byId && k !in todo && k != id ==> !CiEquals(byId[k].email, patch.email)
          decreases todo
        {
          var other :| other in todo;
          todo := todo - {other};
          if other != id && CiEquals(byId[other].email, patch.email) {
            return DuplicateEmail;
          }
        }
      }
      byId := byId[id := Patched(byId[id], patch)];
      return Updated;
    }

    /** Compare-and-set: only while the row still holds the address. */
    method MarkEmailVerified(id: Id, email: Address) returns (marked: bool)
      modifies this
      ensures marked == (id in old(byId) && CiEquals(old(byId)[id].email, Some(email)))
      ensures byId == if marked then old(byId)[id := old(byId)[id].(emailVerified := true)] else old(byId)
      ensures roles == old(roles) && byId == Written(old(byId), Marking(id, email))
    {
      if id !in byId || !CiEquals(byId[id].email, Some(email)) {
        return false;
      }
      byId := byId[id := byId[id].(emailVerified := true)];
      return true;
    }

    method SoftDelete(id: Id, now: Time) returns (ok: bool)
      modifies this
      ensures ok == Live(old(byId), id) && roles == old(roles)
      ensures byId == if ok then old(byId)[id := old(byId)[id].(deletedAt := Some(now))] else old(byId)
      ensures byId == Written(old(byId), SoftDeletion(id, now))
    {
      if id !in byId || byId[id].deletedAt.Some? {
        return false;
      }
      byId := byId[id := byId[id].(deletedAt := Some(now))];
      return true;
    }

    method FindDeletedBefore(cutoff: int) returns (ids: set<Id>)
      ensures ids == Picked(byId, DeletedBefore(cutoff))
      ensures ids == set k | k in byId && byId[k].deletedAt.Some? && byId[k].deletedAt.value < cutoff
    {
      ids := {};
      var todo := byId.Keys;
      while todo != {}
        invariant todo <= byId.Keys
        invariant forall k :: k in ids <==> k in byId && k !in todo && DeletedBefore(cutoff)(byId[k])
        decreases todo
      {
        var k :| k in todo;
        todo := todo - {k};
        if byId[k].deletedAt.Some? && byId[k].deletedAt.value < cutoff {
          ids := ids + {k};
        }
      }
    }

    method Delete(id: Id) returns (ok: bool)
      modifies this
      ensures ok == (id in old(byId)) && byId == old(byId) - {id} && roles == old(roles)
      ensures byId == Written(old(byId), Deletion(id))
    {
      ok := id in byId;
      byId := byId - {id};
    }

    method RemoveAllRoles(id: Id) returns (n: nat)
      modifies this
      ensures n == (if id in old(roles) then |old(roles)[id]| else 0)
      ensures roles == old(roles) - {id} && byId == old(byId)
    {
      n := if id in roles then |roles[id]| else 0;
      roles := roles - {id};
    }
  }
}
