/**
  Erasing accounts: nine satellite deletions per account, in any order, and then the row
  itself. The job may stop anywhere and be started again.
 */
module Erasure {
  import opened Base
  import opened Tables
  import opened Rows
  import opened Users
  import opened Orgs
  import opened Owners
  import RefreshTokens
  import Sessions
  import AuthCodes
  import Links
  import SocialAccounts
  import TotpTable
  import Passkeys

  /** The tables that hold rows of an account. */
  datatype Store = Store(
    users: UserTable,
    tokens: RefreshTokens.TokenTable,
    sessions: Sessions.SessionTable,
    codes: AuthCodes.CodeTable,
    links: Links.LinkTable,
    social: SocialAccounts.SocialTable,
    roles: map<Id, set<nat>>,
    members: set<Member>,
    totp: map<Id, TotpTable.TotpRecord>,
    recovery: seq<TotpTable.RecoveryRow>,
    passkeys: seq<Passkeys.Passkey>,
    challenges: seq<Passkeys.Challenge>)

  /** One constructor for each DELETE statement: the nine calls, two of which take two statements. */
  datatype Satellite =
    | Tokens | Sessions | Codes | Links | Social | Roles | Memberships
    | RecoveryCodes | TotpRows
    | PasskeyRows | Challenges

  const ALL :=
    {Tokens, Satellite.Sessions, Codes, Satellite.Links, Social, Roles, Memberships,
     RecoveryCodes, TotpRows, PasskeyRows, Challenges}

  /** The seven calls that take one statement, in the order the service starts them. */
  const SINGLES := [Tokens, Satellite.Sessions, Codes, Satellite.Links, Social, Roles, Memberships]

  /** One deletion, as the repository that owns the table performs it. */
  function Cleared(s: Store, which: Satellite, id: Id): Store {
    match which
    case Tokens => s.(tokens := Without(s.tokens, RefreshTokens.OwnedBy(id)))
    case Sessions => s.(sessions := Without(s.sessions, Sessions.OwnedBy(id)))
    case Codes => s.(codes := Without(s.codes, AuthCodes.OwnedBy(id)))
    case Links => s.(links := Without(s.links, Links.OwnedBy(id)))
    case Social => s.(social := Without(s.social, SocialAccounts.OwnedBy(id)))
    case Roles => s.(roles := s.roles - {id})
    case Memberships => s.(members := NotMemberships(s.members, id))
    case RecoveryCodes => s.(recovery := Kept(s.recovery, TotpTable.NotOwnedBy(id)))
    case TotpRows => s.(totp := s.totp - {id})
    case PasskeyRows => s.(passkeys := Kept(s.passkeys, Passkeys.NotOwnedBy(id)))
    case Challenges => s.(challenges := Kept(s.challenges, Passkeys.NotFor(id)))
  }

  function ClearedEach(s: Store, order: seq<Satellite>, id: Id): Store
    decreases order
  {
    if order == [] then s else ClearedEach(Cleared(s, order[0], id), order[1..], id)
  }

  predicate Complete(order: seq<Satellite>) {
    forall which :: which in ALL ==> which in order
  }

  /** Satellites first, then the row. */
  function Purged(s: Store, order: seq<Satellite>, id: Id): Store {
    var t := ClearedEach(s, order, id);
    t.(users := t.users - {id})
  }

  // ----- what erasing a set of accounts means

  function TokenOwner(t: RefreshTokens.Token): Option<Id> { Some(t.userId) }
  function SessionOwner(t: Sessions.Session): Option<Id> { Some(t.userId) }
  function CodeOwner(c: AuthCodes.Code): Option<Id> { Some(c.userId) }
  function LinkOwner(l: Links.Link): Option<Id> { Some(l.userId) }
  function AccountOwner(a: SocialAccounts.Account): Option<Id> { Some(a.userId) }
  function RecoveryOwner(r: TotpTable.RecoveryRow): Option<Id> { Some(r.userId) }
  function PasskeyOwner(p: Passkeys.Passkey): Option<Id> { Some(p.userId) }
  function ChallengeOwner(c: Passkeys.Challenge): Option<Id> { c.userId }

  function DropMembersIf(drop: bool, members: set<Member>, ids: set<Id>): set<Member> {
    if drop then set m | m in members && m.userId !in ids else members
  }

  /** The store without the accounts' rows in some of the satellites. */
  function Part(s: Store, which: set<Satellite>, ids: set<Id>): Store {
    s.(tokens := DropIf(Tokens in which, s.tokens, TokenOwner, ids),
       sessions := DropIf(Satellite.Sessions in which, s.sessions, SessionOwner, ids),
       codes := DropIf(Codes in which, s.codes, CodeOwner, ids),
       links := DropIf(Satellite.Links in which, s.links, LinkOwner, ids),
       social := DropIf(Social in which, s.social, AccountOwner, ids),
       roles := DropKeysIf(Roles in which, s.roles, ids),
       members := DropMembersIf(Memberships in which, s.members, ids),
       totp := DropKeysIf(TotpRows in which, s.totp, ids),
       recovery := DropRowsIf(RecoveryCodes in which, s.recovery, RecoveryOwner, ids),
       passkeys := DropRowsIf(PasskeyRows in which, s.passkeys, PasskeyOwner, ids),
       challenges := DropRowsIf(Challenges in which, s.challenges, ChallengeOwner, ids))
  }

  function Erased(s: Store, ids: set<Id>): Store {
    Part(s, ALL, ids).(users := s.users - ids)
  }

  /** Every satellite row's account still has its user row. */
  ghost predicate NoOrphans(s: Store) {
    var ids := s.users.Keys;
    && AllOwned(s.tokens, TokenOwner, ids) && AllOwned(s.sessions, SessionOwner, ids)
    && AllOwned(s.codes, CodeOwner, ids) && AllOwned(s.links, LinkOwner, ids)
    && AllOwned(s.social, AccountOwner, ids) && s.roles.Keys <= ids
    && (forall m :: m in s.members ==> m.userId in ids) && s.totp.Keys <= ids
    && AllRowsOwned(s.recovery, RecoveryOwner, ids) && AllRowsOwned(s.passkeys, PasskeyOwner, ids)
    && AllRowsOwned(s.challenges, ChallengeOwner, ids)
  }

  /** One account's rows. */
  function Theirs(s: Store, id: Id): Store {
    Store(map k | k in s.users && k == id :: s.users[k],
          Mine(s.tokens, TokenOwner, id), Mine(s.sessions, SessionOwner, id), Mine(s.codes, CodeOwner, id),
          Mine(s.links, LinkOwner, id), Mine(s.social, AccountOwner, id),
          map k | k in s.roles && k == id :: s.roles[k],
          set m | m in s.members && m.userId == id,
          map k | k in s.totp && k == id :: s.totp[k],
          MyRows(s.recovery, RecoveryOwner, id), MyRows(s.passkeys, PasskeyOwner, id),
          MyRows(s.challenges, ChallengeOwner, id))
  }

  // ----- one deletion

  lemma RecoveryCleared(rows: seq<TotpTable.RecoveryRow>, id: Id)
    ensures Kept(rows, TotpTable.NotOwnedBy(id)) == DropRows(rows, RecoveryOwner, {id})
  {
    forall r | r in rows ensures TotpTable.NotOwnedBy(id)(r) == Stays(RecoveryOwner, {id})(r) {
      assert RecoveryOwner(r) == Some(r.userId);
    }
    KeptSame(rows, TotpTable.NotOwnedBy(id), Stays(RecoveryOwner, {id}));
  }

  lemma PasskeysCleared(rows: seq<Passkeys.Passkey>, id: Id)
    ensures Kept(rows, Passkeys.NotOwnedBy(id)) == DropRows(rows, PasskeyOwner, {id})
  {
    forall p | p in rows ensures Passkeys.NotOwnedBy(id)(p) == Stays(PasskeyOwner, {id})(p) {
      assert PasskeyOwner(p) == Some(p.userId);
    }
    KeptSame(rows, Passkeys.NotOwnedBy(id), Stays(PasskeyOwner, {id}));
  }

  lemma ChallengesCleared(rows: seq<Passkeys.Challenge>, id: Id)
    ensures Kept(rows, Passkeys.NotFor(id)) == DropRows(rows, ChallengeOwner, {id})
  {
    forall c | c in rows ensures Passkeys.NotFor(id)(c) == Stays(ChallengeOwner, {id})(c) {
      assert ChallengeOwner(c) == c.userId;
    }
    KeptSame(rows, Passkeys.NotFor(id), Stays(ChallengeOwner, {id}));
  }

  lemma TableCleared(s: Store, which: Satellite, id: Id)
    requires which.Tokens? || which.Sessions? || which.Codes?
    ensures Cleared(s, which, id) == Part(s, {which}, {id})
  {
    if which.Tokens? {
      assert Cleared(s, which, id).tokens == Part(s, {which}, {id}).tokens;
    } else if which.Sessions? {
      assert Cleared(s, which, id).sessions == Part(s, {which}, {id}).sessions;
    } else {
      assert Cleared(s, which, id).codes == Part(s, {which}, {id}).codes;
    }
  }

  lemma ContactsCleared(s: Store, which: Satellite, id: Id)
    requires which.Links? || which.Social? || which.Roles? || which.Memberships? || which.TotpRows?
    ensures Cleared(s, which, id) == Part(s, {which}, {id})
  {
  }

  lemma RowsCleared(s: Store, which: Satellite, id: Id)
    requires which.RecoveryCodes? || which.PasskeyRows? || which.Challenges?
    ensures Cleared(s, which, id) == Part(s, {which}, {id})
  {
    RecoveryCleared(s.recovery, id);
    PasskeysCleared(s.passkeys, id);
    ChallengesCleared(s.challenges, id);
  }

  lemma ClearedDrops(s: Store, which: Satellite, id: Id)
    ensures Cleared(s, which, id) == Part(s, {which}, {id})
  {
    if which.Tokens? || which.Sessions? || which.Codes? {
      TableCleared(s, which, id);
    } else if which.RecoveryCodes? || which.PasskeyRows? || which.Challenges? {
      RowsCleared(s, which, id);
    } else {
      ContactsCleared(s, which, id);
    }
  }

  // ----- two deletions

  predicate Merge(v: set<Satellite>, w: set<Satellite>, a: set<Id>, b: set<Id>) {
    forall which :: Absorbs(which in v, which in w, a, b)
  }

  lemma GrantsTwice(s: Store, v: set<Satellite>, w: set<Satellite>, a: set<Id>, b: set<Id>)
    requires Merge(v, w, a, b)
    ensures var x, y := Part(Part(s, v, a), w, b), Part(s, v + w, a + b);
            x.tokens == y.tokens && x.sessions == y.sessions && x.codes == y.codes
  {
    DropIfTwice(Tokens in v, Tokens in w, s.tokens, TokenOwner, a, b);
    DropIfTwice(Satellite.Sessions in v, Satellite.Sessions in w, s.sessions, SessionOwner, a, b);
    DropIfTwice(Codes in v, Codes in w, s.codes, CodeOwner, a, b);
  }

  lemma ContactsTwice(s: Store, v: set<Satellite>, w: set<Satellite>, a: set<Id>, b: set<Id>)
    requires Merge(v, w, a, b)
    ensures var x, y := Part(Part(s, v, a), w, b), Part(s, v + w, a + b);
            x.links == y.links && x.social == y.social
  {
  }

  lemma KeysTwice(s: Store, v: set<Satellite>, w: set<Satellite>, a: set<Id>, b: set<Id>)
    requires Merge(v, w, a, b)
    ensures var x, y := Part(Part(s, v, a), w, b), Part(s, v + w, a + b);
            x.roles == y.roles && x.totp == y.totp && x.members == y.members
  {
  }

  lemma RowsTwice(s: Store, v: set<Satellite>, w: set<Satellite>, a: set<Id>, b: set<Id>)
    requires Merge(v, w, a, b)
    ensures var x, y := Part(Part(s, v, a), w, b), Part(s, v + w, a + b);
            x.recovery == y.recovery && x.passkeys == y.passkeys && x.challenges == y.challenges
  {
    DropRowsIfTwice(RecoveryCodes in v, RecoveryCodes in w, s.recovery, RecoveryOwner, a, b);
    DropRowsIfTwice(PasskeyRows in v, PasskeyRows in w, s.passkeys, PasskeyOwner, a, b);
    DropRowsIfTwice(Challenges in v, Challenges in w, s.challenges, ChallengeOwner, a, b);
  }

  lemma PartTwice(s: Store, v: set<Satellite>, w: set<Satellite>, a: set<Id>, b: set<Id>)
    requires Merge(v, w, a, b)
    ensures Part(Part(s, v, a), w, b) == Part(s, v + w, a + b)
  {
    GrantsTwice(s, v, w, a, b);
    ContactsTwice(s, v, w, a, b);
    KeysTwice(s, v, w, a, b);
    RowsTwice(s, v, w, a, b);
  }

  function Members<T>(order: seq<T>): set<T> {
    set which | which in order
  }

  lemma {:induction false} EachDrops(s: Store, order: seq<Satellite>, id: Id)
    ensures ClearedEach(s, order, id) == Part(s, Members(order), {id})
    decreases order
  {
    if order == [] {
      NothingDropped(s, {id});
    } else {
      EachDrops(Cleared(s, order[0], id), order[1..], id);
      ClearedDrops(s, order[0], id);
      PartTwice(s, {order[0]}, Members(order[1..]), {id}, {id});
      assert {order[0]} + Members(order[1..]) == Members(order);
      assert {id} + {id} == {id};
    }
  }

  lemma {:induction false} OneMore(s: Store, order: seq<Satellite>, which: Satellite, id: Id)
    ensures ClearedEach(s, order + [which], id) == Cleared(ClearedEach(s, order, id), which, id)
    decreases order
  {
    if order == [] {
      assert order + [which] == [which];
      assert ClearedEach(s, [which], id) == ClearedEach(Cleared(s, which, id), [], id);
    } else {
      assert (order + [which])[0] == order[0] && (order + [which])[1..] == order[1..] + [which];
      OneMore(Cleared(s, order[0], id), order[1..], which, id);
    }
  }

  lemma NothingDropped(s: Store, ids: set<Id>)
    ensures Part(s, {}, ids) == s
  {
  }

  /** Nine deletions in any order and then the row erase the account. */
  lemma PurgedErases(s: Store, order: seq<Satellite>, id: Id)
    requires Complete(order)
    ensures Purged(s, order, id) == Erased(s, {id})
  {
    EachDrops(s, order, id);
    CompleteIsAll(order);
  }

  lemma CompleteIsAll(order: seq<Satellite>)
    requires Complete(order)
    ensures Members(order) == ALL
  {
    InAll(Members(order));
  }

  /** What the service's nine calls do to the satellites: seven statements, then two and two. */
  function ListedCalls(s: Store, id: Id): Store {
    var t := ClearedEach(s, SINGLES, id);
    Cleared(Cleared(Cleared(Cleared(t, RecoveryCodes, id), TotpRows, id), PasskeyRows, id), Challenges, id)
  }

  /** The calls as the service lists them, and then the row, erase the account. */
  lemma ListedErases(s: Store, t: Store, id: Id)
    requires t == ListedCalls(s, id)
    ensures t.(users := t.users - {id}) == Erased(s, {id})
  {
    var o1 := SINGLES + [RecoveryCodes];
    var o2 := o1 + [TotpRows];
    var o3 := o2 + [PasskeyRows];
    var o4 := o3 + [Challenges];
    OneMore(s, SINGLES, RecoveryCodes, id);
    OneMore(s, o1, TotpRows, id);
    OneMore(s, o2, PasskeyRows, id);
    OneMore(s, o3, Challenges, id);
    ListedIsComplete(o4);
    PurgedErases(s, o4, id);
  }

  lemma ListedIsComplete(order: seq<Satellite>)
    requires order == SINGLES + [RecoveryCodes] + [TotpRows] + [PasskeyRows] + [Challenges]
    ensures Complete(order)
  {
    assert order[0] == Tokens && order[1] == Satellite.Sessions && order[2] == Codes && order[3] == Satellite.Links;
    assert order[4] == Social && order[5] == Roles && order[6] == Memberships && order[7] == RecoveryCodes;
    assert order[8] == TotpRows && order[9] == PasskeyRows && order[10] == Challenges;
  }

  lemma ErasedTwice(s: Store, a: set<Id>, b: set<Id>)
    ensures Erased(Erased(s, a), b) == Erased(s, a + b)
  {
    PartTwice(s, ALL, ALL, a, b);
    UsersApart(Part(s, ALL, a), ALL, b, s.users - a);
    assert s.users - a - b == s.users - (a + b);
  }

  /** The satellites do not depend on the users table. */
  lemma UsersApart(s: Store, which: set<Satellite>, ids: set<Id>, users: UserTable)
    ensures Part(s.(users := users), which, ids) == Part(s, which, ids).(users := users)
  {
  }

  // ----- the job

  datatype Job = Job(id: Id, order: seq<Satellite>)

  predicate AllComplete(jobs: seq<Job>) {
    forall j :: j in jobs ==> Complete(j.order)
  }

  function Ids(jobs: seq<Job>): set<Id> {
    set j | j in jobs :: j.id
  }

  function PurgedAll(s: Store, jobs: seq<Job>): Store
    decreases jobs
  {
    if jobs == [] then s else PurgedAll(Purged(s, jobs[0].order, jobs[0].id), jobs[1..])
  }

  /** A run with this cutoff that finished some accounts and was stopped among the deletions of the next. */
  datatype Stopped = Stopped(cutoff: int, done: seq<Job>, id: Id, partial: seq<Satellite>)

  function AfterStop(s: Store, stop: Stopped): Store {
    ClearedEach(PurgedAll(s, stop.done), stop.partial, stop.id)
  }

  function Expired(s: Store, cutoff: int): set<Id> {
    Picked(s.users, DeletedBefore(cutoff))
  }

  /** Where an uninterrupted run would end. */
  function Target(s: Store, cutoff: int): Store {
    Erased(s, Expired(s, cutoff))
  }

  /** The accounts a run works on are those it found; each deletion of a finished one was done. */
  predicate RunOf(s: Store, cutoff: int, stop: Stopped) {
    AllComplete(stop.done) && Ids(stop.done) + {stop.id} <= Expired(s, cutoff) && stop.id !in Ids(stop.done)
  }

  lemma {:induction false} JobsErase(s: Store, jobs: seq<Job>)
    requires AllComplete(jobs)
    ensures PurgedAll(s, jobs) == Erased(s, Ids(jobs))
    decreases jobs
  {
    if jobs == [] {
      ErasedNobody(s);
      assert Ids(jobs) == {};
    } else {
      PurgedErases(s, jobs[0].order, jobs[0].id);
      JobsErase(Purged(s, jobs[0].order, jobs[0].id), jobs[1..]);
      ErasedTwice(s, {jobs[0].id}, Ids(jobs[1..]));
      assert Ids(jobs) == {jobs[0].id} + Ids(jobs[1..]);
    }
  }

  lemma ErasedNobody(s: Store)
    ensures Erased(s, {}) == s
  {
    assert s.users - {} == s.users;
    NobodyDropped(s);
  }

  lemma NobodyDropped(s: Store)
    ensures Part(s, ALL, {}) == s
  {
    DropNobody(true, s.tokens, TokenOwner);
    DropNobody(true, s.sessions, SessionOwner);
    DropNobody(true, s.codes, CodeOwner);
    DropNobody(true, s.links, LinkOwner);
    DropNobody(true, s.social, AccountOwner);
    DropNobodysRows(true, s.recovery, RecoveryOwner);
    DropNobodysRows(true, s.passkeys, PasskeyOwner);
    DropNobodysRows(true, s.challenges, ChallengeOwner);
  }

  /** Finishing an account that was begun erases it like one that was not. */
  lemma RestErases(s: Store, begun: set<Satellite>, id: Id, ids: set<Id>)
    requires begun <= ALL && id in ids
    ensures Erased(Part(s, begun, {id}), ids) == Erased(s, ids)
  {
    PartTwice(s, begun, ALL, {id}, ids);
    assert begun + ALL == ALL && {id} + ids == ids;
  }

  lemma InAll(some: set<Satellite>)
    ensures some <= ALL
  {
    forall which | which in some ensures which in ALL {
      match which {
        case Tokens =>
        case Sessions =>
        case Codes =>
        case Links =>
        case Social =>
        case Roles =>
        case Memberships =>
        case RecoveryCodes =>
        case TotpRows =>
        case PasskeyRows =>
        case Challenges =>
      }
    }
  }

  /** A stopped run leaves the same work for the next: both end where an uninterrupted run would. */
  lemma StopKeepsTarget(s: Store, cutoff: int, stop: Stopped)
    requires RunOf(s, cutoff, stop)
    ensures Target(AfterStop(s, stop), cutoff) == Target(s, cutoff)
  {
    var done := Ids(stop.done);
    var t := PurgedAll(s, stop.done);
    JobsErase(s, stop.done);
    EachDrops(t, stop.partial, stop.id);
    var c := AfterStop(s, stop);
    assert c.users == s.users - done;
    var left := Expired(c, cutoff);
    assert left == Expired(s, cutoff) - done;
    InAll(Members(stop.partial));
    RestErases(t, Members(stop.partial), stop.id, left);
    ErasedTwice(s, done, left);
    assert done + left == Expired(s, cutoff);
  }

  lemma FinishedRunReachesTarget(s: Store, cutoff: int, jobs: seq<Job>)
    requires AllComplete(jobs) && Ids(jobs) == Expired(s, cutoff)
    ensures PurgedAll(s, jobs) == Target(s, cutoff)
  {
    JobsErase(s, jobs);
  }

  function AfterStops(s: Store, stops: seq<Stopped>): Store
    decreases stops
  {
    if stops == [] then s else AfterStops(AfterStop(s, stops[0]), stops[1..])
  }

  /** Each attempt found its accounts by a cutoff of its own, none later than the last. */
  predicate RunsOf(s: Store, last: int, stops: seq<Stopped>)
    decreases stops
  {
    stops == []
    || (&& stops[0].cutoff <= last && RunOf(s, stops[0].cutoff, stops[0])
        && RunsOf(AfterStop(s, stops[0]), last, stops[1..]))
  }

  /** What an earlier cutoff finds, a later one finds too. */
  lemma LaterCutoff(s: Store, earlier: int, later: int, stop: Stopped)
    requires earlier <= later && RunOf(s, earlier, stop)
    ensures RunOf(s, later, stop)
  {
  }

  /**
    However often the job is stopped, wherever, and whatever earlier cutoffs those attempts
    had: running it to the end gives the state of one uninterrupted run at the last cutoff.
   */
  lemma RerunsConverge(s: Store, last: int, stops: seq<Stopped>, jobs: seq<Job>, single: seq<Job>)
    requires RunsOf(s, last, stops)
    requires AllComplete(jobs) && Ids(jobs) == Expired(AfterStops(s, stops), last)
    requires AllComplete(single) && Ids(single) == Expired(s, last)
    ensures PurgedAll(AfterStops(s, stops), jobs) == PurgedAll(s, single)
  {
    TargetStays(s, last, stops);
    FinishedRunReachesTarget(AfterStops(s, stops), last, jobs);
    FinishedRunReachesTarget(s, last, single);
  }

  lemma {:induction false} TargetStays(s: Store, last: int, stops: seq<Stopped>)
    requires RunsOf(s, last, stops)
    ensures Target(AfterStops(s, stops), last) == Target(s, last)
    decreases stops
  {
    if stops != [] {
      LaterCutoff(s, stops[0].cutoff, last, stops[0]);
      StopKeepsTarget(s, last, stops[0]);
      TargetStays(AfterStop(s, stops[0]), last, stops[1..]);
    }
  }

  // ----- orphans and bystanders

  lemma PartLeavesNoOrphans(s: Store, which: set<Satellite>, ids: set<Id>)
    requires NoOrphans(s)
    ensures NoOrphans(Part(s, which, ids))
  {
  }

  lemma ErasedLeavesNoOrphans(s: Store, ids: set<Id>)
    requires NoOrphans(s)
    ensures NoOrphans(Erased(s, ids))
  {
  }

  /** Wherever the job stops, every remaining satellite row still has its user row. */
  lemma StopLeavesNoOrphans(s: Store, stop: Stopped)
    requires NoOrphans(s) && AllComplete(stop.done)
    ensures NoOrphans(AfterStop(s, stop))
  {
    JobsErase(s, stop.done);
    ErasedLeavesNoOrphans(s, Ids(stop.done));
    EachDrops(PurgedAll(s, stop.done), stop.partial, stop.id);
    PartLeavesNoOrphans(PurgedAll(s, stop.done), Members(stop.partial), {stop.id});
  }

  lemma MapsKeepOthers(s: Store, which: set<Satellite>, ids: set<Id>, other: Id)
    requires other !in ids
    ensures var x, y := Theirs(Part(s, which, ids), other), Theirs(s, other);
            x.tokens == y.tokens && x.sessions == y.sessions && x.codes == y.codes && x.links == y.links
            && x.social == y.social
  {
    OthersKeep(Tokens in which, s.tokens, TokenOwner, ids, other);
    OthersKeep(Satellite.Sessions in which, s.sessions, SessionOwner, ids, other);
    OthersKeep(Codes in which, s.codes, CodeOwner, ids, other);
    OthersKeep(Satellite.Links in which, s.links, LinkOwner, ids, other);
    OthersKeep(Social in which, s.social, AccountOwner, ids, other);
  }

  lemma FactorsKeepOthers(s: Store, which: set<Satellite>, ids: set<Id>, other: Id)
    requires other !in ids
    ensures var x, y := Theirs(Part(s, which, ids), other), Theirs(s, other);
            && x.users == y.users && x.roles == y.roles && x.members == y.members && x.totp == y.totp
            && x.recovery == y.recovery && x.passkeys == y.passkeys && x.challenges == y.challenges
  {
    OthersKeepRows(RecoveryCodes in which, s.recovery, RecoveryOwner, ids, other);
    OthersKeepRows(PasskeyRows in which, s.passkeys, PasskeyOwner, ids, other);
    OthersKeepRows(Challenges in which, s.challenges, ChallengeOwner, ids, other);
  }

  lemma PartKeepsOthers(s: Store, which: set<Satellite>, ids: set<Id>, other: Id)
    requires other !in ids
    ensures Theirs(Part(s, which, ids), other) == Theirs(s, other)
  {
    MapsKeepOthers(s, which, ids, other);
    FactorsKeepOthers(s, which, ids, other);
  }

  /** Nor does it touch anybody else's rows. */
  lemma OthersUntouched(s: Store, stop: Stopped, other: Id)
    requires AllComplete(stop.done) && other !in Ids(stop.done) && other != stop.id
    ensures Theirs(AfterStop(s, stop), other) == Theirs(s, other)
  {
    JobsErase(s, stop.done);
    PartKeepsOthers(s, ALL, Ids(stop.done), other);
    EachDrops(PurgedAll(s, stop.done), stop.partial, stop.id);
    PartKeepsOthers(PurgedAll(s, stop.done), Members(stop.partial), {stop.id}, other);
  }
}
