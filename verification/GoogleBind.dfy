/**
  Binding a Google account to a signed-in user: link first, then adopt Google's address if
  the user has none, and undo the link when that fails. Every write may fail.
 */
module GoogleBind {
  import opened Base
  import opened Tables
  import opened Users
  import opened SocialAccounts

  datatype Identity = Identity(sub: Sub, email: Address, emailVerified: bool)

  /** How the address patch can go: the write may have happened even when the call throws or finds no row. */
  datatype PatchFault = Works | Throws(applied: bool) | RowGone(applied: bool)

  /** How the link insert, or taking the link back, can go: it may have happened even when the call throws. */
  datatype WriteFault = Passes | Fails(applied: bool)

  datatype Faults = Faults(link: WriteFault, patch: PatchFault, compensation: WriteFault)

  const NO_FAULTS := Faults(Passes, Works, Passes)

  datatype Outcome = Bound | UserNotFound | EmailUnverified | AlreadyLinked | EmailTaken | Failed

  datatype State = State(users: UserTable, social: SocialTable)

  datatype Result = Result(state: State, outcome: Outcome)

  function Adopted(email: Address): Patch {
    Patch(Some(email), None, Some(true))
  }

  /** The link this call made is taken back, unless taking it back fails too. */
  function Compensated(s: State, userId: Id, created: bool, faults: Faults, error: Outcome): Result {
    if !created then Result(s, error)
    else
      var undone := s.(social := Without(s.social, OwnedBy(userId)));
      match faults.compensation
      case Passes => Result(undone, error)
      case Fails(applied) => Result(if applied then undone else s, Failed)
  }

  function AdoptEmail(s: State, userId: Id, email: Address, created: bool, faults: Faults): Result {
    var patched := s.(users := AfterUpdate(s.users, userId, Adopted(email)));
    match faults.patch
    case Throws(applied) => Compensated(if applied then patched else s, userId, created, faults, Failed)
    case RowGone(applied) => Compensated(if applied then patched else s, userId, created, faults, EmailTaken)
    case Works =>
      match UpdateResult(s.users, userId, Adopted(email))
      case Updated => Result(patched, Bound)
      case Missing => Compensated(s, userId, created, faults, EmailTaken)
      case DuplicateEmail => Compensated(s, userId, created, faults, Failed)
  }

  function Bind(s: State, userId: Id, identity: Identity, linkId: Id, faults: Faults): Result {
    if !Live(s.users, userId) then Result(s, UserNotFound)
    else if !identity.emailVerified then Result(s, EmailUnverified)
    else if identity.sub in s.social && s.social[identity.sub].userId != userId then Result(s, AlreadyLinked)
    else
      var existing := identity.sub in s.social;
      var takesEmail := !HasAddress(s.users[userId]);
      if existing && !takesEmail then Result(s, Bound)
      else if takesEmail && Taken(s.users, identity.email) then Result(s, EmailTaken)
      else
        var linked := if existing then s else s.(social := s.social[identity.sub := Account(linkId, userId)]);
        if !existing && faults.link.Fails? then Result(if faults.link.applied then linked else s, Failed)
        else if takesEmail then AdoptEmail(linked, userId, identity.email, !existing, faults)
        else Result(linked, Bound)
  }

  // ----- one call

  /**
    Success means linked with an address on the row; and that address is a real one unless
    the only one on offer was the empty string.
   */
  lemma SuccessMeansBound(s: State, userId: Id, identity: Identity, linkId: Id, faults: Faults)
    requires Bind(s, userId, identity, linkId, faults).outcome.Bound?
    ensures var after := Bind(s, userId, identity, linkId, faults).state;
            && LinkedTo(after.social, identity.sub, userId)
            && userId in after.users && after.users[userId].email.Some?
            && (HasAddress(after.users[userId]) <==> HasAddress(s.users[userId]) || identity.email != EMPTY_ADDRESS)
  {
  }

  lemma OnlyTheRowChanges(s: State, userId: Id, identity: Identity, linkId: Id, faults: Faults)
    ensures var after := Bind(s, userId, identity, linkId, faults).state.users;
            && (userId in s.users && HasAddress(s.users[userId]) ==> after == s.users)
            && after.Keys == s.users.Keys
            && (forall id :: id in s.users && id != userId ==> after[id] == s.users[id])
  {
  }

  lemma OnlyTheLinkChanges(s: State, userId: Id, identity: Identity, linkId: Id, faults: Faults)
    ensures var after := Bind(s, userId, identity, linkId, faults).state.social;
            && (forall sub :: sub in s.social && s.social[sub].userId != userId ==>
                LinkedTo(after, sub, s.social[sub].userId))
            && (forall sub :: sub in after ==> sub in s.social || (sub == identity.sub && LinkedTo(after, sub, userId)))
  {
  }

  /** Whatever fails, an existing address stays, and nobody else's row or link changes. */
  lemma NothingElseChanges(s: State, userId: Id, identity: Identity, linkId: Id, faults: Faults)
    ensures var after := Bind(s, userId, identity, linkId, faults).state;
            && (userId in s.users && HasAddress(s.users[userId]) ==> after.users == s.users)
            && after.users.Keys == s.users.Keys
            && (forall id :: id in s.users && id != userId ==> after.users[id] == s.users[id])
            && (forall sub :: sub in s.social && s.social[sub].userId != userId ==>
                LinkedTo(after.social, sub, s.social[sub].userId))
            && (forall sub :: sub in after.social ==>
                sub in s.social || (sub == identity.sub && LinkedTo(after.social, sub, userId)))
  {
    OnlyTheRowChanges(s, userId, identity, linkId, faults);
    OnlyTheLinkChanges(s, userId, identity, linkId, faults);
  }

  /** The checks let the call through to its first write. */
  predicate ReachesTheLink(s: State, userId: Id, identity: Identity) {
    && Live(s.users, userId) && identity.emailVerified && identity.sub !in s.social
    && (HasAddress(s.users[userId]) || !Taken(s.users, identity.email))
  }

  /** The write that made the link threw, or the one that should have taken it back did nothing. */
  predicate LinkSurvives(faults: Faults) {
    if faults.link.Fails? then faults.link.applied else faults.compensation == Fails(false)
  }

  /**
    A failed call leaves a user without links without links, exactly unless it got as far as
    the insert and either the insert took place and threw, which nothing compensates, or
    taking the link back failed.
   */
  lemma FailureLeavesNoLinkIff(s: State, userId: Id, identity: Identity, linkId: Id, faults: Faults)
    requires forall sub :: sub in s.social ==> s.social[sub].userId != userId
    requires !Bind(s, userId, identity, linkId, faults).outcome.Bound?
    ensures Bind(s, userId, identity, linkId, faults).state.social == s.social
            <==> !(ReachesTheLink(s, userId, identity) && LinkSurvives(faults))
    ensures Bind(s, userId, identity, linkId, faults).state.social == s.social
            || LinkedTo(Bind(s, userId, identity, linkId, faults).state.social, identity.sub, userId)
  {
    assert identity.sub !in s.social ==>
        Without(s.social[identity.sub := Account(linkId, userId)], OwnedBy(userId)) == s.social;
  }

  /**
    The two ways it happens, to an account without an address: the insert takes place and
    throws, or the address patch throws and taking the link back throws as well.
   */
  lemma AFailureCanLeaveItsLink(user: User, identity: Identity, linkId: Id)
    requires user.email.None? && user.deletedAt.None? && identity.emailVerified
    ensures var s := State(map[0 := user], map[]);
            var thrown := Bind(s, 0, identity, linkId, Faults(Fails(true), Works, Passes));
            var stuck := Bind(s, 0, identity, linkId, Faults(Passes, Throws(false), Fails(false)));
            && thrown == Result(s.(social := map[identity.sub := Account(linkId, 0)]), Failed)
            && stuck == thrown
  {
    assert !Taken(map[0 := user], identity.email);
  }

  predicate Holds(users: UserTable, id: Id, email: Address) {
    id in users && CiEquals(users[id].email, Some(email))
  }

  ghost predicate OnlyLosesLinks(before: SocialTable, after: SocialTable, userId: Id) {
    && (forall sub :: sub in after <==> sub in before && before[sub].userId != userId)
    && (forall sub :: sub in after ==> after[sub] == before[sub])
  }

  /** The address patch took place, or did not; a failure takes back the link the call made, and says what failed. */
  ghost predicate AdoptionEnds(s: State, r: Result, userId: Id, identity: Identity, linkId: Id, faults: Faults)
    requires userId in s.users
  {
    var made := identity.sub !in s.social;
    var linked := if made then s.social[identity.sub := Account(linkId, userId)] else s.social;
    && r.state.users == (if faults.patch.Works? || faults.patch.applied
                         then s.users[userId := s.users[userId].(email := Some(identity.email), emailVerified := true)]
                         else s.users)
    && if faults.patch.Works? then r.state.social == linked && r.outcome == Bound
       else
         && r.outcome == (if faults.patch.RowGone? && !(made && faults.compensation.Fails?) then EmailTaken else Failed)
         && if made && (faults.compensation.Passes? || faults.compensation.applied)
            then OnlyLosesLinks(linked, r.state.social, userId)
            else r.state.social == linked
  }

  /** How a call ends under any faults. */
  ghost predicate EndsAsMeant(s: State, r: Result, userId: Id, identity: Identity, linkId: Id, faults: Faults) {
    var sub := identity.sub;
    if userId !in s.users || s.users[userId].deletedAt.Some? then r == Result(s, UserNotFound)
    else if !identity.emailVerified then r == Result(s, EmailUnverified)
    else if sub in s.social && s.social[sub].userId != userId then r == Result(s, AlreadyLinked)
    else
      var takes := s.users[userId].email.None? || s.users[userId].email == Some(EMPTY_ADDRESS);
      if sub in s.social && !takes then r == Result(s, Bound)
      else if takes && (exists id :: Holds(s.users, id, identity.email)) then r == Result(s, EmailTaken)
      else if sub !in s.social && faults.link.Fails? then
        && r.outcome == Failed && r.state.users == s.users
        && r.state.social == if faults.link.applied then s.social[sub := Account(linkId, userId)] else s.social
      else if takes then AdoptionEnds(s, r, userId, identity, linkId, faults)
      else r == Result(s.(social := s.social[sub := Account(linkId, userId)]), Bound)
  }

  /** Every call ends so, whatever fails: which error it reports, and what each write left behind. */
  lemma CallEndsAsMeant(s: State, userId: Id, identity: Identity, linkId: Id, faults: Faults)
    ensures EndsAsMeant(s, Bind(s, userId, identity, linkId, faults), userId, identity, linkId, faults)
  {
    if Taken(s.users, identity.email) {
      var id :| id in s.users && CiEquals(s.users[id].email, Some(identity.email));
      assert Holds(s.users, id, identity.email);
    }
    if userId in s.users && !Taken(s.users, identity.email) {
      AdoptionIs(s, userId, identity, linkId, faults);
    }
  }

  lemma AdoptionIs(s: State, userId: Id, identity: Identity, linkId: Id, faults: Faults)
    requires userId in s.users && !Taken(s.users, identity.email)
    ensures var made := identity.sub !in s.social;
            var linked := if made then s.(social := s.social[identity.sub := Account(linkId, userId)]) else s;
            AdoptionEnds(s, AdoptEmail(linked, userId, identity.email, made, faults), userId, identity, linkId, faults)
  {
  }

  // ----- retries

  /** The state after a run of calls by the same user with the same Google account. */
  function AfterCalls(s: State, userId: Id, identity: Identity, linkId: Id, faults: seq<Faults>): State
    decreases faults
  {
    if faults == [] then s
    else AfterCalls(Bind(s, userId, identity, linkId, faults[0]).state, userId, identity, linkId, faults[1..])
  }

  /** The user is there, the Google account is not someone else's, and nobody else has its address. */
  predicate Bindable(s: State, userId: Id, identity: Identity) {
    && Live(s.users, userId) && identity.emailVerified
    && (identity.sub in s.social ==> s.social[identity.sub].userId == userId)
    && !TakenByOther(s.users, userId, identity.email)
    && (!HasAddress(s.users[userId]) ==> !CiEquals(s.users[userId].email, Some(identity.email)))
  }

  lemma CallKeepsBindable(s: State, userId: Id, identity: Identity, linkId: Id, faults: Faults)
    requires Bindable(s, userId, identity)
    ensures var after := Bind(s, userId, identity, linkId, faults).state;
            Bindable(after, userId, identity) || (identity.email == EMPTY_ADDRESS && !HasAddress(after.users[userId]))
  {
  }

  lemma CleanCallBinds(s: State, userId: Id, identity: Identity, linkId: Id)
    requires Bindable(s, userId, identity)
    ensures Bind(s, userId, identity, linkId, NO_FAULTS).outcome.Bound?
  {
  }

  /** Once bound with a real address, every further call succeeds and changes nothing. */
  lemma BoundIsStable(s: State, userId: Id, identity: Identity, linkId: Id, faults: Faults)
    requires Live(s.users, userId) && identity.emailVerified
    requires LinkedTo(s.social, identity.sub, userId) && HasAddress(s.users[userId])
    ensures Bind(s, userId, identity, linkId, faults) == Result(s, Bound)
  {
  }

  lemma {:induction false} CallsKeepBindable(s: State, userId: Id, identity: Identity, linkId: Id, faults: seq<Faults>)
    requires Bindable(s, userId, identity) && identity.email != EMPTY_ADDRESS
    ensures Bindable(AfterCalls(s, userId, identity, linkId, faults), userId, identity)
    decreases faults
  {
    if faults != [] {
      CallKeepsBindable(s, userId, identity, linkId, faults[0]);
      CallsKeepBindable(Bind(s, userId, identity, linkId, faults[0]).state, userId, identity, linkId, faults[1..]);
    }
  }

  /**
    After any run of failures one clean retry completes the bind; and from then on any call,
    with any fault injected, succeeds and leaves the state alone.
   */
  lemma CleanRetryCompletes(s: State, userId: Id, identity: Identity, linkId: Id, faults: seq<Faults>,
                            later: seq<Faults>)
    requires Bindable(s, userId, identity) && identity.email != EMPTY_ADDRESS
    ensures var failed := AfterCalls(s, userId, identity, linkId, faults);
            var done := Bind(failed, userId, identity, linkId, NO_FAULTS);
            && done.outcome.Bound? && LinkedTo(done.state.social, identity.sub, userId)
            && userId in done.state.users && HasAddress(done.state.users[userId])
            && AfterCalls(done.state, userId, identity, linkId, later) == done.state
  {
    CallsKeepBindable(s, userId, identity, linkId, faults);
    var failed := AfterCalls(s, userId, identity, linkId, faults);
    CleanCallBinds(failed, userId, identity, linkId);
    var done := Bind(failed, userId, identity, linkId, NO_FAULTS);
    SuccessMeansBound(failed, userId, identity, linkId, NO_FAULTS);
    CallKeepsBindable(failed, userId, identity, linkId, NO_FAULTS);
    LaterCallsChangeNothing(done.state, userId, identity, linkId, later);
  }

  lemma {:induction false} LaterCallsChangeNothing(s: State, userId: Id, identity: Identity, linkId: Id,
                                                   later: seq<Faults>)
    requires Live(s.users, userId) && identity.emailVerified
    requires LinkedTo(s.social, identity.sub, userId) && HasAddress(s.users[userId])
    ensures AfterCalls(s, userId, identity, linkId, later) == s
    decreases later
  {
    if later != [] {
      BoundIsStable(s, userId, identity, linkId, later[0]);
      LaterCallsChangeNothing(s, userId, identity, linkId, later[1..]);
    }
  }
}
