/**
  What each account call comes to, told from the rows it finds: when it is accepted, what it
  is refused for, and the whole state it leaves. Nothing here is computed by the calls.
 */
module AccountOutcomes {
  import opened Base
  import opened Users
  import opened Links
  import opened SocialAccounts
  import opened Accounts
  import opened AccountTheorems
  import GoogleBind

  // ----- what a call finds

  /** The row's address is this one, but for its spelling. */
  predicate HasIt(user: User, email: Address) {
    user.email.Some? && user.email.value.folded == email.folded
  }

  predicate SomebodyHas(users: UserTable, email: Address) {
    exists k :: k in users && HasIt(users[k], email)
  }

  predicate SomebodyElseHas(users: UserTable, id: Id, email: Address) {
    exists k :: k in users && k != id && HasIt(users[k], email)
  }

  predicate IsLive(users: UserTable, id: Id) {
    id in users && users[id].deletedAt == None
  }

  /** The address is a real one, not the empty string. */
  predicate Reachable(user: User) {
    user.email.Some? && user.email.value != Address(0, 0)
  }

  ghost predicate Refuses(s: State, r: Result, reason: Reason) {
    r == Result(s, Refused(reason))
  }

  /** The state with one row written. */
  function WithUser(s: State, id: Id, user: User): State {
    s.(users := s.users[id := user])
  }

  /** The state after a new row was drawn for a new account. */
  function WithNewUser(s: State, user: User): State {
    s.(users := s.users[s.supply := user], supply := s.supply + 1)
  }

  /** Every unused link of the account that could change it is used up, and no other link. */
  ghost predicate Closes(s: State, links: LinkTable, id: Id) {
    && links.Keys == s.links.Keys
    && forall l :: l in s.links ==>
         links[l] == if s.links[l].userId == id && s.links[l].consumedAt.None? && s.links[l].purpose != VerifyEmail
                     then s.links[l].(consumedAt := Some(s.now)) else s.links[l]
  }

  // ----- registration, updates, removal

  ghost predicate RegisterEnds(s: State, r: Result, email: Address, password: Password) {
    if SomebodyHas(s.users, email) then Refuses(s, r, EmailTakenReason)
    else if !password.acceptable then Refuses(s, r, WeakPassword)
    else s.supply !in s.users
         && r == Result(WithNewUser(s, User(Some(email), None, Some(password.hash), false, None)), Ok)
  }

  ghost predicate GuestEnds(s: State, r: Result, username: nat, password: Password) {
    if exists k :: k in s.users && s.users[k].username == Some(username) then r == Result(s, DuplicateOtherKey)
    else s.supply !in s.users
         && r == Result(WithNewUser(s, User(None, Some(username), Some(password.hash), false, None)), Ok)
  }

  /** The owner must know the current password; an operator, who is not the owner, need not. */
  function PasswordObjection(user: User, password: Password, current: Option<Digest>, asOwner: bool): Option<Reason> {
    if asOwner && current.None? then Some(CurrentPasswordRequired)
    else if asOwner && user.passwordHash != current then Some(InvalidCredentials)
    else if !password.acceptable then Some(WeakPassword)
    else None
  }

  /** The row after an update: what was given is written, and another address starts unverified. */
  function UpdatedUser(was: User, email: Option<Address>, password: Option<Password>): User {
    User(if email.Some? then email else was.email,
         was.username,
         if password.Some? then Some(password.value.hash) else was.passwordHash,
         was.emailVerified && (email.None? || email == was.email),
         None)
  }

  ghost predicate UpdateEnds(s: State, r: Result, id: Id, newEmail: Option<Address>, password: Option<Password>,
                             current: Option<Digest>, asOwner: bool) {
    var email := if newEmail == Some(Address(0, 0)) then None else newEmail;
    if !IsLive(s.users, id) then Refuses(s, r, Reason.UserNotFound)
    else if email.Some? && SomebodyElseHas(s.users, id, email.value) then Refuses(s, r, EmailTakenReason)
    else if password.Some? && PasswordObjection(s.users[id], password.value, current, asOwner).Some?
    then Refuses(s, r, PasswordObjection(s.users[id], password.value, current, asOwner).value)
    else
      && r.outcome == Ok
      && r.state == WithUser(s, id, UpdatedUser(s.users[id], email, password)).(links := r.state.links)
      && if password.Some? then Closes(s, r.state.links, id) else r.state.links == s.links
  }

  ghost predicate RemoveEnds(s: State, r: Result, id: Id) {
    if !IsLive(s.users, id) then Refuses(s, r, Reason.UserNotFound)
    else r == Result(WithUser(s, id, s.users[id].(deletedAt := Some(s.now))), Ok)
  }

  // ----- sending links

  /** One link more, about this address, mailed there, good for the configured time. */
  function WithLink(s: State, userId: Id, purpose: Purpose, email: Address, mailedTo: Address): State {
    var link := Link(userId, email, purpose, Sha256(s.supply), s.now + s.linkTtl, None, mailedTo);
    s.(links := s.links[s.supply := link], supply := s.supply + 1)
  }

  ghost predicate ChangeRequestEnds(s: State, r: Result, id: Id, email: Address) {
    if !IsLive(s.users, id) then Refuses(s, r, Reason.UserNotFound)
    else if !Reachable(s.users[id]) then Refuses(s, r, AccountHasNoEmail)
    else if s.users[id].email == Some(email) then r == Result(s, Ok)
    else if SomebodyElseHas(s.users, id, email) then Refuses(s, r, EmailTakenReason)
    else r == Result(WithLink(s, id, EmailChange, email, s.users[id].email.value), Ok)
  }

  ghost predicate DeletionRequestEnds(s: State, r: Result, id: Id) {
    if !IsLive(s.users, id) then Refuses(s, r, Reason.UserNotFound)
    else if !Reachable(s.users[id]) then Refuses(s, r, AccountHasNoEmail)
    else r == Result(WithLink(s, id, AccountDeletion, s.users[id].email.value, s.users[id].email.value), Ok)
  }

  /** The live account with the address, if it is one that links are sent to. */
  predicate Target(users: UserTable, id: Id, email: Address, onlyUnverified: bool) {
    && IsLive(users, id) && HasIt(users[id], email) && Reachable(users[id])
    && (onlyUnverified ==> !users[id].emailVerified)
  }

  /** The answer is the same whether or not there is such an account; a link goes to the stored spelling. */
  ghost predicate BlindRequestEnds(s: State, r: Result, email: Address, purpose: Purpose, onlyUnverified: bool) {
    && r.outcome == Ok
    && if exists id :: Target(s.users, id, email, onlyUnverified)
       then exists id :: && Target(s.users, id, email, onlyUnverified)
                         && r.state == WithLink(s, id, purpose, s.users[id].email.value, s.users[id].email.value)
       else r.state == s
  }

  // ----- redeeming links

  predicate HasSecret(links: LinkTable, l: Id, token: Secret) {
    l in links && links[l].tokenHash == Sha256(token)
  }

  /** What a link is refused for before anything is written. */
  function LinkObjection(s: State, link: Link, purposes: set<Purpose>): Option<Reason> {
    if link.purpose !in purposes || link.consumedAt.Some? then Some(InvalidLink)
    else if s.now >= link.expiresAt then Some(LinkExpired)
    else if !IsLive(s.users, link.userId) then Some(InvalidLink)
    else None
  }

  /** The state with the link used up, and with it on record that its mail was read. */
  function WithUsed(s: State, l: Id): State
    requires l in s.links
  {
    s.(links := s.links[l := s.links[l].(consumedAt := Some(s.now))],
       proofs := s.proofs + {Proof(s.links[l].userId, s.links[l].mailedTo)})
  }

  /** The one link with the secret is refused, or passes and then fares as `acts` says. */
  ghost predicate RedeemEnds(s: State, r: Result, token: Secret, purposes: set<Purpose>, acts: (Id, Result) -> bool) {
    if !exists l :: HasSecret(s.links, l, token) then Refuses(s, r, InvalidLink)
    else exists l :: && HasSecret(s.links, l, token)
                     && var objection := LinkObjection(s, s.links[l], purposes);
                     if objection.Some? then Refuses(s, r, objection.value) else acts(l, r)
  }

  ghost predicate ConfirmActs(s: State, r: Result, l: Id)
    requires l in s.links && s.links[l].userId in s.users
  {
    var link, was := s.links[l], s.users[s.links[l].userId];
    if link.purpose == EmailChange && SomebodyElseHas(s.users, link.userId, link.email)
    then Refuses(s, r, EmailTakenReason)
    else
      var now := if link.purpose == EmailChange then was.(email := Some(link.email), emailVerified := false)
                 else was.(deletedAt := Some(s.now));
      r == Result(WithUser(WithUsed(s, l), link.userId, now), Ok)
  }

  ghost predicate ConfirmEnds(s: State, r: Result, token: Secret) {
    RedeemEnds(s, r, token, {EmailChange, AccountDeletion},
               (l, q) => l in s.links && s.links[l].userId in s.users && ConfirmActs(s, q, l))
  }

  ghost predicate ResetActs(s: State, r: Result, l: Id, hash: Digest)
    requires l in s.links && s.links[l].userId in s.users
  {
    var link, was := s.links[l], s.users[s.links[l].userId];
    if was.email != Some(link.email) then Refuses(s, r, InvalidLink)
    else
      var now := was.(passwordHash := Some(hash), emailVerified := true);
      && r.outcome == Ok
      && r.state == WithUser(WithUsed(s, l), link.userId, now).(links := r.state.links)
      && Closes(WithUsed(s, l), r.state.links, link.userId)
  }

  /** The password policy is asked before the link is looked at. */
  ghost predicate ResetEnds(s: State, r: Result, token: Secret, password: Password) {
    if !password.acceptable then Refuses(s, r, WeakPassword)
    else RedeemEnds(s, r, token, {PasswordReset},
                    (l, q) => l in s.links && s.links[l].userId in s.users && ResetActs(s, q, l, password.hash))
  }

  ghost predicate VerifyActs(s: State, r: Result, l: Id)
    requires l in s.links && s.links[l].userId in s.users
  {
    var link, was := s.links[l], s.users[s.links[l].userId];
    if was.email != Some(link.email) then Refuses(s, r, InvalidLink)
    else r == Result(WithUser(WithUsed(s, l), link.userId, was.(emailVerified := true)), Ok)
  }

  ghost predicate VerifyEnds(s: State, r: Result, token: Secret) {
    RedeemEnds(s, r, token, {VerifyEmail},
               (l, q) => l in s.links && s.links[l].userId in s.users && VerifyActs(s, q, l))
  }

  // ----- Google

  predicate LiveWith(users: UserTable, id: Id, email: Address) {
    IsLive(users, id) && HasIt(users[id], email)
  }

  /** A local account is only linked when it has no password and its address was verified. */
  ghost predicate GoogleLoginEnds(s: State, r: Result, sub: Sub, email: Address, verified: bool) {
    if sub in s.social then
      if IsLive(s.users, s.social[sub].userId) then r == Result(s, Ok) else Refuses(s, r, InvalidGrant)
    else if !verified then Refuses(s, r, GoogleEmailUnverified)
    else if exists id :: LiveWith(s.users, id, email) then
      exists id :: && LiveWith(s.users, id, email)
                   && if s.users[id].passwordHash.None? && s.users[id].emailVerified
                      then r == Result(s.(social := s.social[sub := Account(s.supply, id)], supply := s.supply + 1), Ok)
                      else Refuses(s, r, AccountExists)
    else if SomebodyHas(s.users, email) then Refuses(s, r, EmailTakenReason)
    else
      var id := s.supply;
      && id !in s.users
      && r == Result(s.(users := s.users[id := User(Some(email), None, None, true, None)],
                        social := s.social[sub := Account(id + 1, id)], supply := id + 2,
                        proofs := s.proofs + {Proof(id, email)}), Ok)
  }

  /** Binding while signed in: only an account without an address takes Google's. */
  ghost predicate BindEnds(s: State, r: Result, id: Id, identity: GoogleBind.Identity) {
    var sub, email := identity.sub, identity.email;
    if !IsLive(s.users, id) then Refuses(s, r, GoogleRefused(GoogleBind.Outcome.UserNotFound))
    else if !identity.emailVerified then Refuses(s, r, GoogleRefused(GoogleBind.EmailUnverified))
    else if sub in s.social && s.social[sub].userId != id then Refuses(s, r, GoogleRefused(GoogleBind.AlreadyLinked))
    else
      var takes := !Reachable(s.users[id]);
      if takes && SomebodyHas(s.users, email) then Refuses(s, r, GoogleRefused(GoogleBind.EmailTaken))
      else
        && r.outcome == Ok
        && r.state == s.(supply := s.supply + 1,
                         users := if takes then s.users[id := s.users[id].(email := Some(email), emailVerified := true)]
                                  else s.users,
                         social := if sub in s.social then s.social else s.social[sub := Account(s.supply, id)],
                         proofs := s.proofs + if takes then {Proof(id, email)} else {})
  }

  // ----- maintenance

  ghost predicate EraseEnds(s: State, r: Result, id: Id) {
    && r.outcome == Ok && r.state == s.(users := r.state.users, links := r.state.links, social := r.state.social)
    && (forall k :: k in r.state.users <==> k in s.users && k != id)
    && (forall k :: k in r.state.users ==> r.state.users[k] == s.users[k])
    && (forall l :: l in r.state.links <==> l in s.links && s.links[l].userId != id)
    && (forall l :: l in r.state.links ==> r.state.links[l] == s.links[l])
    && (forall k :: k in r.state.social <==> k in s.social && s.social[k].userId != id)
    && (forall k :: k in r.state.social ==> r.state.social[k] == s.social[k])
  }

  ghost predicate PruneEnds(s: State, r: Result, cutoff: int) {
    && r.outcome == Ok && r.state == s.(links := r.state.links)
    && (forall l :: l in r.state.links <==> l in s.links && s.links[l].expiresAt >= cutoff)
    && (forall l :: l in r.state.links ==> r.state.links[l] == s.links[l])
  }

  /** How each call ends. */
  ghost predicate EndsAsMeant(s: State, call: Call, r: Result) {
    match call
    case Tick(elapsed) => r == Result(s.(now := s.now + elapsed), Ok)
    case Register(email, password) => RegisterEnds(s, r, email, password)
    case CreateGuest(username, password) => GuestEnds(s, r, username, password)
    case UpdateProfile(id, email, password, current, asOwner) => UpdateEnds(s, r, id, email, password, current, asOwner)
    case Remove(id) => RemoveEnds(s, r, id)
    case StartVerification(id, email) => r == Result(WithLink(s, id, VerifyEmail, email, email), Ok)
    case Resend(email) => BlindRequestEnds(s, r, email, VerifyEmail, true)
    case StartEmailChange(id, email) => ChangeRequestEnds(s, r, id, email)
    case StartAccountDeletion(id) => DeletionRequestEnds(s, r, id)
    case StartPasswordReset(email) => BlindRequestEnds(s, r, email, PasswordReset, false)
    case Confirm(token) => ConfirmEnds(s, r, token)
    case ResetPassword(token, password) => ResetEnds(s, r, token, password)
    case VerifyEmailCall(token) => VerifyEnds(s, r, token)
    case GoogleLogin(sub, email, verified) => GoogleLoginEnds(s, r, sub, email, verified)
    case LinkGoogle(id, identity) => BindEnds(s, r, id, identity)
    case Erase(id) => EraseEnds(s, r, id)
    case PruneLinks(cutoff) => PruneEnds(s, r, cutoff)
  }

  // ----- each call

  lemma HolderIs(users: UserTable, id: Id, email: Address)
    requires UniqueEmails(users)
    ensures AnyHolder(users, email).Some? <==> SomebodyHas(users, email)
    ensures HeldByOther(users, id, email) <==> SomebodyElseHas(users, id, email)
  {
    var holder := AnyHolder(users, email);
    if holder.Some? {
      assert HasIt(users[holder.value], email);
    }
    if k :| k in users && HasIt(users[k], email) {
      assert CiEquals(users[k].email, Some(email));
    }
  }

  lemma LiveHolderIs(users: UserTable, email: Address)
    requires UniqueEmails(users)
    ensures var holder := LiveHolder(users, email);
            if holder.Some?
            then LiveWith(users, holder.value, email) && forall k :: LiveWith(users, k, email) ==> k == holder.value
            else forall k :: !LiveWith(users, k, email)
  {
    var holder := LiveHolder(users, email);
    forall k | LiveWith(users, k, email) ensures holder == Some(k) {
      assert Live(users, k) && CiEquals(users[k].email, Some(email));
    }
  }

  lemma RegisterIs(s: State, email: Address, password: Password)
    requires UniqueEmails(s.users) && Drawn(s)
    ensures RegisterEnds(s, RegisterCall(s, email, password), email, password)
  {
    HolderIs(s.users, s.supply, email);
    assert SomebodyHas(s.users, email) <==> Taken(s.users, email);
  }

  lemma GuestIs(s: State, username: nat, password: Password)
    requires Drawn(s)
    ensures GuestEnds(s, Apply(s, CreateGuest(username, password)), username, password)
  {
  }

  lemma UpdateRefusalIs(s: State, id: Id, email: Option<Address>, password: Option<Password>, current: Option<Digest>,
                        asOwner: bool)
    requires UniqueEmails(s.users)
    ensures UpdateRefusal(s, id, email, password, current, asOwner) ==
            if !IsLive(s.users, id) then Some(Reason.UserNotFound)
            else if email.Some? && SomebodyElseHas(s.users, id, email.value) then Some(EmailTakenReason)
            else if password.None? then None
            else PasswordObjection(s.users[id], password.value, current, asOwner)
    ensures email.Some? ==> (SomebodyElseHas(s.users, id, email.value) <==> TakenByOther(s.users, id, email.value))
  {
    if email.Some? {
      HolderIs(s.users, id, email.value);
      assert SomebodyElseHas(s.users, id, email.value) <==> TakenByOther(s.users, id, email.value);
    }
  }

  lemma UpdateIs(s: State, id: Id, email: Option<Address>, password: Option<Password>, current: Option<Digest>,
                 asOwner: bool)
    requires UniqueEmails(s.users)
    ensures UpdateEnds(s, UpdateCall(s, id, email, password, current, asOwner), id, email, password, current, asOwner)
  {
    UpdateRefusalIs(s, id, Given(email), password, current, asOwner);
    if UpdateRefusal(s, id, Given(email), password, current, asOwner).None? {
      AcceptedUpdateIs(s, id, Given(email), password);
    }
  }

  lemma AcceptedUpdateIs(s: State, id: Id, email: Option<Address>, password: Option<Password>)
    requires IsLive(s.users, id) && (email.Some? ==> !TakenByOther(s.users, id, email.value))
    ensures UpdateRow(s, id, ProfilePatch(s.users[id], email, password), Reason.UserNotFound) ==
            Result(WithUser(s, id, UpdatedUser(s.users[id], email, password)), Ok)
    ensures Closes(s, LinksClosed(WithUser(s, id, UpdatedUser(s.users[id], email, password)), id).links, id)
  {
  }

  lemma ChangeRequestIs(s: State, id: Id, email: Address)
    requires UniqueEmails(s.users)
    ensures ChangeRequestEnds(s, EmailChangeCall(s, id, email), id, email)
  {
    HolderIs(s.users, id, email);
  }

  lemma ResendIs(s: State, email: Address)
    requires UniqueEmails(s.users)
    ensures BlindRequestEnds(s, ResendCall(s, email), email, VerifyEmail, true)
  {
    LiveHolderIs(s.users, email);
    var holder := LiveHolder(s.users, email);
    if holder.Some? {
      assert forall k :: Target(s.users, k, email, true) ==> k == holder.value;
    }
  }

  lemma ResetRequestIs(s: State, email: Address)
    requires UniqueEmails(s.users)
    ensures BlindRequestEnds(s, ResetRequest(s, email), email, PasswordReset, false)
  {
    LiveHolderIs(s.users, email);
    var holder := LiveHolder(s.users, email);
    if holder.Some? {
      assert forall k :: Target(s.users, k, email, false) ==> k == holder.value;
    }
  }

  lemma ConfirmIs(s: State, token: Secret)
    requires UniqueEmails(s.users)
    ensures ConfirmEnds(s, ConfirmCall(s, token), token)
  {
    var id := LinkWithHash(s.links, HashToken(token));
    if id.Some? {
      var link := s.links[id.value];
      assert HasSecret(s.links, id.value, token);
      HolderIs(s.users, link.userId, link.email);
      assert SomebodyElseHas(s.users, link.userId, link.email) <==> TakenByOther(s.users, link.userId, link.email);
    }
  }

  lemma ResetIs(s: State, token: Secret, password: Password)
    ensures ResetEnds(s, ResetCall(s, token, password), token, password)
  {
    var id := LinkWithHash(s.links, HashToken(token));
    if id.Some? {
      assert HasSecret(s.links, id.value, token);
    }
  }

  lemma VerifyIs(s: State, token: Secret)
    ensures VerifyEnds(s, VerifyCall(s, token), token)
  {
    var id := LinkWithHash(s.links, HashToken(token));
    if id.Some? {
      assert HasSecret(s.links, id.value, token);
    }
  }

  lemma GoogleLoginIs(s: State, sub: Sub, email: Address, verified: bool)
    requires UniqueEmails(s.users) && Drawn(s)
    ensures GoogleLoginEnds(s, GoogleLoginCall(s, sub, email, verified), sub, email, verified)
  {
    LiveHolderIs(s.users, email);
    HolderIs(s.users, s.supply, email);
    assert SomebodyHas(s.users, email) <==> Taken(s.users, email);
  }

  lemma BindIs(s: State, id: Id, identity: GoogleBind.Identity)
    requires UniqueEmails(s.users)
    ensures BindEnds(s, LinkGoogleCall(s, id, identity), id, identity)
  {
    HolderIs(s.users, id, identity.email);
    assert SomebodyHas(s.users, identity.email) <==> Taken(s.users, identity.email);
  }

  lemma MaintenanceIs(s: State, id: Id, cutoff: int)
    ensures EraseEnds(s, Apply(s, Erase(id)), id) && PruneEnds(s, Apply(s, PruneLinks(cutoff)), cutoff)
  {
  }

  lemma CallIs(s: State, call: Call)
    requires UniqueEmails(s.users) && Drawn(s)
    ensures EndsAsMeant(s, call, Apply(s, call))
  {
    match call
    case Register(email, password) => RegisterIs(s, email, password);
    case CreateGuest(username, password) => GuestIs(s, username, password);
    case UpdateProfile(id, email, password, current, asOwner) => UpdateIs(s, id, email, password, current, asOwner);
    case _ => LinkCallIs(s, call);
  }

  lemma LinkCallIs(s: State, call: Call)
    requires UniqueEmails(s.users) && Drawn(s) && !call.Register? && !call.CreateGuest? && !call.UpdateProfile?
    ensures EndsAsMeant(s, call, Apply(s, call))
  {
    match call
    case Resend(email) => ResendIs(s, email);
    case StartEmailChange(id, email) => ChangeRequestIs(s, id, email);
    case StartPasswordReset(email) => ResetRequestIs(s, email);
    case Confirm(token) => ConfirmIs(s, token);
    case ResetPassword(token, password) => ResetIs(s, token, password);
    case VerifyEmailCall(token) => VerifyIs(s, token);
    case GoogleLogin(sub, email, verified) => GoogleLoginIs(s, sub, email, verified);
    case LinkGoogle(id, identity) => BindIs(s, id, identity);
    case Erase(id) => MaintenanceIs(s, id, 0);
    case PruneLinks(cutoff) => MaintenanceIs(s, 0, cutoff);
    case _ =>
  }

  /** After any calls, the next one ends as it should. */
  lemma CallsEndAsMeant(now: Time, linkTtl: nat, calls: seq<Call>, call: Call)
    ensures var s := Run(Init(now, linkTtl), calls); EndsAsMeant(s, call, Apply(s, call))
  {
    RunKeeps(Init(now, linkTtl), calls);
    CallIs(Run(Init(now, linkTtl), calls), call);
  }

  // ----- two of them in other words

  /** A reset link the password may be changed by. */
  predicate GoodForReset(s: State, l: Id, token: Secret) {
    && HasSecret(s.links, l, token) && s.links[l].purpose == PasswordReset && s.links[l].consumedAt.None?
    && s.now < s.links[l].expiresAt && IsLive(s.users, s.links[l].userId)
    && s.users[s.links[l].userId].email == Some(s.links[l].email)
  }

  /** A reset is accepted exactly with an acceptable password and such a link, and then writes that password. */
  lemma ResetWorksIff(now: Time, linkTtl: nat, calls: seq<Call>, token: Secret, password: Password)
    ensures var s := Run(Init(now, linkTtl), calls);
            var r := Apply(s, ResetPassword(token, password));
            && (r.outcome == Ok <==> password.acceptable && exists l :: GoodForReset(s, l, token))
            && forall l :: r.outcome == Ok && GoodForReset(s, l, token) ==>
                 var id := s.links[l].userId;
                 r.state.users ==
                   s.users[id := s.users[id].(passwordHash := Some(password.hash), emailVerified := true)]
  {
    var s := Run(Init(now, linkTtl), calls);
    RunKeeps(Init(now, linkTtl), calls);
    OneReset(s, token, password);
  }

  lemma OneReset(s: State, token: Secret, password: Password)
    requires Drawn(s)
    ensures var r := Apply(s, ResetPassword(token, password));
            && (r.outcome == Ok <==> password.acceptable && exists l :: GoodForReset(s, l, token))
            && forall l :: r.outcome == Ok && GoodForReset(s, l, token) ==>
                 var id := s.links[l].userId;
                 r.state.users ==
                   s.users[id := s.users[id].(passwordHash := Some(password.hash), emailVerified := true)]
  {
    ResetIs(s, token, password);
    assert forall l :: HasSecret(s.links, l, token) ==> l == token;
    assert GoodForReset(s, token, token) ==> HasSecret(s.links, token, token);
  }

  /**
    Signing in with Google links an account that was there before only when Google vouches
    for the address, and the account is live, has it, has proven it, and has no password.
   */
  lemma GoogleLinksOnlyProvenAccounts(now: Time, linkTtl: nat, calls: seq<Call>, sub: Sub, email: Address,
                                      verified: bool)
    requires var s := Run(Init(now, linkTtl), calls);
             var after := Apply(s, GoogleLogin(sub, email, verified)).state.social;
             sub in after && sub !in s.social && after[sub].userId in s.users
    ensures var s := Run(Init(now, linkTtl), calls);
            var r := Apply(s, GoogleLogin(sub, email, verified));
            var id := r.state.social[sub].userId;
            && r.outcome == Ok && verified && LiveWith(s.users, id, email)
            && s.users[id].emailVerified && s.users[id].passwordHash.None?
            && r.state.users == s.users && r.state.social == s.social[sub := r.state.social[sub]]
  {
    CallsEndAsMeant(now, linkTtl, calls, GoogleLogin(sub, email, verified));
  }
}
