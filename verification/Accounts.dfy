/**
  The account calls one at a time: registration, profile updates, emailed links, Google
  sign-in and bind, removal. What each does to the users, links and social tables.
 */
module Accounts {
  import opened Base
  import opened Tables
  import opened Users
  import opened Links
  import opened SocialAccounts
  import GoogleBind

  /** Where a user is known to control an address: a link mailed there came back, or Google says so. */
  datatype Proof = Proof(userId: Id, address: Address)

  /**
    The tables, the supply of fresh ids and secrets, and, for the record, the proofs given.
    A refresh-token or session revocation changes none of this and is left to those tables.
   */
  datatype State = State(
    now: Time,
    supply: nat,
    linkTtl: nat,
    users: UserTable,
    links: LinkTable,
    social: SocialTable,
    proofs: set<Proof>)

  datatype Reason =
    | UserNotFound
    | EmailTakenReason
    | WeakPassword
    | CurrentPasswordRequired
    | InvalidCredentials
    | AccountHasNoEmail
    | InvalidLink
    | LinkExpired
    | InvalidGrant
    | GoogleEmailUnverified
    | AccountExists
    | GoogleRefused(outcome: GoogleBind.Outcome)

  /** The last two are the database refusing a write the service thought was safe. */
  datatype Outcome = Ok | Refused(reason: Reason) | DuplicateEmailKey | DuplicateOtherKey

  datatype Result = Result(state: State, outcome: Outcome)

  /** A chosen password: its hash, and whether the password policy accepts it. */
  datatype Password = Password(hash: Digest, acceptable: bool)

  datatype Call =
    | Tick(elapsed: nat)
    | Register(email: Address, password: Password)
    | CreateGuest(username: nat, password: Password)
    | UpdateProfile(id: Id, newEmail: Option<Address>, newPassword: Option<Password>, current: Option<Digest>,
                    asOwner: bool)
    | Remove(id: Id)
    | StartVerification(id: Id, email: Address)
    | Resend(email: Address)
    | StartEmailChange(id: Id, email: Address)
    | StartAccountDeletion(id: Id)
    | StartPasswordReset(email: Address)
    | Confirm(token: Secret)
    | ResetPassword(token: Secret, password: Password)
    | VerifyEmailCall(token: Secret)
    | GoogleLogin(sub: Sub, email: Address, verified: bool)
    | LinkGoogle(id: Id, identity: GoogleBind.Identity)
    | Erase(id: Id)
    | PruneLinks(cutoff: int)

  function Refuse(s: State, reason: Reason): Result {
    Result(s, Refused(reason))
  }

  function NewUser(email: Option<Address>, username: Option<nat>, passwordHash: Option<Digest>, verified: bool): User {
    User(email, username, passwordHash, verified, None)
  }

  /** users.create with a fresh id. */
  function Created(s: State, user: User): Result {
    if user.email.Some? && Taken(s.users, user.email.value) then Result(s, DuplicateEmailKey)
    else if UsernameClash(s.users, user.username) || s.supply in s.users then Result(s, DuplicateOtherKey)
    else Result(s.(users := s.users[s.supply := user], supply := s.supply + 1), Ok)
  }

  /** findAnyByEmail: some row with the address, deleted or not. */
  ghost function AnyHolder(users: UserTable, email: Address): (id: Option<Id>)
    ensures id.Some? ==> id.value in users && CiEquals(users[id.value].email, Some(email))
    ensures id.None? <==> !Taken(users, email)
  {
    if Taken(users, email) then
      var k :| k in users && CiEquals(users[k].email, Some(email));
      Some(k)
    else None
  }

  /** The check before a row takes an address: whoever holds it must be that row itself. */
  ghost predicate HeldByOther(users: UserTable, id: Id, email: Address) {
    var holder := AnyHolder(users, email);
    holder.Some? && holder.value != id
  }

  ghost function RegisterCall(s: State, email: Address, password: Password): Result {
    if AnyHolder(s.users, email).Some? then Refuse(s, EmailTakenReason)
    else if !password.acceptable then Refuse(s, WeakPassword)
    else Created(s, NewUser(Some(email), None, Some(password.hash), false))
  }

  /** A new address starts unverified; a repeated one keeps its mark. */
  function ProfilePatch(user: User, email: Option<Address>, password: Option<Password>): Patch {
    Patch(email, if password.Some? then Some(password.value.hash) else None,
          if email.Some? && email != user.email then Some(false) else None)
  }

  function PasswordRefusal(user: User, password: Option<Password>, current: Option<Digest>,
                           asOwner: bool): Option<Reason> {
    if password.None? then None
    else if asOwner && current.None? then Some(CurrentPasswordRequired)
    else if asOwner && (user.passwordHash.None? || current != user.passwordHash) then Some(InvalidCredentials)
    else if !password.value.acceptable then Some(WeakPassword)
    else None
  }

  /** repo.update, with what the caller answers when the row is missing. */
  function UpdateRow(s: State, id: Id, patch: Patch, missing: Reason): Result {
    match UpdateResult(s.users, id, patch)
    case Updated => Result(s.(users := AfterUpdate(s.users, id, patch)), Ok)
    case Missing => Refuse(s, missing)
    case DuplicateEmail => Result(s, DuplicateEmailKey)
  }

  /** In an update the empty string counts as no new address. */
  function Given(email: Option<Address>): Option<Address> {
    if email == Some(EMPTY_ADDRESS) then None else email
  }

  function LinksClosed(s: State, userId: Id): State {
    s.(links := Rewritten(s.links, Open(userId), Used(s.now)))
  }

  ghost function UpdateRefusal(s: State, id: Id, email: Option<Address>, password: Option<Password>,
                               current: Option<Digest>, asOwner: bool): Option<Reason> {
    if !Live(s.users, id) then Some(Reason.UserNotFound)
    else if email.Some? && HeldByOther(s.users, id, email.value) then Some(EmailTakenReason)
    else PasswordRefusal(s.users[id], password, current, asOwner)
  }

  ghost function UpdateCall(s: State, id: Id, newEmail: Option<Address>, password: Option<Password>,
                            current: Option<Digest>, asOwner: bool): Result {
    var email := Given(newEmail);
    var refusal := UpdateRefusal(s, id, email, password, current, asOwner);
    if refusal.Some? then Refuse(s, refusal.value)
    else
      var r := UpdateRow(s, id, ProfilePatch(s.users[id], email, password), Reason.UserNotFound);
      if r.outcome.Ok? && password.Some? then Result(LinksClosed(r.state, id), Ok) else r
  }

  /** Mints a link about `email` and mails it to `mailedTo`. */
  function Minted(s: State, userId: Id, purpose: Purpose, email: Address, mailedTo: Address): State {
    var link := Link(userId, email, purpose, HashToken(s.supply), s.now + s.linkTtl, None, mailedTo);
    s.(links := s.links[s.supply := link], supply := s.supply + 1)
  }

  ghost function LiveHolder(users: UserTable, email: Address): (id: Option<Id>)
    ensures id.Some? ==> Live(users, id.value) && CiEquals(users[id.value].email, Some(email))
    ensures id.None? ==> forall k :: Live(users, k) ==> !CiEquals(users[k].email, Some(email))
  {
    if exists k :: Live(users, k) && CiEquals(users[k].email, Some(email)) then
      var k :| Live(users, k) && CiEquals(users[k].email, Some(email));
      Some(k)
    else None
  }

  ghost function EmailChangeCall(s: State, id: Id, email: Address): Result {
    if !Live(s.users, id) then Refuse(s, UserNotFound)
    else if !HasAddress(s.users[id]) then Refuse(s, AccountHasNoEmail)
    else if s.users[id].email == Some(email) then Result(s, Ok)
    else if HeldByOther(s.users, id, email) then Refuse(s, EmailTakenReason)
    else Result(Minted(s, id, EmailChange, email, s.users[id].email.value), Ok)
  }

  function DeletionCall(s: State, id: Id): Result {
    if !Live(s.users, id) then Refuse(s, UserNotFound)
    else if !HasAddress(s.users[id]) then Refuse(s, AccountHasNoEmail)
    else Result(Minted(s, id, AccountDeletion, s.users[id].email.value, s.users[id].email.value), Ok)
  }

  /** The answer never tells whether the address is registered; the link goes to the stored spelling. */
  ghost function ResetRequest(s: State, email: Address): Result {
    var holder := LiveHolder(s.users, email);
    if holder.None? || !HasAddress(s.users[holder.value]) then Result(s, Ok)
    else
      var stored := s.users[holder.value].email.value;
      Result(Minted(s, holder.value, PasswordReset, stored, stored), Ok)
  }

  ghost function ResendCall(s: State, email: Address): Result {
    var holder := LiveHolder(s.users, email);
    if holder.None? || s.users[holder.value].emailVerified || !HasAddress(s.users[holder.value]) then Result(s, Ok)
    else
      var stored := s.users[holder.value].email.value;
      Result(Minted(s, holder.value, VerifyEmail, stored, stored), Ok)
  }

  // ----- redeeming a link

  /** What a link is refused for before anything is written, given the purposes the endpoint takes. */
  function LinkRefusal(s: State, id: Option<Id>, purposes: set<Purpose>): Option<Reason> {
    if id.None? || id.value !in s.links || s.links[id.value].purpose !in purposes then Some(InvalidLink)
    else if s.links[id.value].consumedAt.Some? then Some(InvalidLink)
    else if s.links[id.value].expiresAt <= s.now then Some(LinkExpired)
    else if !Live(s.users, s.links[id.value].userId) then Some(InvalidLink)
    else None
  }

  /** The link is used up, and whoever used it has the mail it was sent to. */
  function Redeemed(s: State, id: Id): State
    requires id in s.links
  {
    s.(links := Consumed(s.links, id, s.now),
       proofs := s.proofs + {Proof(s.links[id].userId, s.links[id].mailedTo)})
  }

  ghost function ConfirmCall(s: State, token: Secret): Result {
    var id := LinkWithHash(s.links, HashToken(token));
    var refusal := LinkRefusal(s, id, {EmailChange, AccountDeletion});
    if refusal.Some? then Refuse(s, refusal.value)
    else
      var link := s.links[id.value];
      if link.purpose == EmailChange && HeldByOther(s.users, link.userId, link.email) then Refuse(s, EmailTakenReason)
      else
        var used := Redeemed(s, id.value);
        if link.purpose == EmailChange then
          UpdateRow(used, link.userId, Patch(Some(link.email), None, Some(false)), InvalidLink)
        else
          Result(used.(users := used.users[link.userId := used.users[link.userId].(deletedAt := Some(s.now))]), Ok)
  }

  ghost function ResetCall(s: State, token: Secret, password: Password): Result {
    if !password.acceptable then Refuse(s, WeakPassword)
    else
      var id := LinkWithHash(s.links, HashToken(token));
      var refusal := LinkRefusal(s, id, {PasswordReset});
      if refusal.Some? then Refuse(s, refusal.value)
      else
        var link := s.links[id.value];
        if s.users[link.userId].email != Some(link.email) then Refuse(s, InvalidLink)
        else
          var used := Redeemed(s, id.value);
          var patched :=
            used.(users := AfterUpdate(used.users, link.userId, Patch(None, Some(password.hash), Some(true))));
          Result(LinksClosed(patched, link.userId), Ok)
  }

  ghost function VerifyCall(s: State, token: Secret): Result {
    var id := LinkWithHash(s.links, HashToken(token));
    var refusal := LinkRefusal(s, id, {VerifyEmail});
    if refusal.Some? then Refuse(s, refusal.value)
    else
      var link := s.links[id.value];
      if s.users[link.userId].email != Some(link.email) then Refuse(s, InvalidLink)
      else
        var used := Redeemed(s, id.value);
        Result(used.(users := used.users[link.userId := used.users[link.userId].(emailVerified := true)]), Ok)
  }

  // ----- Google

  /** social.link with a fresh id. */
  function LinkRow(s: State, sub: Sub, userId: Id): Result {
    if sub in s.social || exists k :: k in s.social && s.social[k].id == s.supply then Result(s, DuplicateOtherKey)
    else Result(s.(social := s.social[sub := Account(s.supply, userId)], supply := s.supply + 1), Ok)
  }

  ghost function GoogleLoginCall(s: State, sub: Sub, email: Address, verified: bool): Result {
    if sub in s.social then
      if Live(s.users, s.social[sub].userId) then Result(s, Ok) else Refuse(s, InvalidGrant)
    else if !verified then Refuse(s, GoogleEmailUnverified)
    else
      var holder := LiveHolder(s.users, email);
      if holder.Some? then
        var user := s.users[holder.value];
        if user.passwordHash.Some? || !user.emailVerified then Refuse(s, AccountExists)
        else LinkRow(s, sub, holder.value)
      else if AnyHolder(s.users, email).Some? then Refuse(s, EmailTakenReason)
      else
        var created := Created(s, NewUser(Some(email), None, None, true));
        if created.outcome != Ok then created
        else
          LinkRow(created.state.(proofs := created.state.proofs + {Proof(s.supply, email)}), sub, s.supply)
  }

  /** The bind with nothing failing; adopting Google's address comes with Google's word for it. */
  function LinkGoogleCall(s: State, id: Id, identity: GoogleBind.Identity): Result {
    var r := GoogleBind.Bind(GoogleBind.State(s.users, s.social), id, identity, s.supply, GoogleBind.NO_FAULTS);
    if r.outcome.Failed? then Result(s, DuplicateEmailKey)
    else if !r.outcome.Bound? then Refuse(s, GoogleRefused(r.outcome))
    else Result(s.(users := r.state.users, social := r.state.social, supply := s.supply + 1,
                   proofs := s.proofs + if HasAddress(s.users[id]) then {} else {Proof(id, identity.email)}), Ok)
  }

  ghost function Apply(s: State, call: Call): Result {
    match call
    case Tick(elapsed) => Result(s.(now := s.now + elapsed), Ok)
    case Register(email, password) => RegisterCall(s, email, password)
    case CreateGuest(username, password) => Created(s, NewUser(None, Some(username), Some(password.hash), false))
    case UpdateProfile(id, email, password, current, asOwner) => UpdateCall(s, id, email, password, current, asOwner)
    case Remove(id) =>
      if !Live(s.users, id) then Refuse(s, UserNotFound)
      else Result(s.(users := s.users[id := s.users[id].(deletedAt := Some(s.now))]), Ok)
    case StartVerification(id, email) => Result(Minted(s, id, VerifyEmail, email, email), Ok)
    case Resend(email) => ResendCall(s, email)
    case StartEmailChange(id, email) => EmailChangeCall(s, id, email)
    case StartAccountDeletion(id) => DeletionCall(s, id)
    case StartPasswordReset(email) => ResetRequest(s, email)
    case Confirm(token) => ConfirmCall(s, token)
    case ResetPassword(token, password) => ResetCall(s, token, password)
    case VerifyEmailCall(token) => VerifyCall(s, token)
    case GoogleLogin(sub, email, verified) => GoogleLoginCall(s, sub, email, verified)
    case LinkGoogle(id, identity) => LinkGoogleCall(s, id, identity)
    case Erase(id) =>
      Result(s.(users := s.users - {id}, links := Without(s.links, Links.OwnedBy(id)),
                social := Without(s.social, SocialAccounts.OwnedBy(id))), Ok)
    case PruneLinks(cutoff) => Result(s.(links := Without(s.links, Links.ExpiredBefore(cutoff))), Ok)
  }

  ghost function Run(s: State, calls: seq<Call>): State
    decreases calls
  {
    if calls == [] then s else Run(Apply(s, calls[0]).state, calls[1..])
  }

  function Init(now: Time, linkTtl: nat): State {
    State(now, 0, linkTtl, map[], map[], map[], {})
  }
}
