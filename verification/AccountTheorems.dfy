/** What account calls keep when they run one at a time, from empty tables on. */
module AccountTheorems {
  import opened Base
  import opened Users
  import opened Links
  import opened SocialAccounts
  import opened Accounts
  import GoogleBind

  /** A verified account has an address, and that address was proven for it. */
  ghost predicate Verified(users: UserTable, proofs: set<Proof>) {
    forall id :: id in users && users[id].emailVerified ==>
      users[id].email.Some? && Proof(id, users[id].email.value) in proofs
  }

  /** Every id and secret in use was drawn from the supply. */
  ghost predicate Drawn(s: State) {
    && (forall id :: id in s.users ==> id < s.supply)
    && (forall l :: l in s.links ==> l < s.supply && s.links[l].tokenHash == HashToken(l))
    && (forall k :: k in s.social ==> s.social[k].id < s.supply)
  }

  /** A link that can verify an address was mailed to that very address. */
  ghost predicate MailedHome(links: LinkTable) {
    forall l :: l in links && (links[l].purpose == VerifyEmail || links[l].purpose == PasswordReset) ==>
      links[l].mailedTo == links[l].email
  }

  ghost predicate Inv(s: State) {
    UniqueEmails(s.users) && Verified(s.users, s.proofs) && Drawn(s) && MailedHome(s.links)
  }

  /** What a call must come to: the invariant kept, and no address written twice. */
  ghost predicate Sound(r: Result) {
    Inv(r.state) && !r.outcome.DuplicateEmailKey?
  }

  // ----- one write

  lemma CreatedKeeps(s: State, user: User, proofs: set<Proof>)
    requires Inv(s) && (user.email.Some? ==> !Taken(s.users, user.email.value))
    requires user.emailVerified ==> user.email.Some? && Proof(s.supply, user.email.value) in proofs
    ensures var r := Created(s, user); Sound(Result(r.state.(proofs := s.proofs + proofs), r.outcome))
  {
  }

  lemma MintedKeeps(s: State, userId: Id, purpose: Purpose, email: Address, mailedTo: Address)
    requires Inv(s) && (purpose == VerifyEmail || purpose == PasswordReset ==> mailedTo == email)
    ensures Inv(Minted(s, userId, purpose, email, mailedTo))
  {
  }

  lemma LinkRowKeeps(s: State, sub: Sub, userId: Id)
    requires Inv(s)
    ensures Sound(LinkRow(s, sub, userId))
  {
  }

  // ----- one call

  lemma UpdateCallSound(s: State, id: Id, email: Option<Address>, password: Option<Password>, current: Option<Digest>,
                        asOwner: bool)
    requires Inv(s)
    ensures Sound(UpdateCall(s, id, email, password, current, asOwner))
  {
  }

  lemma ConfirmSound(s: State, token: Secret)
    requires Inv(s)
    ensures Sound(ConfirmCall(s, token))
  {
  }

  lemma ResetSound(s: State, token: Secret, password: Password)
    requires Inv(s)
    ensures Sound(ResetCall(s, token, password))
  {
  }

  lemma VerifySound(s: State, token: Secret)
    requires Inv(s)
    ensures Sound(VerifyCall(s, token))
  {
  }

  lemma GoogleLoginSound(s: State, sub: Sub, email: Address, verified: bool)
    requires Inv(s)
    ensures Sound(GoogleLoginCall(s, sub, email, verified))
  {
    var holder := LiveHolder(s.users, email);
    if holder.Some? {
      LinkRowKeeps(s, sub, holder.value);
    } else if !Taken(s.users, email) {
      var user := NewUser(Some(email), None, None, true);
      CreatedKeeps(s, user, {Proof(s.supply, email)});
      LinkRowKeeps(Created(s, user).state.(proofs := s.proofs + {Proof(s.supply, email)}), sub, s.supply);
    }
  }

  /** In a serial call the pre-check settles it: the patch meets neither a duplicate nor a missing row. */
  lemma LinkGoogleSound(s: State, id: Id, identity: GoogleBind.Identity)
    requires Inv(s)
    ensures Sound(LinkGoogleCall(s, id, identity))
  {
  }

  lemma RemovalSound(s: State, id: Id)
    requires Inv(s)
    ensures Sound(Apply(s, Remove(id))) && Sound(Apply(s, Erase(id)))
  {
  }

  lemma RequestSound(s: State, call: Call)
    requires Inv(s)
    requires call.StartVerification? || call.Resend? || call.StartEmailChange? || call.StartAccountDeletion?
             || call.StartPasswordReset?
    ensures Sound(Apply(s, call))
  {
    match call {
      case StartVerification(id, email) => MintedKeeps(s, id, VerifyEmail, email, email);
      case Resend(email) => {
        var holder := LiveHolder(s.users, email);
        if holder.Some? {
          var stored := s.users[holder.value].email.value;
          MintedKeeps(s, holder.value, VerifyEmail, stored, stored);
        }
      }
      case StartEmailChange(id, email) => {
        if Live(s.users, id) && s.users[id].email.Some? {
          MintedKeeps(s, id, EmailChange, email, s.users[id].email.value);
        }
      }
      case StartAccountDeletion(id) => {
        if Live(s.users, id) && s.users[id].email.Some? {
          MintedKeeps(s, id, AccountDeletion, s.users[id].email.value, s.users[id].email.value);
        }
      }
      case StartPasswordReset(email) => {
        var holder := LiveHolder(s.users, email);
        if holder.Some? {
          var stored := s.users[holder.value].email.value;
          MintedKeeps(s, holder.value, PasswordReset, stored, stored);
        }
      }
      case _ =>
    }
  }

  lemma CallSound(s: State, call: Call)
    requires Inv(s)
    ensures Sound(Apply(s, call))
  {
    match call {
      case Register(email, password) =>
        if !Taken(s.users, email) {
          CreatedKeeps(s, NewUser(Some(email), None, Some(password.hash), false), {});
          assert s.proofs + {} == s.proofs;
        }
      case CreateGuest(username, password) => {
        CreatedKeeps(s, NewUser(None, Some(username), Some(password.hash), false), {});
        assert s.proofs + {} == s.proofs;
      }
      case UpdateProfile(id, email, password, current, asOwner) =>
        UpdateCallSound(s, id, email, password, current, asOwner);
      case Confirm(token) => ConfirmSound(s, token);
      case ResetPassword(token, password) => ResetSound(s, token, password);
      case VerifyEmailCall(token) => VerifySound(s, token);
      case GoogleLogin(sub, email, verified) => GoogleLoginSound(s, sub, email, verified);
      case LinkGoogle(id, identity) => LinkGoogleSound(s, id, identity);
      case Remove(id) => RemovalSound(s, id);
      case Erase(id) => RemovalSound(s, id);
      case Tick(_) =>
      case PruneLinks(_) =>
      case _ => RequestSound(s, call);
    }
  }

  // ----- every run

  lemma {:induction false} RunKeeps(s: State, calls: seq<Call>)
    requires Inv(s)
    ensures Inv(Run(s, calls))
    decreases calls
  {
    if calls != [] {
      CallSound(s, calls[0]);
      RunKeeps(Apply(s, calls[0]).state, calls[1..]);
    }
  }

  /** No two accounts, soft-deleted ones included, ever hold addresses the collation calls equal. */
  lemma AddressesStayUnique(now: Time, linkTtl: nat, calls: seq<Call>)
    ensures UniqueEmails(Run(Init(now, linkTtl), calls).users)
  {
    RunKeeps(Init(now, linkTtl), calls);
  }

  /** The address checks suffice: after any calls, no further call has the database refuse its address. */
  lemma NoDuplicateAddressError(now: Time, linkTtl: nat, calls: seq<Call>, call: Call)
    ensures !Apply(Run(Init(now, linkTtl), calls), call).outcome.DuplicateEmailKey?
  {
    RunKeeps(Init(now, linkTtl), calls);
    CallSound(Run(Init(now, linkTtl), calls), call);
  }

  /** The only key the database may refuse after that is the random name of a new guest. */
  lemma OtherKeysClashOnlyForGuests(now: Time, linkTtl: nat, calls: seq<Call>, call: Call)
    ensures var s := Run(Init(now, linkTtl), calls);
            Apply(s, call).outcome.DuplicateOtherKey? <==>
              call.CreateGuest? && UsernameClash(s.users, Some(call.username))
  {
    RunKeeps(Init(now, linkTtl), calls);
    var s := Run(Init(now, linkTtl), calls);
    if call.GoogleLogin? {
      GoogleLoginFindsFreeKeys(s, call.sub, call.email, call.verified);
    } else {
      OthersFindFreeKeys(s, call);
    }
  }

  lemma GoogleLoginFindsFreeKeys(s: State, sub: Sub, email: Address, verified: bool)
    requires Drawn(s)
    ensures !GoogleLoginCall(s, sub, email, verified).outcome.DuplicateOtherKey?
  {
  }

  lemma OthersFindFreeKeys(s: State, call: Call)
    requires Drawn(s) && !call.GoogleLogin?
    ensures Apply(s, call).outcome.DuplicateOtherKey? <==>
              call.CreateGuest? && UsernameClash(s.users, Some(call.username))
  {
  }

  /** A call redeems a link when it uses up an unused one whose secret it was given. */
  predicate Redeems(s: State, call: Call, l: Id) {
    && (call.Confirm? || call.ResetPassword? || call.VerifyEmailCall?)
    && Consumable(s.links, l) && s.links[l].tokenHash == HashToken(call.token)
    && s.now < s.links[l].expiresAt
  }

  /** The call redeems a link of that account that was mailed to that address. */
  ghost predicate ComesBack(s: State, call: Call, p: Proof) {
    exists l :: Redeems(s, call, l) && s.links[l].userId == p.userId && s.links[l].mailedTo == p.address
                && Apply(s, call).state.links[l].consumedAt.Some?
  }

  /** Google vouches for the address, in a bind of that account or in the sign-in that creates it. */
  ghost predicate Vouched(s: State, call: Call, p: Proof) {
    match call
    case LinkGoogle(id, identity) =>
      id == p.userId && identity.emailVerified && identity.email == p.address && Apply(s, call).outcome.Ok?
    case GoogleLogin(_, email, verified) =>
      verified && email == p.address && p.userId !in s.users && p.userId in Apply(s, call).state.users
    case _ => false
  }

  /** The call shows that the user controls the address. */
  ghost predicate Earns(s: State, call: Call, p: Proof) {
    ComesBack(s, call, p) || Vouched(s, call, p)
  }

  /** A proof is recorded only by a call that earns it. */
  lemma ProofsAreEarned(s: State, call: Call, p: Proof)
    requires p in Apply(s, call).state.proofs && p !in s.proofs
    ensures Earns(s, call, p)
  {
    if call.Confirm? || call.ResetPassword? || call.VerifyEmailCall? {
      LinkProofsComeBack(s, call, p);
    }
  }

  lemma LinkProofsComeBack(s: State, call: Call, p: Proof)
    requires call.Confirm? || call.ResetPassword? || call.VerifyEmailCall?
    requires p in Apply(s, call).state.proofs && p !in s.proofs
    ensures ComesBack(s, call, p)
  {
    var id := LinkWithHash(s.links, HashToken(call.token));
    assert id.Some? && Redeems(s, call, id.value);
  }

  /** Some call of the run earns the proof, in the state the calls before it led to. */
  ghost predicate EarnedDuring(s: State, calls: seq<Call>, p: Proof) {
    exists i :: 0 <= i < |calls| && Earns(Run(s, calls[..i]), calls[i], p)
  }

  lemma {:induction false} EveryProofWasEarned(s: State, calls: seq<Call>, p: Proof)
    requires p in Run(s, calls).proofs && p !in s.proofs
    ensures EarnedDuring(s, calls, p)
    decreases calls
  {
    var next := Apply(s, calls[0]).state;
    if p in next.proofs {
      ProofsAreEarned(s, calls[0], p);
      assert calls[..0] == [];
      assert Earns(Run(s, calls[..0]), calls[0], p);
    } else {
      EveryProofWasEarned(next, calls[1..], p);
      var i :| 0 <= i < |calls[1..]| && Earns(Run(next, calls[1..][..i]), calls[1..][i], p);
      RunsFromNext(s, calls, i);
      assert Earns(Run(s, calls[..i + 1]), calls[i + 1], p);
    }
  }

  lemma RunsFromNext(s: State, calls: seq<Call>, i: nat)
    requires calls != [] && i < |calls[1..]|
    ensures Run(s, calls[..i + 1]) == Run(Apply(s, calls[0]).state, calls[1..][..i])
  {
    assert calls[..i + 1][1..] == calls[1..][..i];
  }

  /**
    In every run, a verified account has an address, and an earlier call of that run proved
    it: an unused, unexpired link of that account, mailed to that address, was redeemed, or
    Google vouched for the address when the account was bound to it or created by it.
   */
  lemma VerifiedMeansProven(now: Time, linkTtl: nat, calls: seq<Call>, id: Id)
    requires id in Run(Init(now, linkTtl), calls).users && Run(Init(now, linkTtl), calls).users[id].emailVerified
    ensures var user := Run(Init(now, linkTtl), calls).users[id];
            user.email.Some? && EarnedDuring(Init(now, linkTtl), calls, Proof(id, user.email.value))
  {
    RunKeeps(Init(now, linkTtl), calls);
    var user := Run(Init(now, linkTtl), calls).users[id];
    EveryProofWasEarned(Init(now, linkTtl), calls, Proof(id, user.email.value));
  }

  /** The link a call redeems, of a purpose and for an account. */
  ghost predicate RedeemsFor(s: State, call: Call, purpose: Purpose, id: Id) {
    exists l :: Redeems(s, call, l) && s.links[l].purpose == purpose && s.links[l].userId == id
  }

  /**
    An existing account's password changes only by a reset link of that account, or by an
    update of that account; and the owner must give the current password, so that an account
    without one cannot be given one that way.
   */
  lemma PasswordChangesAreAuthorised(s: State, call: Call, id: Id)
    requires id in s.users && id in Apply(s, call).state.users
    requires s.supply !in s.users
    requires Apply(s, call).state.users[id].passwordHash != s.users[id].passwordHash
    ensures || (call.ResetPassword? && call.password.acceptable && RedeemsFor(s, call, PasswordReset, id))
            || (call.UpdateProfile? && call.id == id && call.newPassword.Some? && call.newPassword.value.acceptable
                && (call.asOwner ==> s.users[id].passwordHash.Some? && call.current == s.users[id].passwordHash))
  {
    if call.ResetPassword? {
      assert Redeems(s, call, LinkWithHash(s.links, HashToken(call.token)).value);
    } else if call.Confirm? {
      ConfirmKeepsPasswords(s, call.token, id);
    }
  }

  lemma ConfirmKeepsPasswords(s: State, token: Secret, id: Id)
    requires id in s.users && id in ConfirmCall(s, token).state.users
    ensures ConfirmCall(s, token).state.users[id].passwordHash == s.users[id].passwordHash
  {
  }

  /** The call redeems a link of the account for changing its address to this one. */
  ghost predicate ConfirmsChange(s: State, call: Call, id: Id, email: Option<Address>) {
    exists l :: Redeems(s, call, l) && s.links[l].purpose == EmailChange && s.links[l].userId == id
                && Some(s.links[l].email) == email
  }

  /**
    An existing account's address changes only by an update of that account, by a link
    confirming a change of that account's address to just that one, or by a bind to Google
    of an account that had none.
   */
  lemma AddressChangesAreAuthorised(s: State, call: Call, id: Id)
    requires id in s.users && id in Apply(s, call).state.users
    requires s.supply !in s.users
    requires Apply(s, call).state.users[id].email != s.users[id].email
    ensures var after := Apply(s, call).state.users[id];
            && (after.emailVerified <==> call.LinkGoogle?)
            && (|| (call.UpdateProfile? && call.id == id && call.newEmail == after.email)
                || (call.Confirm? && ConfirmsChange(s, call, id, after.email))
                || (call.LinkGoogle? && call.id == id && after.email == Some(call.identity.email)
                    && !HasAddress(s.users[id])))
  {
    if call.Confirm? {
      ConfirmationsChangeTo(s, call, id);
    } else if call.UpdateProfile? {
      UpdatesChangeTo(s, call, id);
    } else if call.LinkGoogle? {
      BindsChangeTo(s, call, id);
    } else if call.GoogleLogin? || call.Register? || call.CreateGuest? {
      SignUpsLeaveAddresses(s, call, id);
    } else {
      OthersLeaveAddresses(s, call, id);
    }
  }

  lemma UpdatesChangeTo(s: State, call: Call, id: Id)
    requires call.UpdateProfile? && id in s.users && id in Apply(s, call).state.users
    requires Apply(s, call).state.users[id].email != s.users[id].email
    ensures var after := Apply(s, call).state.users[id];
            !after.emailVerified && call.id == id && call.newEmail == after.email
  {
  }

  lemma BindsChangeTo(s: State, call: Call, id: Id)
    requires call.LinkGoogle? && id in s.users && id in Apply(s, call).state.users
    requires Apply(s, call).state.users[id].email != s.users[id].email
    ensures var after := Apply(s, call).state.users[id];
            && after.emailVerified && call.id == id && after.email == Some(call.identity.email)
            && !HasAddress(s.users[id])
  {
  }

  lemma SignUpsLeaveAddresses(s: State, call: Call, id: Id)
    requires (call.GoogleLogin? || call.Register? || call.CreateGuest?) && id in s.users && s.supply !in s.users
    ensures id in Apply(s, call).state.users && Apply(s, call).state.users[id] == s.users[id]
  {
  }

  lemma OthersLeaveAddresses(s: State, call: Call, id: Id)
    requires !call.GoogleLogin? && !call.Register? && !call.CreateGuest?
    requires !call.Confirm? && !call.UpdateProfile? && !call.LinkGoogle?
    requires id in s.users && id in Apply(s, call).state.users
    ensures Apply(s, call).state.users[id].email == s.users[id].email
  {
  }

  lemma ConfirmationsChangeTo(s: State, call: Call, id: Id)
    requires call.Confirm? && id in s.users && id in Apply(s, call).state.users
    requires Apply(s, call).state.users[id].email != s.users[id].email
    ensures var after := Apply(s, call).state.users[id];
            !after.emailVerified && ConfirmsChange(s, call, id, after.email)
  {
    assert Redeems(s, call, LinkWithHash(s.links, HashToken(call.token)).value);
  }

  /** A password reset or change leaves the account no unused account-changing link. */
  lemma PasswordChangeClosesLinks(s: State, call: Call, l: Id)
    requires Apply(s, call).outcome.Ok? && l in Apply(s, call).state.links
    requires Consumable(Apply(s, call).state.links, l) && AccountChanging(Apply(s, call).state.links[l].purpose)
    ensures call.UpdateProfile? && call.newPassword.Some? ==> Apply(s, call).state.links[l].userId != call.id
    ensures call.ResetPassword? ==>
              exists k :: Redeems(s, call, k) && Apply(s, call).state.links[l].userId != s.links[k].userId
  {
  }

  /** A call that is refused, for whatever reason, changes nothing: in particular it uses up no link. */
  lemma RefusalsCostNothing(s: State, call: Call)
    requires Apply(s, call).outcome.Refused?
    ensures Apply(s, call).state == s
  {
  }
}
