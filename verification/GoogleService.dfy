/** Signing in with Google, and binding a Google account while signed in, when no write fails. */
module GoogleService {
  import opened Base
  import opened Users
  import opened SocialAccounts
  import opened Accounts
  import GoogleBind
  import VerificationService

  class GoogleService {
    const users: UserRepository
    const social: SocialAccountRepository

    constructor (users: UserRepository, social: SocialAccountRepository)
      ensures this.users == users && this.social == social
    {
      this.users, this.social := users, social;
    }

    ghost predicate Shows(s: State)
      reads users, social
    {
      s.users == users.byId && s.social == social.byKey
    }

    /** Never creates or links an account on an address Google has not verified. */
    method LoginWithGoogle(ghost s: State, userDraw: Id, linkDraw: Id, sub: Sub, email: Address, verified: bool)
      returns (outcome: Outcome, userId: Option<Id>)
      requires Shows(s) && UniqueEmails(s.users) && userDraw == s.supply
      requires linkDraw == if LiveHolder(s.users, email).Some? then s.supply else s.supply + 1
      modifies users, social
      ensures var r := GoogleLoginCall(s, sub, email, verified); Shows(r.state) && outcome == r.outcome
      ensures outcome.Ok? ==>
                userId.Some? && LinkedTo(social.byKey, sub, userId.value) && Live(users.byId, userId.value)
    {
      var existing := social.FindByProviderAccount(sub);
      if existing.Some? {
        var subject := users.FindById(existing.value);
        return if subject.Some? then Outcome.Ok else Refused(InvalidGrant), existing;
      }
      if !verified {
        return Refused(GoogleEmailUnverified), None;
      }
      var holder := users.FindByEmail(email);
      VerificationService.OneHolder(s, email, holder);
      if holder.None? {
        var taken := users.FindAnyByEmail(email);
        if taken.Some? {
          return Refused(EmailTakenReason), None;
        }
        var created := users.Create(userDraw, NewUser(Some(email), None, None, true));
        if !created {
          return DuplicateOtherKey, None;
        }
        var linked := social.Link(linkDraw, userDraw, sub);
        return if linked then Outcome.Ok else DuplicateOtherKey, Some(userDraw);
      }
      var user := users.byId[holder.value];
      if user.passwordHash.Some? || !user.emailVerified {
        return Refused(AccountExists), None;
      }
      var linked := social.Link(linkDraw, holder.value, sub);
      return if linked then Outcome.Ok else DuplicateOtherKey, holder;
    }

    /** Link first, to claim the Google account; then adopt its address; undo the link when that fails. */
    method LinkGoogleToUser(ghost s: State, draw: Id, userId: Id, identity: GoogleBind.Identity)
      returns (outcome: GoogleBind.Outcome)
      requires Shows(s) && UniqueEmails(s.users) && draw == s.supply
      requires forall k :: k in s.social ==> s.social[k].id != draw
      modifies users, social
      ensures GoogleBind.Result(GoogleBind.State(users.byId, social.byKey), outcome) ==
              GoogleBind.Bind(GoogleBind.State(s.users, s.social), userId, identity, draw, GoogleBind.NO_FAULTS)
    {
      var user := users.FindById(userId);
      if user.None? {
        return GoogleBind.Outcome.UserNotFound;
      }
      if !identity.emailVerified {
        return GoogleBind.EmailUnverified;
      }
      var existing := social.FindByProviderAccount(identity.sub);
      if existing.Some? && existing.value != userId {
        return GoogleBind.AlreadyLinked;
      }
      var takesEmail := !HasAddress(user.value);
      if existing.Some? && !takesEmail {
        return GoogleBind.Bound;
      }
      if takesEmail {
        var holder := users.FindAnyByEmail(identity.email);
        if holder.Some? {
          return GoogleBind.EmailTaken;
        }
      }
      if existing.None? {
        var linked := social.Link(draw, userId, identity.sub);
      }
      if takesEmail {
        var patched := users.Update(userId, GoogleBind.Adopted(identity.email));
        if !patched.Updated? {
          if existing.None? {
            var n := social.DeleteAllForUser(userId);
          }
          return if patched.Missing? then GoogleBind.EmailTaken else GoogleBind.Failed;
        }
      }
      return GoogleBind.Bound;
    }
  }
}
