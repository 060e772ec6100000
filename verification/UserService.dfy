/** The user service: registration, guests, profile updates, removal and the purge. */
module UserService {
  import opened Base
  import opened Tables
  import opened Rows
  import opened Users
  import opened Accounts
  import Erasure
  import RefreshTokens
  import Sessions
  import AuthCodes
  import Links
  import SocialAccounts
  import Orgs
  import TotpTable
  import Passkeys

  class UserService {
    const users: UserRepository
    const tokens: RefreshTokens.RefreshTokenRepository
    const sessions: Sessions.SessionRepository
    const codes: AuthCodes.AuthCodeRepository
    const links: Links.VerificationTokenRepository
    const social: SocialAccounts.SocialAccountRepository
    const orgs: Orgs.OrgRepository
    const totp: TotpTable.TotpRepository
    const passkeys: Passkeys.PasskeyRepository

    constructor (users: UserRepository, tokens: RefreshTokens.RefreshTokenRepository,
                 sessions: Sessions.SessionRepository, codes: AuthCodes.AuthCodeRepository,
                 links: Links.VerificationTokenRepository, social: SocialAccounts.SocialAccountRepository,
                 orgs: Orgs.OrgRepository, totp: TotpTable.TotpRepository, passkeys: Passkeys.PasskeyRepository)
      ensures this.users == users && this.tokens == tokens && this.sessions == sessions && this.codes == codes
      ensures this.links == links && this.social == social && this.orgs == orgs && this.totp == totp
              && this.passkeys == passkeys
    {
      this.users, this.tokens, this.sessions, this.codes := users, tokens, sessions, codes;
      this.links, this.social, this.orgs, this.totp, this.passkeys := links, social, orgs, totp, passkeys;
    }

    /** The tables read as the state `s` says. */
    ghost predicate Shows(s: State)
      reads users, links, social
    {
      s.users == users.byId && s.links == links.byId && s.social == social.byKey
    }

    ghost function Store(): Erasure.Store
      reads users, tokens, sessions, codes, links, social, orgs, totp, passkeys
    {
      Erasure.Store(users.byId, tokens.byId, sessions.byId, codes.byId, links.byId, social.byKey,
                    users.roles, orgs.members, totp.totp, totp.codes, passkeys.rows, passkeys.challenges)
    }

    method Register(ghost s: State, id: Id, email: Address, password: Password) returns (outcome: Outcome)
      requires Shows(s) && id == s.supply
      modifies users
      ensures var r := RegisterCall(s, email, password); Shows(r.state) && outcome == r.outcome
    {
      var holder := users.FindAnyByEmail(email);
      if holder.Some? {
        return Refused(EmailTakenReason);
      }
      if !password.acceptable {
        return Refused(WeakPassword);
      }
      var ok := users.Create(id, NewUser(Some(email), None, Some(password.hash), false));
      outcome := if ok then Outcome.Ok else DuplicateOtherKey;
    }

    /** The guest joins the organisation of the service, or no token could ever be issued to it. */
    method CreateGuest(ghost s: State, id: Id, enabled: bool, orgId: Id, username: nat, password: Password)
      returns (outcome: Option<Outcome>)
      requires Shows(s) && id == s.supply
      modifies users, orgs
      ensures outcome.None? <==> !enabled
      ensures outcome.None? ==> Shows(s) && orgs.members == old(orgs.members)
      ensures outcome.Some? ==>
                var r := Created(s, NewUser(None, Some(username), Some(password.hash), false));
                && Shows(r.state) && outcome.value == r.outcome
                && orgs.members == old(orgs.members) + if r.outcome.Ok? then {Orgs.Member(id, orgId)} else {}
    {
      if !enabled {
        return None;
      }
      var ok := users.Create(id, NewUser(None, Some(username), Some(password.hash), false));
      if !ok {
        return Some(DuplicateOtherKey);
      }
      orgs.AddMember(id, orgId);
      return Some(Outcome.Ok);
    }

    /** A token says who you are, not that you know the password it was minted from. */
    method Challenge(user: User, password: Password, current: Option<Digest>, requireCurrentPassword: bool)
      returns (refusal: Option<Reason>)
      ensures refusal == PasswordRefusal(user, Some(password), current, requireCurrentPassword)
    {
      if requireCurrentPassword {
        if current.None? {
          return Some(CurrentPasswordRequired);
        }
        if user.passwordHash.None? || current != user.passwordHash {
          return Some(InvalidCredentials);
        }
      }
      return if password.acceptable then None else Some(WeakPassword);
    }

    /** Credentials issued under an old password must not outlive it. */
    method RevokeEverything(id: Id, now: Time)
      modifies links, tokens, sessions, passkeys
      ensures tokens.byId == Rewritten(old(tokens.byId), RefreshTokens.OwnedBy(id), RefreshTokens.Revoke(now))
      ensures sessions.byId == Rewritten(old(sessions.byId), Sessions.OwnedBy(id), Sessions.Ended(now))
      ensures passkeys.rows == Kept(old(passkeys.rows), Passkeys.NotOwnedBy(id))
              && passkeys.challenges == old(passkeys.challenges)
      ensures links.byId == Rewritten(old(links.byId), Links.Open(id), Links.Used(now))
    {
      tokens.RevokeAllForUser(id, now);
      sessions.RevokeAllForUser(id, now);
      var removed := passkeys.DeleteAllPasskeysForUser(id);
      var closed := links.ConsumeAllForUser(id, now);
    }

    /** The checks of an update, and the patch it will write. */
    method Prepare(id: Id, email: Option<Address>, password: Option<Password>, current: Option<Digest>,
                   requireCurrentPassword: bool)
      returns (refusal: Option<Reason>, patch: Patch)
      requires UniqueEmails(users.byId)
      ensures forall s :: Shows(s) ==> refusal == UpdateRefusal(s, id, email, password, current, requireCurrentPassword)
      ensures refusal.None? ==> id in users.byId && patch == ProfilePatch(users.byId[id], email, password)
    {
      patch := Patch(None, None, None);
      var found := users.FindById(id);
      if found.None? {
        return Some(Reason.UserNotFound), patch;
      }
      if email.Some? {
        var holder := users.FindAnyByEmail(email.value);
        if holder.Some? && holder.value != id {
          return Some(EmailTakenReason), patch;
        }
        patch := patch.(email := email);
      }
      assert !(email.Some? && TakenByOther(users.byId, id, email.value));
      if password.Some? {
        refusal := Challenge(found.value, password.value, current, requireCurrentPassword);
        if refusal.Some? {
          return;
        }
        patch := patch.(passwordHash := Some(password.value.hash));
      }
      if email.Some? && email != found.value.email {
        patch := patch.(emailVerified := Some(false));
      }
      refusal := None;
    }

    /** A changed password revokes everything issued under the old one, and only then. */
    method Update(ghost s: State, id: Id, email: Option<Address>, password: Option<Password>, current: Option<Digest>,
                  requireCurrentPassword: bool, now: Time)
      returns (outcome: Outcome)
      requires Shows(s) && now == s.now && UniqueEmails(s.users)
      modifies users, links, tokens, sessions, passkeys
      ensures var r := UpdateCall(s, id, email, password, current, requireCurrentPassword);
              Shows(r.state) && outcome == r.outcome
      ensures var changed := outcome.Ok? && password.Some?;
              && tokens.byId ==
                   (if changed then Rewritten(old(tokens.byId), RefreshTokens.OwnedBy(id), RefreshTokens.Revoke(now))
                    else old(tokens.byId))
              && sessions.byId ==
                   (if changed then Rewritten(old(sessions.byId), Sessions.OwnedBy(id), Sessions.Ended(now))
                    else old(sessions.byId))
              && passkeys.rows ==
                   (if changed then Kept(old(passkeys.rows), Passkeys.NotOwnedBy(id)) else old(passkeys.rows))
              && passkeys.challenges == old(passkeys.challenges) && users.roles == old(users.roles)
    {
      var refusal, patch := Prepare(id, Given(email), password, current, requireCurrentPassword);
      if refusal.Some? {
        return Refused(refusal.value);
      }
      var updated := users.Update(id, patch);
      if updated.Missing? {
        return Refused(Reason.UserNotFound);
      }
      if updated.DuplicateEmail? {
        return DuplicateEmailKey;
      }
      if patch.passwordHash.Some? {
        RevokeEverything(id, now);
      }
      return Outcome.Ok;
    }

    method Remove(id: Id, now: Time) returns (ok: bool)
      modifies users
      ensures ok == Live(old(users.byId), id)
      ensures users.byId == if ok then old(users.byId)[id := old(users.byId)[id].(deletedAt := Some(now))]
                            else old(users.byId)
    {
      ok := users.SoftDelete(id, now);
    }

    method DeleteGrants(which: Erasure.Satellite, id: Id) returns (n: nat)
      requires which.Tokens? || which.Sessions? || which.Codes?
      modifies tokens, sessions, codes
      ensures Store() == Erasure.Cleared(old(Store()), which, id)
    {
      if which.Tokens? {
        n := tokens.DeleteAllForUser(id);
      } else if which.Sessions? {
        n := sessions.DeleteAllForUser(id);
      } else {
        n := codes.DeleteAllForUser(id);
      }
    }

    method DeleteContacts(which: Erasure.Satellite, id: Id) returns (n: nat)
      requires which.Links? || which.Social? || which.Roles?
      modifies links, social, users
      ensures Store() == Erasure.Cleared(old(Store()), which, id)
    {
      if which.Links? {
        n := links.DeleteAllForUser(id);
      } else if which.Social? {
        n := social.DeleteAllForUser(id);
      } else {
        n := users.RemoveAllRoles(id);
      }
    }

    method DeleteMemberships(id: Id) returns (n: nat)
      modifies orgs
      ensures Store() == Erasure.Cleared(old(Store()), Erasure.Memberships, id)
    {
      n := orgs.RemoveAllMemberships(id);
    }

    /** Both TOTP tables. */
    method DeleteTotp(id: Id) returns (n: nat)
      modifies totp
      ensures Store() == Erasure.Cleared(Erasure.Cleared(old(Store()), Erasure.RecoveryCodes, id), Erasure.TotpRows, id)
    {
      n := totp.DeleteAllForUser(id);
    }

    /** Passkeys and challenges. */
    method DeletePasskeys(id: Id) returns (n: nat)
      modifies passkeys
      ensures Store() == Erasure.Cleared(Erasure.Cleared(old(Store()), Erasure.PasskeyRows, id), Erasure.Challenges, id)
    {
      n := passkeys.DeleteAllForUser(id);
    }

    /** One of the seven calls on a single table: it removes the account's rows there and nothing else. */
    method DeleteFrom(which: Erasure.Satellite, id: Id) returns (n: nat)
      requires which in Erasure.SINGLES
      modifies users, tokens, sessions, codes, links, social, orgs
      ensures Store() == Erasure.Cleared(old(Store()), which, id)
    {
      if which.Tokens? || which.Sessions? || which.Codes? {
        n := DeleteGrants(which, id);
      } else if which.Links? || which.Social? || which.Roles? {
        n := DeleteContacts(which, id);
      } else {
        n := DeleteMemberships(id);
      }
    }

    method DeleteFromEach(order: seq<Erasure.Satellite>, id: Id)
      requires forall which :: which in order ==> which in Erasure.SINGLES
      modifies users, tokens, sessions, codes, links, social, orgs
      ensures Store() == Erasure.ClearedEach(old(Store()), order, id)
    {
      for i := 0 to |order|
        invariant Store() == Erasure.ClearedEach(old(Store()), order[..i], id)
      {
        Erasure.OneMore(old(Store()), order[..i], order[i], id);
        assert order[..i + 1] == order[..i] + [order[i]];
        var n := DeleteFrom(order[i], id);
      }
      assert order[..|order|] == order;
    }

    /** The nine calls in the order they are listed, then the row. */
    method PurgeOne(id: Id)
      modifies users, tokens, sessions, codes, links, social, orgs, totp, passkeys
      ensures Store() == Erasure.Erased(old(Store()), {id})
    {
      DeleteFromEach(Erasure.SINGLES, id);
      var n := DeleteTotp(id);
      n := DeletePasskeys(id);
      ghost var cleared := Store();
      Erasure.ListedErases(old(Store()), cleared, id);
      var ok := users.Delete(id);
      assert Store() == cleared.(users := cleared.users - {id});
    }

    /** Erases every account deleted before the cutoff and returns how many there were. */
    method PurgeDeletedBefore(cutoff: int) returns (n: nat)
      modifies users, tokens, sessions, codes, links, social, orgs, totp, passkeys
      ensures Store() == Erasure.Target(old(Store()), cutoff)
      ensures n == |Erasure.Expired(old(Store()), cutoff)|
    {
      var ids := users.FindDeletedBefore(cutoff);
      var todo := ids;
      Erasure.ErasedNobody(Store());
      assert ids - todo == {};
      while todo != {}
        invariant todo <= ids && Store() == Erasure.Erased(old(Store()), ids - todo)
        decreases todo
      {
        var id :| id in todo;
        PurgeOne(id);
        Erasure.ErasedTwice(old(Store()), ids - todo, {id});
        assert (ids - todo) + {id} == ids - (todo - {id});
        todo := todo - {id};
      }
      assert ids - todo == ids;
      return |ids|;
    }
  }
}
