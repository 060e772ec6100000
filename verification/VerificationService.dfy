/** The verification service: minting emailed links and redeeming them. */
module VerificationService {
  import opened Base
  import opened Tables
  import opened Rows
  import opened Users
  import opened Links
  import opened Accounts
  import RefreshTokens
  import Sessions
  import Passkeys

  /** Ids and secrets of the links were drawn before `supply`. */
  predicate DrawnBefore(links: LinkTable, supply: nat) {
    forall l :: l in links ==> l < supply && links[l].tokenHash == HashToken(l)
  }

  class VerificationService {
    const users: UserRepository
    const links: VerificationTokenRepository
    const tokens: RefreshTokens.RefreshTokenRepository
    const sessions: Sessions.SessionRepository
    const passkeys: Passkeys.PasskeyRepository
    const ttl: nat

    constructor (users: UserRepository, links: VerificationTokenRepository,
                 tokens: RefreshTokens.RefreshTokenRepository, sessions: Sessions.SessionRepository,
                 passkeys: Passkeys.PasskeyRepository, ttl: nat)
      ensures this.users == users && this.links == links && this.tokens == tokens
      ensures this.sessions == sessions && this.passkeys == passkeys && this.ttl == ttl
    {
      this.users, this.links, this.tokens := users, links, tokens;
      this.sessions, this.passkeys, this.ttl := sessions, passkeys, ttl;
    }

    /** The tables read as `s` says, whose next draw is new to them. */
    ghost predicate Shows(s: State)
      reads users, links
    {
      && s.users == users.byId && s.links == links.byId && s.linkTtl == ttl
      && UniqueEmails(s.users) && DrawnBefore(s.links, s.supply)
    }

    ghost predicate ShowsResult(s: State)
      reads users, links
    {
      s.users == users.byId && s.links == links.byId
    }

    method Mint(ghost s: State, draw: nat, userId: Id, purpose: Purpose, email: Address, mailedTo: Address, now: Time)
      requires Shows(s) && draw == s.supply && now == s.now
      modifies links
      ensures ShowsResult(Minted(s, userId, purpose, email, mailedTo))
    {
      var ok := links.Create(draw, Link(userId, email, purpose, HashToken(draw), now + ttl, None, mailedTo));
    }

    /** Authorised from the current address: that is where the link goes. */
    method StartEmailChange(ghost s: State, draw: nat, userId: Id, newEmail: Address, now: Time)
      returns (outcome: Outcome)
      requires Shows(s) && draw == s.supply && now == s.now
      modifies links
      ensures var r := EmailChangeCall(s, userId, newEmail); ShowsResult(r.state) && outcome == r.outcome
    {
      var user := users.FindById(userId);
      if user.None? {
        return Refused(Reason.UserNotFound);
      }
      if !HasAddress(user.value) {
        return Refused(AccountHasNoEmail);
      }
      if user.value.email == Some(newEmail) {
        return Outcome.Ok;
      }
      var holder := users.FindAnyByEmail(newEmail);
      if holder.Some? && holder.value != userId {
        return Refused(EmailTakenReason);
      }
      Mint(s, draw, userId, EmailChange, newEmail, user.value.email.value, now);
      return Outcome.Ok;
    }

    method StartAccountDeletion(ghost s: State, draw: nat, userId: Id, now: Time) returns (outcome: Outcome)
      requires Shows(s) && draw == s.supply && now == s.now
      modifies links
      ensures var r := DeletionCall(s, userId); ShowsResult(r.state) && outcome == r.outcome
    {
      var user := users.FindById(userId);
      if user.None? {
        return Refused(Reason.UserNotFound);
      }
      if !HasAddress(user.value) {
        return Refused(AccountHasNoEmail);
      }
      Mint(s, draw, userId, AccountDeletion, user.value.email.value, user.value.email.value, now);
      return Outcome.Ok;
    }

    /** Mails the stored spelling: the lookup is collation-insensitive, the link is bound to one spelling. */
    method StartPasswordReset(ghost s: State, draw: nat, email: Address, now: Time)
      requires Shows(s) && draw == s.supply && now == s.now
      modifies links
      ensures ShowsResult(ResetRequest(s, email).state)
    {
      var holder := users.FindByEmail(email);
      OneHolder(s, email, holder);
      if holder.None? || !HasAddress(users.byId[holder.value]) {
        return;
      }
      var stored := users.byId[holder.value].email.value;
      Mint(s, draw, holder.value, PasswordReset, stored, stored, now);
    }

    method Resend(ghost s: State, draw: nat, email: Address, now: Time)
      requires Shows(s) && draw == s.supply && now == s.now
      modifies links
      ensures ShowsResult(ResendCall(s, email).state)
    {
      var holder := users.FindByEmail(email);
      OneHolder(s, email, holder);
      if holder.None? || users.byId[holder.value].emailVerified || !HasAddress(users.byId[holder.value]) {
        return;
      }
      var stored := users.byId[holder.value].email.value;
      Mint(s, draw, holder.value, VerifyEmail, stored, stored, now);
    }

    /** Find, check the purpose, check it is unused and fresh, and find the account. */
    method Check(ghost s: State, token: Secret, purposes: set<Purpose>, now: Time)
      returns (refusal: Option<Reason>, id: Option<Id>)
      requires Shows(s) && now == s.now
      ensures id == LinkWithHash(s.links, HashToken(token)) && refusal == LinkRefusal(s, id, purposes)
    {
      id := links.FindByHash(HashToken(token));
      OneLink(s, HashToken(token), id);
      if id.None? || links.byId[id.value].purpose !in purposes {
        return Some(InvalidLink), id;
      }
      var record := links.byId[id.value];
      if record.consumedAt.Some? {
        return Some(InvalidLink), id;
      }
      if record.expiresAt <= now {
        return Some(LinkExpired), id;
      }
      var user := users.FindById(record.userId);
      if user.None? {
        return Some(InvalidLink), id;
      }
      return None, id;
    }

    /** The link is used up before the effect, so a replay loses the race instead of repeating it. */
    method Confirm(ghost s: State, token: Secret, now: Time) returns (outcome: Outcome)
      requires Shows(s) && now == s.now
      modifies links, users
      ensures var r := ConfirmCall(s, token); ShowsResult(r.state) && outcome == r.outcome
    {
      var refusal, id := Check(s, token, {EmailChange, AccountDeletion}, now);
      if refusal.Some? {
        return Refused(refusal.value);
      }
      var record := links.byId[id.value];
      if record.purpose == EmailChange {
        var holder := users.FindAnyByEmail(record.email);
        if holder.Some? && holder.value != record.userId {
          return Refused(EmailTakenReason);
        }
      }
      var won := links.Consume(id.value, now);
      if !won {
        return Refused(InvalidLink);
      }
      if record.purpose == EmailChange {
        var updated := users.Update(record.userId, Patch(Some(record.email), None, Some(false)));
        if updated.Missing? {
          return Refused(InvalidLink);
        }
        if updated.DuplicateEmail? {
          return DuplicateEmailKey;
        }
      } else {
        var deleted := users.SoftDelete(record.userId, now);
      }
      return Outcome.Ok;
    }

    /** A refused password costs nothing: the policy is asked before the link is even looked up. */
    method ResetPassword(ghost s: State, token: Secret, password: Password, now: Time) returns (outcome: Outcome)
      requires Shows(s) && now == s.now
      modifies links, users, tokens, sessions, passkeys
      ensures var r := ResetCall(s, token, password); ShowsResult(r.state) && outcome == r.outcome
      ensures var user := if outcome.Ok? then LinkWithHash(s.links, HashToken(token)) else None;
              && (user.Some? ==>
                    var owner := s.links[user.value].userId;
                    && tokens.byId ==
                         Rewritten(old(tokens.byId), RefreshTokens.OwnedBy(owner), RefreshTokens.Revoke(now))
                    && sessions.byId == Rewritten(old(sessions.byId), Sessions.OwnedBy(owner), Sessions.Ended(now))
                    && passkeys.rows == Kept(old(passkeys.rows), Passkeys.NotOwnedBy(owner)))
              && (user.None? ==> tokens.byId == old(tokens.byId) && sessions.byId == old(sessions.byId)
                                 && passkeys.rows == old(passkeys.rows))
    {
      if !password.acceptable {
        return Refused(WeakPassword);
      }
      var refusal, id := Check(s, token, {PasswordReset}, now);
      if refusal.Some? {
        return Refused(refusal.value);
      }
      var record := links.byId[id.value];
      if users.byId[record.userId].email != Some(record.email) {
        return Refused(InvalidLink);
      }
      var won := links.Consume(id.value, now);
      if !won {
        return Refused(InvalidLink);
      }
      var updated := users.Update(record.userId, Patch(None, Some(password.hash), Some(true)));
      tokens.RevokeAllForUser(record.userId, now);
      sessions.RevokeAllForUser(record.userId, now);
      var removed := passkeys.DeleteAllPasskeysForUser(record.userId);
      var closed := links.ConsumeAllForUser(record.userId, now);
      return Outcome.Ok;
    }

    method VerifyEmailLink(ghost s: State, token: Secret, now: Time) returns (outcome: Outcome)
      requires Shows(s) && now == s.now
      modifies links, users
      ensures var r := VerifyCall(s, token); ShowsResult(r.state) && outcome == r.outcome
    {
      var refusal, id := Check(s, token, {VerifyEmail}, now);
      if refusal.Some? {
        return Refused(refusal.value);
      }
      var record := links.byId[id.value];
      if users.byId[record.userId].email != Some(record.email) {
        return Refused(InvalidLink);
      }
      var won := links.Consume(id.value, now);
      if !won {
        return Refused(InvalidLink);
      }
      var marked := users.MarkEmailVerified(record.userId, record.email);
      if !marked {
        return Refused(InvalidLink);
      }
      return Outcome.Ok;
    }
  }

  /** At most one row holds an address, so whichever row a lookup returns is the row. */
  lemma OneHolder(s: State, email: Address, found: Option<Id>)
    requires UniqueEmails(s.users)
    requires found.Some? ==> Live(s.users, found.value) && CiEquals(s.users[found.value].email, Some(email))
    requires found.None? ==> forall id :: Live(s.users, id) ==> !CiEquals(s.users[id].email, Some(email))
    ensures LiveHolder(s.users, email) == found
  {
  }

  /** At most one link has a given hash. */
  lemma OneLink(s: State, hash: Digest, found: Option<Id>)
    requires DrawnBefore(s.links, s.supply)
    requires found.Some? ==> found.value in s.links && s.links[found.value].tokenHash == hash
    requires found.None? ==> forall id :: id in s.links ==> s.links[id].tokenHash != hash
    ensures LinkWithHash(s.links, hash) == found
  {
  }
}
