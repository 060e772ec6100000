/** The TOTP service, one call at a time: enrolment, confirmation, verification, removal. */
module TotpService {
  import opened Base
  import opened Rows
  import opened TotpTable
  import opened Users
  import Hotp

  const FRESH_LOGIN_SECONDS := 300.0

  datatype SetupError =
    | NotConfigured
    | UserNotFound
    | GuestForbidden
    | FreshLoginRequired
    | CurrentPasswordRequired
    | InvalidCredentials
    | AlreadyEnabled

  datatype ConfirmError = KeyMissing | NotPending | Enabled | InvalidCode

  datatype Setup = Pending | SetupRefused(setupError: SetupError)

  datatype Confirmation = Confirmed(step: int) | ConfirmRefused(confirmError: ConfirmError) | RepeatedCode

  /** Earlier than any other step of the window the code matches. */
  predicate Earliest(hmac: Hotp.Hmac, code: string, now: int, step: int) {
    && now - 1 <= step <= now + 1 && Hotp.Matches(hmac, step, code)
    && forall s :: now - 1 <= s < step ==> !Hotp.Matches(hmac, s, code)
  }

  predicate IsEnabled(totp: map<Id, TotpRecord>, userId: Id) {
    userId in totp && totp[userId].enabledAt.Some?
  }

  class TotpService {
    const repo: TotpRepository
    const keyed: bool // an encryption key is configured
    const open: Digest -> Option<Hotp.Hmac> // decrypts a sealed secret; None when that fails
    const hashRecovery: string -> Digest

    constructor (repo: TotpRepository, keyed: bool, open: Digest -> Option<Hotp.Hmac>, hashRecovery: string -> Digest)
      ensures this.repo == repo && this.keyed == keyed && this.open == open && this.hashRecovery == hashRecovery
    {
      this.repo, this.keyed, this.open, this.hashRecovery := repo, keyed, open, hashRecovery;
    }

    /** None when the secret cannot be opened; without a key none can. */
    function SecretOf(sealed: Digest): Option<Hotp.Hmac> {
      if keyed then open(sealed) else None
    }

    /** The code matches some step of the window under the stored secret. */
    ghost predicate Fits(row: TotpRecord, code: string, step: int) {
      SecretOf(row.secret).Some? && exists s ::
        step - 1 <= s <= step + 1 && Hotp.Matches(SecretOf(row.secret).value, s, code)
    }

    /** The earliest step the code is good for. */
    ghost predicate FitsAt(row: TotpRecord, code: string, step: int, s: int) {
      SecretOf(row.secret).Some? && Earliest(SecretOf(row.secret).value, code, step, s)
    }

    /**
      A proof counts while TOTP is enabled: six digits when the earliest step they are good
      for comes after the last accepted one, anything else when it is an unused recovery code.
     */
    ghost predicate Proves(totp: map<Id, TotpRecord>, codes: seq<RecoveryRow>, userId: Id, input: string, step: int) {
      && IsEnabled(totp, userId)
      && (if Hotp.SixDigits(input) then exists s :: FitsAt(totp[userId], input, step, s) && totp[userId].lastStep < s
          else exists i :: 0 <= i < |codes| && Unspent(codes[i], userId, hashRecovery(input)))
    }

    /** The step a code is good for now, if the stored secret can be opened. */
    method MatchStored(sealed: Digest, code: string, step: int) returns (found: Option<int>)
      ensures found.Some? ==> SecretOf(sealed).Some? && Earliest(SecretOf(sealed).value, code, step, found.value)
      ensures found.None? && SecretOf(sealed).Some? ==>
                forall s :: step - 1 <= s <= step + 1 ==> !Hotp.Matches(SecretOf(sealed).value, s, code)
    {
      var secret := SecretOf(sealed);
      if secret.None? {
        return None;
      }
      found := Hotp.MatchStep(secret.value, code, step);
    }

    /** The accepted step becomes the last one; an accepted recovery code is used up. */
    method Verify(userId: Id, input: string, step: int, now: Time) returns (ok: bool)
      modifies repo
      ensures ok <==> Proves(old(repo.totp), old(repo.codes), userId, input, step)
      ensures !ok ==> repo.totp == old(repo.totp) && repo.codes == old(repo.codes)
      ensures ok && Hotp.SixDigits(input) ==>
                var row := old(repo.totp)[userId];
                && userId in repo.totp && repo.codes == old(repo.codes)
                && repo.totp == old(repo.totp)[userId := row.(lastStep := repo.totp[userId].lastStep)]
                && FitsAt(row, input, step, repo.totp[userId].lastStep)
                && row.enabledAt.Some? && row.lastStep < repo.totp[userId].lastStep
      ensures !ok && userId in old(repo.totp) && old(repo.totp)[userId].enabledAt.Some? && Hotp.SixDigits(input) ==>
                forall s :: FitsAt(old(repo.totp)[userId], input, step, s) ==> s <= old(repo.totp)[userId].lastStep
      ensures ok && !Hotp.SixDigits(input) ==>
                && repo.totp == old(repo.totp) && userId in repo.totp && repo.totp[userId].enabledAt.Some?
                && exists i :: 0 <= i < |old(repo.codes)| && Unspent(old(repo.codes)[i], userId, hashRecovery(input))
                               && repo.codes == old(repo.codes)[i := old(repo.codes)[i].(usedAt := Some(now))]
      ensures !ok && userId in old(repo.totp) && old(repo.totp)[userId].enabledAt.Some? && !Hotp.SixDigits(input) ==>
                !exists i :: 0 <= i < |old(repo.codes)| && Unspent(old(repo.codes)[i], userId, hashRecovery(input))
    {
      if userId !in repo.totp || repo.totp[userId].enabledAt.None? {
        return false;
      }
      if Hotp.SixDigits(input) {
        var matched := MatchStored(repo.totp[userId].secret, input, step);
        if matched.None? {
          return false;
        }
        assert FitsAt(repo.totp[userId], input, step, matched.value);
        ok := repo.AdvanceStep(userId, matched.value);
        return;
      }
      ok := repo.ConsumeRecoveryCode(userId, hashRecovery(input), now);
    }

    /**
      A stolen token must not enrol its own authenticator: the password, or a sign-in no older
      than five minutes, is asked for. Replaces a pending enrolment and never an enabled one.
     */
    method StartSetup(userId: Id, user: Option<User>, currentPassword: Option<Digest>, age: Option<real>,
                      sealed: Digest)
      returns (r: Setup)
      modifies repo
      ensures r == SetupRefused(NotConfigured) <==> !keyed
      ensures r == SetupRefused(SetupError.UserNotFound) <==> keyed && user.None?
      ensures r == SetupRefused(GuestForbidden) <==> keyed && user.Some? && user.value.email.None?
      ensures r == SetupRefused(FreshLoginRequired) <==>
                && keyed && user.Some? && user.value.email.Some? && user.value.passwordHash.None?
                && (age.None? || age.value > 300.0)
      ensures r == SetupRefused(SetupError.CurrentPasswordRequired) <==>
                && keyed && user.Some? && user.value.email.Some? && user.value.passwordHash.Some?
                && currentPassword.None?
      ensures r == SetupRefused(SetupError.InvalidCredentials) <==>
                && keyed && user.Some? && user.value.email.Some? && user.value.passwordHash.Some?
                && currentPassword.Some? && currentPassword != user.value.passwordHash
      ensures r == SetupRefused(AlreadyEnabled) ==>
                userId in old(repo.totp) && old(repo.totp)[userId].enabledAt.Some?
      ensures r.Pending? ==> userId in old(repo.totp) ==> old(repo.totp)[userId].enabledAt.None?
      ensures repo.codes == old(repo.codes)
      ensures repo.totp == if r.Pending? then old(repo.totp)[userId := TotpRecord(sealed, None, 0)] else old(repo.totp)
    {
      if !keyed {
        return SetupRefused(NotConfigured);
      }
      if user.None? {
        return SetupRefused(SetupError.UserNotFound);
      }
      if user.value.email.None? {
        return SetupRefused(GuestForbidden);
      }
      if user.value.passwordHash.None? {
        if age.None? || age.value > FRESH_LOGIN_SECONDS {
          return SetupRefused(FreshLoginRequired);
        }
      } else if currentPassword.None? {
        return SetupRefused(SetupError.CurrentPasswordRequired);
      } else if currentPassword != user.value.passwordHash {
        return SetupRefused(SetupError.InvalidCredentials);
      }
      if userId in repo.totp && repo.totp[userId].enabledAt.Some? {
        return SetupRefused(AlreadyEnabled);
      }
      var n := repo.DeletePending(userId);
      var ok := repo.CreatePending(userId, sealed);
      return Pending;
    }

    function Hashes(recovery: seq<string>): (hashes: seq<Digest>)
      ensures |hashes| == |recovery| && forall i :: 0 <= i < |recovery| ==> hashes[i] == hashRecovery(recovery[i])
    {
      seq(|recovery|, i requires 0 <= i < |recovery| => hashRecovery(recovery[i]))
    }

    /** Records the confirmed step, so the same code cannot also sign in, and hands out fresh recovery codes. */
    method Confirm(userId: Id, code: string, step: int, now: Time, recovery: seq<string>) returns (r: Confirmation)
      modifies repo
      ensures r == ConfirmRefused(KeyMissing) <==> !keyed
      ensures r == ConfirmRefused(NotPending) <==> keyed && userId !in old(repo.totp)
      ensures r == ConfirmRefused(Enabled) <==> keyed && IsEnabled(old(repo.totp), userId)
      ensures r == ConfirmRefused(InvalidCode) <==>
                && keyed && userId in old(repo.totp) && !IsEnabled(old(repo.totp), userId)
                && !Fits(old(repo.totp)[userId], code, step)
      ensures r.ConfirmRefused? ==> repo.totp == old(repo.totp) && repo.codes == old(repo.codes)
      ensures !r.ConfirmRefused? ==>
                && userId in old(repo.totp) && !IsEnabled(old(repo.totp), userId)
                && var row := old(repo.totp)[userId];
                && userId in repo.totp
                && repo.totp ==
                     old(repo.totp)[userId := row.(enabledAt := Some(now), lastStep := repo.totp[userId].lastStep)]
                && FitsAt(row, code, step, repo.totp[userId].lastStep)
      ensures r.RepeatedCode? ==> !Distinct(Hashes(recovery))
      ensures r.Confirmed? ==>
                var hashes := Hashes(recovery);
                && userId in repo.totp && r.step == repo.totp[userId].lastStep && Distinct(hashes)
                && repo.codes == Kept(old(repo.codes), NotOwnedBy(userId)) + FreshRows(userId, hashes)
    {
      if !keyed {
        return ConfirmRefused(KeyMissing);
      }
      if userId !in repo.totp {
        return ConfirmRefused(NotPending);
      }
      var row := repo.totp[userId];
      if row.enabledAt.Some? {
        return ConfirmRefused(Enabled);
      }
      var matched := MatchStored(row.secret, code, step);
      if matched.None? {
        return ConfirmRefused(InvalidCode);
      }
      var won := repo.Enable(userId, matched.value, now);
      var hashes := Hashes(recovery);
      var stored := repo.ReplaceRecoveryCodes(userId, hashes);
      if stored < |hashes| {
        return RepeatedCode;
      }
      assert hashes[..stored] == hashes;
      return Confirmed(matched.value);
    }

    /** Only with a proof that verifies, and then both tables forget the account. */
    method Disable(userId: Id, user: Option<User>, proof: string, step: int, now: Time)
      returns (refusal: Option<SetupError>)
      modifies repo
      ensures refusal == Some(NotConfigured) <==> !keyed
      ensures refusal == Some(SetupError.UserNotFound) <==> keyed && user.None?
      ensures refusal.None? <==>
                keyed && user.Some? && Proves(old(repo.totp), old(repo.codes), userId, proof, step)
      ensures refusal.Some? ==> repo.totp == old(repo.totp) && repo.codes == old(repo.codes)
      ensures refusal.None? ==>
                repo.totp == old(repo.totp) - {userId} && repo.codes == Kept(old(repo.codes), NotOwnedBy(userId))
    {
      if !keyed {
        return Some(NotConfigured);
      }
      if user.None? {
        return Some(SetupError.UserNotFound);
      }
      var ok := Verify(userId, proof, step, now);
      if !ok {
        return Some(SetupError.InvalidCredentials);
      }
      if !Hotp.SixDigits(proof) {
        ghost var i :| 0 <= i < |old(repo.codes)| && Unspent(old(repo.codes)[i], userId, hashRecovery(proof))
                       && repo.codes == old(repo.codes)[i := old(repo.codes)[i].(usedAt := Some(now))];
        KeptIgnores(old(repo.codes), i, repo.codes[i], NotOwnedBy(userId));
      }
      var n := repo.DeleteAllForUser(userId);
      refusal := None;
    }

    method Reset(userId: Id)
      modifies repo
      ensures repo.totp == old(repo.totp) - {userId} && repo.codes == Kept(old(repo.codes), NotOwnedBy(userId))
    {
      var n := repo.DeleteAllForUser(userId);
    }
  }
}
