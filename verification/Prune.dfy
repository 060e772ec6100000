/** The prune job: rows that expired before a cutoff, one retention window back, are deleted. */
module Prune {
  import opened Base
  import opened Tables
  import opened Rows
  import RefreshTokens
  import Sessions
  import AuthCodes
  import Links
  import Passkeys
  import Grants

  datatype Counts = Counts(refreshTokens: int, sessions: int, codes: int, links: int, challenges: int)

  /** The cutoff is the retention boundary; only WebAuthn challenges go by the clock itself. */
  function Cutoff(now: Time, retention: nat): int {
    now - retention
  }

  /** Deletes what expired before the cutoff from five tables, keeps every other row, and counts what went. */
  method PruneExpired(tokens: RefreshTokens.RefreshTokenRepository, sessions: Sessions.SessionRepository,
                      codes: AuthCodes.AuthCodeRepository, links: Links.VerificationTokenRepository,
                      passkeys: Passkeys.PasskeyRepository, cutoff: int, now: Time)
    returns (counts: Counts)
    modifies tokens, sessions, codes, links, passkeys
    ensures tokens.byId == Without(old(tokens.byId), RefreshTokens.ExpiredBefore(cutoff))
    ensures sessions.byId == Without(old(sessions.byId), Sessions.ExpiredBefore(cutoff))
    ensures codes.byId == Without(old(codes.byId), AuthCodes.ExpiredBefore(cutoff))
    ensures links.byId == Without(old(links.byId), Links.ExpiredBefore(cutoff))
    ensures passkeys.challenges == Kept(old(passkeys.challenges), Passkeys.NotExpiredBefore(now))
    ensures passkeys.rows == old(passkeys.rows)
    ensures counts == Counts(|old(tokens.byId)| - |tokens.byId|, |old(sessions.byId)| - |sessions.byId|,
                             |old(codes.byId)| - |codes.byId|, |old(links.byId)| - |links.byId|,
                             |old(passkeys.challenges)| - |passkeys.challenges|)
  {
    var refreshTokens := tokens.DeleteExpiredBefore(cutoff);
    var sessionRows := sessions.DeleteExpiredBefore(cutoff);
    var codeRows := codes.DeleteExpiredBefore(cutoff);
    var linkRows := links.DeleteExpiredBefore(cutoff);
    var challengeRows := passkeys.DeleteExpiredChallengesBefore(now);
    counts := Counts(refreshTokens, sessionRows, codeRows, linkRows, challengeRows);
  }

  /**
    To the token endpoint the job is two prune steps that the transition system allows, however
    long after the cutoff was computed they come: what they leave is what the job leaves.
   */
  lemma JobIsTwoPruneSteps(cfg: Grants.Config, w: Grants.World, start: Time)
    requires start <= w.db.now
    ensures var cutoff := Cutoff(start, cfg.retention);
            Grants.Run(cfg, w, [Grants.PruneTokens(cutoff), Grants.PruneCodes(cutoff)]) ==
            w.(db := w.db.(tokens := Without(w.db.tokens, RefreshTokens.ExpiredBefore(cutoff)),
                           codes := Without(w.db.codes, AuthCodes.ExpiredBefore(cutoff))))
  {
    var cutoff := Cutoff(start, cfg.retention);
    var first, second := Grants.PruneTokens(cutoff), Grants.PruneCodes(cutoff);
    var w1 := Grants.Step(cfg, w, first);
    var w2 := Grants.Step(cfg, w1, second);
    assert [first, second][1..] == [second] && [second][1..] == [];
    assert Grants.Run(cfg, w, [first, second]) == Grants.Run(cfg, w1, [second]) == Grants.Run(cfg, w2, []);
  }

  /** Deleting challenges at their expiry loses nothing: a deleted one could not have been consumed any more. */
  lemma PrunedChallengesWereUseless(challenges: seq<Passkeys.Challenge>, now: Time, later: Time,
                                    hash: Digest, purpose: Passkeys.Purpose, userId: Option<Id>)
    requires now <= later
    ensures (exists c :: c in challenges && Passkeys.Fits(hash, purpose, userId, later)(c)) <==>
            (exists c ::
             c in Kept(challenges, Passkeys.NotExpiredBefore(now)) && Passkeys.Fits(hash, purpose, userId, later)(c))
  {
  }
}
