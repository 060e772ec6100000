# authx in Dafny

A model of authx, an OAuth 2.0 and OpenID Connect server, and proofs about it. The hard part of authx is the life of
credentials in tables that many requests change at once: every `await` is a point where another request may run. The
project follows that structure.

**Tables and repositories** are classes whose fields are the in-memory repositories' maps and arrays, changed in place
by methods that state the whole new table: `RefreshTokens`, `AuthCodes`, `Sessions`, `Users`, `Links` (the emailed
links), `SocialAccounts`, `Orgs`, `TotpTable`, `Passkeys`, `Rbac`, and the failure counter in `LoginAttempts`.
`Tables` and `Rows` hold the scans they share.

**Transition systems** model interleaving. A request has a program counter and the locals that are live there; each
repository call is one atomic step, and the tables, the clock and any number of requests make up the world. `Grants`
is the token endpoint (refresh, code exchange, issue, revocation) with prunes, purges and revocations from outside;
`GrantInvariant` proves what every step keeps, `GrantTheorems`, `FamilyRevocation`, `GraceRace` and `Pruning` the
properties over whole runs, and `GrantOutcomes` what a request comes to when it runs alone. `Logins` with `Lockout` is
the per-account counter under all sign-in paths, `TotpFactor` the second factor, `LinkRedemption` with `LinkTheorems`
the emailed links, `PasskeyRaces` with `PasskeyTheorems` and `PasskeyLimit` the WebAuthn ceremonies. The `Handler`
classes of `AuthService`, `LoginService` and `PasskeyService` run a request over the real repositories, one repository
call a turn, and prove each turn to be the transition system's step in whatever state the tables are by then.

`GrantEndings`, `LoginOutcomes`, `TotpOutcomes`, `LinkOutcomes` and `PasskeyOutcomes` tell how the requests of these
systems end, in every interleaving, from what each found at its own turns, and what each turn writes;
`AccountOutcomes` does the same for the calls below. They speak of rows and answers only, without the transition
functions they judge.

**One call at a time**: `Accounts` specifies registration, profile updates, links, Google sign-in and removal as
functions of the state, `AccountTheorems` proves what every sequence of calls keeps, and the classes `UserService`,
`VerificationService` and `GoogleService` carry the calls out over the repositories and are proved equal to that
specification. `GoogleBind` injects a failure into every write of the Google bind, before the write or after it took
place. `TotpService` is the TOTP service, `Prune` the prune job, and `Erasure` the purge with a stop at any point
(`Owners` holds what it needs about tables whose rows belong to accounts).

**Codecs**: `Hotp` on the bit operations of `Bits`, `Base32` and `BasicAuth` on the bit groups of `Radix`, and `Scope`.

Conventions. Ids and secrets are natural numbers drawn from a supply that never repeats; one draw gives an id and the
secret that goes with it. SHA-256 is an injective constructor. An address is a folded form and a spelling: the
collation compares the first, `===` both. Time is in milliseconds and only moves forward; one call reads the clock
once. The answers of other tables and services (the app service of a token, the subject checks, the WebAuthn library's
verdict, whether a code matches a step) are inputs of the step that asks for them, so every theorem holds for all of
them. Fields such as `log`, `usedBy`, `minted` and `proofs` keep a record of what happened for the theorems to speak of.

Some results are exact conditions, with the runs that fall outside them. The configured limit of guesses holds if and
only if it is a whole number of at least one and the lockout period is positive, none of which the configuration
checks: a limit of zero lets one guess through per period, one of two and a half lets through three, and without a
period there is no bound at all. The scope survives its round trip if and only if no permission key contains a space,
which the admin schema allows. A password reset writes without comparing the address again: it marks the address its
link was mailed to if and only if no write in between moved the account elsewhere. A confirmed address change checks
that the address is free before it consumes its link: the link is used up for nothing if and only if the account is
erased or the address is taken in between. A failed Google bind leaves its link behind if and only if the insert took
place and threw, or taking the link back had no effect. A Google bind that reports success leaves a real address
except when Google's own is the empty string. The comment on `clear` in `src/lib/login-attempts.ts` says a correct
password ends the run; the callers clear only when a login completes, and the model follows the callers.

## Model

| member | source | states |
|---|---|---|
| `GrantTheorems.ChainsInEveryRun` | src/modules/auth/auth.service.ts:282-357 | In every state any interleaving reaches: a replaced token is revoked and its successor is present, no two tokens share a successor, and following the links never comes back to where it started. |
| `GrantTheorems.LinksGoForward` | src/modules/auth/token.repository.ts:68-75 | A path of links leads to a later-drawn token of the same chain. |
| `GrantTheorems.ChainsNeverMerge` | src/modules/auth/token.repository.ts:68-75 | Two paths that end in the same token are parts of one path. |
| `GrantTheorems.OneActiveTokenPerChain` | src/modules/auth/auth.service.ts:345-350 | Two active tokens of one chain are the same token, even after older rows of the chain were deleted. |
| `GrantTheorems.OnePairPerRefreshToken` | src/modules/auth/auth.service.ts:282-357 | Of all requests that ever present one refresh token, at most one is answered with a pair. |
| `GrantTheorems.RevocationIsFinal` | src/modules/auth/token.repository.ts:68-86 | Over any further run a revoked token stays revoked and its link does not change, and a deleted row never returns. |
| `GrantInvariant.RunKeeps` | src/modules/auth/auth.service.ts:282-357 | The table invariant (ids and secrets as drawn, links, one active token per chain, lifetimes, what each request remembers) holds after any run. |
| `GraceRace.LosersAreRefusedQuietly` | src/modules/auth/auth.service.ts:296-350 | Requests racing for one active token within the grace period, whether there at the start or arriving later, revoke nothing, whatever other requests of the user and prunes run meanwhile, as long as those leave the raced token and its successor alone: at most one racer gets a pair, and its new token is still active when they end. |
| `GraceRace.ExactlyOneWins` | src/modules/auth/auth.service.ts:296-350 | If moreover the checks let every racer through and all have come and finish, exactly one gets a pair and every other ends refused with the invalid-token answer; no racer revokes anything. |
| `FamilyRevocation.FamilyRevocationIsComplete` | src/modules/auth/auth.service.ts:298-302 | After a revokeAllForUser step no token of the user that existed then rotates again, and any of the user's tokens active later belongs to a chain started by a create after that step. |
| `FamilyRevocation.OnePairPerCode` | src/modules/auth/auth.service.ts:553-618 | At most one request is ever answered with a pair for one authorization code. |
| `FamilyRevocation.PairMeetsEveryCondition` | src/modules/auth/auth.service.ts:565-595 | A pair is issued for a code only to a request with its client id, redirect URI, client secret and the S256 verifier of its challenge. |
| `FamilyRevocation.ReplayRevokesDescendants` | src/modules/auth/auth.service.ts:572-575 | A replay whose revocation step follows the winner's create leaves every token descended from the code revoked, in all later states. |
| `GrantOutcomes.UnknownTokenChangesNothing` | src/modules/auth/auth.service.ts:286-289 | A token that is not in the table is refused as invalid, and nothing changes. |
| `GrantOutcomes.WrongClientChangesNothing` | src/modules/auth/auth.service.ts:290-294 | The client is asked for before reuse detection: one that names another id, does not name itself, or lacks the secret behind the stored hash is told so, and even a replay then revokes nothing. |
| `GrantOutcomes.ReplayedTokenRevokesTheFamily` | src/modules/auth/auth.service.ts:296-302 | A revoked token presented by its client, expired or not: it was rotated (it has a successor) less than a positive grace period ago, and then it is refused as invalid and nothing changes; or it is answered as reuse and every token of the user, and no other row, is stamped as revoked. |
| `GrantOutcomes.LostRaceIsSettled` | src/modules/auth/auth.service.ts:345-350 | A request that lost the rotation looks at the row again, in whatever state the tables are: the same split decides, on the row as it is now and on the clock as it is now. |
| `GrantOutcomes.ActiveTokenRotates` | src/modules/auth/auth.service.ts:303-350 | Run alone, an active token gives a pair exactly when it is unexpired and the subject checks pass: then it is revoked, linked to a fresh active token of the same user and service with a full lifetime, and nothing else changes; otherwise nothing changes and the error is told. |
| `GrantOutcomes.IssueGivesOneToken` | src/modules/auth/auth.service.ts:183-232 | A sign-in that asks for a pair gets one fresh token with a full lifetime exactly when the subject checks pass, and otherwise changes nothing. |
| `GrantOutcomes.RevocationTakesEffect` | src/modules/auth/auth.service.ts:358-370 | An unknown token is acknowledged. The wrong client is refused and changes nothing. Any other request ends acknowledged with that token revoked, at its own time if it was before, and every other row as it was. |
| `GrantOutcomes.CodeIsRedeemedOrReplayed` | src/modules/auth/auth.service.ts:553-600 | Run alone, an unknown code and another client's are refused and change nothing; a consumed code revokes the family whatever else is wrong; the first thing wrong with an unconsumed one, in the order time, redirect URI, secret, verifier, is told and changes nothing; otherwise the code is used up, and a token is issued exactly when the subject checks pass. |
| `GrantOutcomes.LostCodeRevokesTheFamily` | src/modules/auth/auth.service.ts:592-595 | A request that passed its checks but finds the code consumed by another revokes the family like any replay. |
| `GrantOutcomes.OutsideWritesAsMeant` | src/db/prune.ts:46-70 | What happens beside the requests, in plain fields: a code is issued with its lifetime, a user's tokens are revoked, tables are purged of a user or pruned by an allowed cutoff, and time passes. |
| `GrantEndings.RequestsEndAsFound` | src/modules/auth/auth.service.ts:282-370 | In every run, every refresh, revocation, code exchange and issue has ended exactly as the tables, the clock and the other tables' answers it found at its own turns say, told in the fields of the rows and the client; or it has not ended. |
| `GrantEndings.TurnsWriteAsMeant` | src/modules/auth/token.repository.ts:57-86 | In every run, what a request's turn writes follows from what its turns found: the family is stamped exactly on a replay or a lost race that is not forgiven, a rotation and an insert write exactly the token drawn before, and every other turn writes nothing. |
| `Pruning.PruningIsInvisible` | src/db/prune.ts:46-70 | A run with prune steps simulates the same run without them: same request states and responses, tables equal inside the window, whenever every credential is presented within its expiry plus retention. |
| `Pruning.PruneTakesTheOldEnd` | src/db/prune.ts:46-70 | A prune that removes a token removes its predecessor too, so no surviving link dangles. |
| `Prune.PruneExpired` | src/db/prune.ts:46-70 | Exactly the rows expired before the cutoff leave the five tables (challenges: before the clock), and each count is the number of rows removed. |
| `Prune.JobIsTwoPruneSteps` | src/db/prune.ts:46-100 | To the token endpoint the job is two prune steps of the transition system, allowed however long after its start they come, and they leave the token and code tables as the job leaves them. |
| `Prune.PrunedChallengesWereUseless` | src/db/prune.ts:41-45 | A challenge survives deletion at its expiry in every way that matters: one that could be consumed at a later time is kept. |
| `AuthService.Handler.Turn` | src/modules/auth/auth.service.ts:282-370 | One turn of a request over the real repositories is the transition system's step, whatever the tables hold by then. |
| `AuthService.Handler.Rotate` | src/modules/auth/auth.service.ts:345-350 | The rotation either rotates and answers with the pair, or leaves the tables and goes to look at the token again. |
| `AuthService.Handler.Reconsider` | src/modules/auth/auth.service.ts:345-350 | After a lost rotation a token rotated within the grace period is refused, anything else leads to family revocation. |
| `AuthService.Handler.Redeem` | src/modules/auth/auth.service.ts:592-595 | A consumed code is single use: a lost consume leads to family revocation. |
| `RefreshTokens.RefreshTokenRepository.Create` | src/modules/auth/token.repository.ts:57-61 | Refused exactly when the id or the hash is taken; otherwise one active row is added. |
| `RefreshTokens.RefreshTokenRepository.FindByHash` | src/modules/auth/token.repository.ts:62-67 | Returns a row with the hash whatever its state, and None only when there is none. |
| `RefreshTokens.RefreshTokenRepository.Rotate` | src/modules/auth/token.repository.ts:68-75 | Lost exactly when the old token is absent or revoked; a win revokes it, links it and inserts the successor, and nothing else changes. |
| `RefreshTokens.RefreshTokenRepository.RevokeOne` | src/modules/auth/token.repository.ts:76-80 | Stamps the row even when it carries a revocation time already. |
| `RefreshTokens.RefreshTokenRepository.RevokeAllForUser` | src/modules/auth/token.repository.ts:81-86 | Stamps every row of the user and no other. |
| `RefreshTokens.RefreshTokenRepository.DeleteAllForUser` | src/modules/auth/token.repository.ts:87-96 | Removes exactly the user's rows and counts them. |
| `RefreshTokens.RefreshTokenRepository.DeleteExpiredBefore` | src/modules/auth/token.repository.ts:97-106 | Removes exactly the rows expired before the cutoff and counts them. |
| `AuthCodes.AuthCodeRepository.Create` | src/modules/auth/authcode.repository.ts:41-52 | Refused exactly when the id or the hash is taken. |
| `AuthCodes.AuthCodeRepository.FindByCodeHash` | src/modules/auth/authcode.repository.ts:53-58 | Returns a row with the hash, consumed or not. |
| `AuthCodes.AuthCodeRepository.Consume` | src/modules/auth/authcode.repository.ts:59-64 | Succeeds exactly on an unconsumed row, and marks only it. |
| `AuthCodes.AuthCodeRepository.DeleteAllForUser` | src/modules/auth/authcode.repository.ts:65-74 | Removes exactly the user's codes and counts them. |
| `AuthCodes.AuthCodeRepository.DeleteExpiredBefore` | src/modules/auth/authcode.repository.ts:75-84 | Removes exactly the codes expired before the cutoff and counts them. |
| `Sessions.SessionRepository.Create` | src/modules/auth/session.repository.ts:37-48 | Refused exactly when the id or the hash is taken. |
| `Sessions.SessionRepository.FindActiveByTokenHash` | src/modules/auth/session.repository.ts:49-57 | Finds a session with the hash only while it is unrevoked and unexpired. |
| `Sessions.SessionRepository.RevokeAllForUser` | src/modules/auth/session.repository.ts:63-68 | Ends every session of the user and no other. |
| `Sessions.SessionRepository.DeleteAllForUser` | src/modules/auth/session.repository.ts:69-78 | Removes exactly the user's sessions and counts them. |
| `Sessions.SessionRepository.DeleteExpiredBefore` | src/modules/auth/session.repository.ts:79-88 | Removes exactly the sessions expired before the cutoff and counts them. |
| `Logins.GuessesAreBounded` | src/modules/auth/auth.service.ts:522-539 | Over every stretch of every run in which nothing clears the count, whatever completed sign-ins came before it: the second-factor guesses that reach the verifier in any half-open interval are at most one burst per started lockout period, in every interleaving with password failures; a burst is maxFailures rounded up to a whole number, and at least one. |
| `Logins.BurstIsAttained` | src/lib/login-attempts.ts:43-50 | That bound is tight: a run is given in which a whole burst passes at one moment, so in any interval no longer than the period. |
| `Logins.NoPeriodNoLimit` | src/lib/login-attempts.ts:43-50 | When the lockout period is not positive, for any n there is a run in which n guesses pass at one moment. |
| `Logins.LimitKeptIff` | src/lib/login-attempts.ts:22-57 | The limit as configured, maxFailures guesses per started lockout period, holds in all runs if and only if maxFailures is a whole number of at least one and the period is positive. |
| `Logins.TwoAndAHalfLetsThreePass` | src/config.ts:137-142 | With the limit 2.5, which the configuration accepts, a run is given in which three guesses pass within one millisecond. |
| `Logins.FirstFactorNeverClears` | src/modules/auth/auth.service.ts:249-281 | While TOTP is on, no run of correct passwords or Google logins clears the count, also of an account that signed in with a passkey before. |
| `Logins.PasswordHolderIsBounded` | src/modules/auth/auth.service.ts:78-97 | So signing in with the password over and over gains no guesses: over any such stretch of a run, after any beginning, the bound holds outright. |
| `LoginOutcomes.SignInsEndAsFound` | src/modules/auth/auth.service.ts:78-101 | In every run, every sign-in has ended as session, as asking for the second factor or as denied exactly as the lock, the TOTP switch and the answer to its check it found at its own turns say, or has not ended: a reference told without the transition system's program counters. |
| `LoginOutcomes.CodeSessionsHadACode` | src/modules/auth/auth.service.ts:522-539 | A second factor that ends with a session was found unlocked first and had its code found right in a later turn of its own. |
| `LoginOutcomes.PasswordSessionsHadAPassword` | src/modules/auth/auth.service.ts:256-281 | A password that ends with a session was looked at while unlocked, found right, and then found TOTP off. |
| `LoginOutcomes.GoogleSessionsHadNoTotp` | src/modules/auth/auth.service.ts:249-255 | A Google login that ends with a session found TOTP off after it was proven. |
| `LoginOutcomes.CounterFollows` | src/lib/login-attempts.ts:22-57 | In any state the counter moves only so: a completed sign-in forgets it, a failure adds one to the failures since the last lockout ran out and locks from the limit on, and anything else leaves it or drops an entry that ran out. |
| `LoginOutcomes.LogFollows` | src/modules/auth/auth.service.ts:522-539 | A guess reaches the verifier exactly when a second factor starts on an unlocked account. |
| `LoginOutcomes.OthersFollow` | src/modules/auth/auth.service.ts:249-281 | Time passes in ticks, the TOTP switch is its owner's, and the count of clears is the count of sign-ins completed. |
| `LoginOutcomes.LimitLocks` | src/lib/login-attempts.ts:43-50 | The failure that reaches the limit locks the account until a full period later, whatever runs meanwhile, unless a sign-in under way is completed. |
| `Lockout.IntervalBound` | src/lib/login-attempts.ts:22-57 | Guesses spaced as the counter forces them obey the interval bound. |
| `Lockout.NoPeriodNoBound` | src/lib/login-attempts.ts:43-50 | With a lockout period that is not positive there is no bound: any number of guesses gets through. |
| `LoginAttempts.Counter.Live` | src/lib/login-attempts.ts:29-37 | An entry whose lockout has run out is dropped, any other is returned; other accounts keep theirs. |
| `LoginAttempts.Counter.IsLocked` | src/lib/login-attempts.ts:40-42 | Locked exactly while the entry's lockout lies ahead. |
| `LoginAttempts.Counter.RecordFailure` | src/lib/login-attempts.ts:43-50 | Counts from zero after a lockout ran out, and locks from the limit on. |
| `LoginAttempts.Counter.Clear` | src/lib/login-attempts.ts:53-55 | Forgets the account and no other. |
| `LoginService.Handler.Turn` | src/modules/auth/auth.service.ts:78-97 | One turn of a sign-in over the real counter is the transition system's step for its account; other accounts' entries stay. |
| `LoginService.Handler.SecondFactor` | src/modules/auth/auth.service.ts:522-539 | The lock check and the count of a second-factor attempt are one step, before the code is verified. |
| `TotpFactor.AcceptedStepsIncrease` | src/modules/mfa/totp.service.ts:59-71 | An accepted step is later than the confirmed one and than every step accepted since. |
| `TotpFactor.AcceptedCodesAreBounded` | src/modules/mfa/totp.service.ts:59-71 | Since an enrolment at step e, at most s + 1 - e codes are accepted by clock step s, for any number of parallel verifications, also such as looked up an older enrolment and matched at a later step. |
| `TotpFactor.ConfirmRecordsItsStep` | src/modules/mfa/totp.service.ts:140-161 | Confirming records the confirmed step, so the same code cannot also sign in, and starts the count at zero. |
| `TotpFactor.RecoveryCodesWorkOnce` | src/modules/mfa/totp.service.ts:59-71 | Requests let through by recovery codes are no more than the codes ever issued, and no two used the same one. |
| `TotpOutcomes.RequestsEndAsFound` | src/modules/mfa/totp.service.ts:59-190 | In every run each setup, confirmation, verification and removal has been granted or refused exactly as the factor, the clock and the match it found at its own turns say. |
| `TotpOutcomes.TurnsWriteAsMeant` | src/modules/mfa/totp.repository.ts:46-100 | What each turn writes to the row and the recovery codes, in plain fields: only a pending row is replaced or enabled, only a later step is recorded, only an unused code is used up. |
| `TotpOutcomes.OutsideWritesNothing` | src/modules/mfa/totp.service.ts:59-190 | Between turns requests arrive and the clock moves; the row and the codes stay. |
| `TotpService.TotpService.Verify` | src/modules/mfa/totp.service.ts:59-71 | Passes exactly on six digits whose earliest matching step of the window, under a secret that can be opened, is later than the last accepted one, which it becomes, or on an unused recovery code, which is used up. |
| `TotpService.TotpService.StartSetup` | src/modules/mfa/totp.service.ts:78-138 | Each refusal is told exactly: no key, no user, a guest, no sign-in within five minutes where there is no password, a missing or a wrong password where there is one, or an enabled row; otherwise a pending secret is stored, and an enabled row is never replaced. |
| `TotpService.TotpService.Confirm` | src/modules/mfa/totp.service.ts:140-161 | Refuses exactly without a key, without a pending row, or for a code no step of the window matches, and then changes nothing; otherwise the row is enabled with the matched step and the recovery codes are replaced. |
| `TotpService.TotpService.Disable` | src/modules/mfa/totp.service.ts:165-179 | Removes the account from both tables if and only if a key is configured, the user exists and the proof passes as in a verification; otherwise nothing changes, and the missing key and the missing user are told apart from a failed proof. |
| `TotpTable.TotpRepository.CreatePending` | src/modules/mfa/totp.repository.ts:46-52 | Refused exactly when the user has a row. |
| `TotpTable.TotpRepository.DeletePending` | src/modules/mfa/totp.repository.ts:53-58 | Removes a pending row and never an enabled one. |
| `TotpTable.TotpRepository.Enable` | src/modules/mfa/totp.repository.ts:59-64 | Succeeds exactly on a pending row, and records the step. |
| `TotpTable.TotpRepository.AdvanceStep` | src/modules/mfa/totp.repository.ts:65-70 | Succeeds exactly for a step later than the last, and records it. |
| `TotpTable.TotpRepository.ReplaceRecoveryCodes` | src/modules/mfa/totp.repository.ts:71-86 | The user's codes become the given ones up to the first repeated hash; other users' codes stay. |
| `TotpTable.TotpRepository.ConsumeRecoveryCode` | src/modules/mfa/totp.repository.ts:87-94 | Succeeds exactly when an unused row of the code exists, and marks one such row. |
| `TotpTable.TotpRepository.DeleteAllForUser` | src/modules/mfa/totp.repository.ts:95-100 | Removes exactly the user's rows of both tables and counts them. |
| `AccountTheorems.AddressesStayUnique` | src/modules/users/users.repository.ts:78-164 | After any sequence of account calls no two rows, soft-deleted ones included, hold addresses the collation calls equal. |
| `Users.AnyWritesKeepUnique` | src/modules/users/users.repository.ts:78-182 | Under any interleaving: whatever sequence of create, update, mark, soft-delete and delete statements reaches the table, addresses stay unique under the collation. |
| `AccountTheorems.NoDuplicateAddressError` | src/modules/users/users.service.ts:60-82 | With calls one at a time, the address checks in register, update, confirm, Google login and Google bind suffice: no call ever has the database refuse an address. |
| `AccountTheorems.OtherKeysClashOnlyForGuests` | src/modules/users/users.service.ts:85-123 | No other key is ever refused either, except, exactly then, the name of a new guest that is already taken. |
| `AccountTheorems.VerifiedMeansProven` | src/modules/verification/verification.service.ts:190-258 | In every run, a verified account has an address, and some earlier call of that run earned it: it redeemed an unused, unexpired link of that account mailed to that address, or bound that account to Google, or created it by a Google sign-in, with that address verified by Google. |
| `AccountTheorems.ProofsAreEarned` | src/modules/verification/verification.service.ts:120-258 | In any state, a call adds a proof of an address only for the account whose link it redeems, bind it completes or sign-up it performs, and only for the address concerned. |
| `AccountTheorems.PasswordChangesAreAuthorised` | src/modules/users/users.service.ts:161-183 | An existing password changes only by a reset link of that account with an acceptable password, or by an update of it; the owner must give the current one, so a passwordless account cannot be given one that way. |
| `AccountTheorems.AddressChangesAreAuthorised` | src/modules/verification/verification.service.ts:144-163 | An existing address changes only by an update, by a redeemed change link of that account to the address the link names, or by a Google bind of an account that had none; only the last leaves it verified. |
| `AccountTheorems.PasswordChangeClosesLinks` | src/modules/users/users.service.ts:197-204 | After a password reset or change the account has no unused account-changing link. |
| `AccountTheorems.RefusalsCostNothing` | src/modules/verification/verification.service.ts:120-258 | A refused call changes nothing, in particular it uses up no link. |
| `AccountOutcomes.CallsEndAsMeant` | src/modules/verification/verification.service.ts:40-273 | After any calls, the next one of any kind ends as an independent reference says in plain fields: which refusal it meets first, or success with exactly the rows, links and revocations it is for. |
| `AccountOutcomes.ResetWorksIff` | src/modules/verification/verification.service.ts:190-230 | After any calls, a password reset succeeds if and only if the password is acceptable and an unused, unexpired reset link of a live account that still holds the mailed address has that secret; then exactly that account's row changes, to the new password and a verified address. |
| `AccountOutcomes.GoogleLinksOnlyProvenAccounts` | src/modules/auth/auth.service.ts:374-447 | After any calls, a Google sign-in that links an account that was there before had its address verified by Google, and the account was live, without a password, verified, and held that address; nothing else changes. |
| `UserService.UserService.Register` | src/modules/users/users.service.ts:60-82 | Refuses a taken address before a weak password, and otherwise adds one unverified account: the specified transition. |
| `UserService.UserService.CreateGuest` | src/modules/users/users.service.ts:85-123 | Adds an account without address and its membership, only for an enabled service. |
| `UserService.UserService.Update` | src/modules/users/users.service.ts:132-206 | The specified transition, and exactly when a password was changed every token, session, passkey and account-changing link of the user is revoked. |
| `UserService.UserService.Remove` | src/modules/users/users.service.ts:207-214 | Soft-deletes a live account, and fails on any other. |
| `UserService.UserService.PurgeDeletedBefore` | src/modules/users/users.service.ts:216-238 | Ends with every account deleted before the cutoff erased from all twelve tables and nothing else changed, and returns their number. |
| `VerificationService.VerificationService.Mint` | src/modules/verification/verification.service.ts:62-82 | Adds one link about the address, with a fresh id and secret and the configured lifetime. |
| `VerificationService.VerificationService.StartEmailChange` | src/modules/verification/verification.service.ts:87-99 | The specified transition: a change link goes to the current address unless the new one is the same or taken. |
| `VerificationService.VerificationService.StartAccountDeletion` | src/modules/verification/verification.service.ts:102-113 | The specified transition: the deletion link goes to the current address. |
| `VerificationService.VerificationService.StartPasswordReset` | src/modules/verification/verification.service.ts:179-189 | Mints a reset link for the live holder of the address, in the stored spelling, and nothing otherwise. |
| `VerificationService.VerificationService.Resend` | src/modules/verification/verification.service.ts:259-270 | Mints a verification link only for an unverified live holder. |
| `VerificationService.VerificationService.Confirm` | src/modules/verification/verification.service.ts:120-176 | The specified transition: checks first, then the link is consumed, then its effect. |
| `VerificationService.VerificationService.ResetPassword` | src/modules/verification/verification.service.ts:190-230 | The specified transition, and on success every token, session and passkey of the link's owner is revoked, on refusal none. |
| `VerificationService.VerificationService.VerifyEmailLink` | src/modules/verification/verification.service.ts:231-258 | The specified transition: marks the address only while the account still holds it. |
| `GoogleService.GoogleService.LoginWithGoogle` | src/modules/auth/auth.service.ts:374-447 | The specified transition; success means the Google account is linked to the live user returned. |
| `GoogleService.GoogleService.LinkGoogleToUser` | src/modules/auth/auth.service.ts:667-780 | The bind with no write failing: link, adopt, compensate as specified. |
| `GoogleBind.SuccessMeansBound` | src/modules/auth/auth.service.ts:667-780 | Under any faults, success means linked to that Google account with an address on the row, a real one exactly when there was one before or Google's is not the empty string. |
| `GoogleBind.CallEndsAsMeant` | src/modules/auth/auth.service.ts:667-783 | Under any faults, which error a call reports and what each write left behind, in plain fields. |
| `GoogleBind.NothingElseChanges` | src/modules/auth/auth.service.ts:689-712 | Under any faults an existing address stays and nobody else's row or link changes. |
| `GoogleBind.FailureLeavesNoLinkIff` | src/modules/auth/auth.service.ts:724-778 | A failed call leaves a previously unlinked user unlinked if and only if it did not get as far as the insert, or the insert threw without taking place, or it went well and taking it back removed the link. |
| `GoogleBind.AFailureCanLeaveItsLink` | src/modules/auth/auth.service.ts:724-778 | The two ways a failed call leaves its link, from the same start: the insert took place and threw, or patch and compensation both threw. |
| `GoogleBind.CleanRetryCompletes` | src/modules/auth/auth.service.ts:694-712 | After any run of failed calls one clean retry completes the bind, and every later call, with any fault injected, changes nothing. |
| `GoogleBind.BoundIsStable` | src/modules/auth/auth.service.ts:694-705 | A completed bind answers every further call with success and no side effect. |
| `Users.UserRepository.Create` | src/modules/users/users.repository.ts:93-97 | Refused exactly when the id, the address (collation, deleted rows included) or the username is taken. |
| `Users.UserRepository.FindById` | src/modules/users/users.repository.ts:98-101 | Finds live rows only. |
| `Users.UserRepository.FindByEmail` | src/modules/users/users.repository.ts:102-112 | Finds a live row with a collation-equal address. |
| `Users.UserRepository.FindAnyByEmail` | src/modules/users/users.repository.ts:157-164 | Finds a row with the address whether deleted or not; None exactly when the address is free. |
| `Users.UserRepository.Update` | src/modules/users/users.repository.ts:135-150 | Missing, duplicate address or the patched row, and nothing else changes. |
| `Users.UserRepository.MarkEmailVerified` | src/modules/users/users.repository.ts:151-156 | Marks the row only while it holds a collation-equal address. |
| `Users.UserRepository.SoftDelete` | src/modules/users/users.repository.ts:165-170 | Succeeds exactly on a live row. |
| `Users.UserRepository.FindDeletedBefore` | src/modules/users/users.repository.ts:171-179 | Returns exactly the accounts deleted before the cutoff. |
| `Users.UserRepository.Delete` | src/modules/users/users.repository.ts:180-182 | Removes the row and says whether it was there. |
| `Users.UserRepository.RemoveAllRoles` | src/modules/users/users.repository.ts:194-198 | Removes the user's role rows and counts them. |
| `Links.VerificationTokenRepository.Create` | src/modules/verification/verification.repository.ts:56-71 | Refused exactly when the id or the hash is taken. |
| `Links.VerificationTokenRepository.FindByHash` | src/modules/verification/verification.repository.ts:72-77 | Returns a link with the hash, used or not. |
| `Links.VerificationTokenRepository.Consume` | src/modules/verification/verification.repository.ts:78-83 | Succeeds exactly on an unused link, and marks only it. |
| `Links.VerificationTokenRepository.ConsumeAllForUser` | src/modules/verification/verification.repository.ts:84-95 | Marks exactly the user's unused account-changing links and counts them. |
| `Links.VerificationTokenRepository.DeleteAllForUser` | src/modules/verification/verification.repository.ts:96-105 | Removes exactly the user's links and counts them. |
| `Links.VerificationTokenRepository.DeleteExpiredBefore` | src/modules/verification/verification.repository.ts:106-115 | Removes exactly the links expired before the cutoff and counts them. |
| `SocialAccounts.SocialAccountRepository.FindByProviderAccount` | src/modules/auth/social.repository.ts:25-28 | Returns the user a Google account is linked to. |
| `SocialAccounts.SocialAccountRepository.Link` | src/modules/auth/social.repository.ts:34-50 | Refused exactly when the Google account or the row id is taken. |
| `SocialAccounts.SocialAccountRepository.DeleteAllForUser` | src/modules/auth/social.repository.ts:51-60 | Removes exactly the user's links and counts them. |
| `Orgs.OrgRepository.AddMember` | src/modules/orgs/orgs.repository.ts:150-153 | Adds the pair, once. |
| `Orgs.OrgRepository.RemoveAllMemberships` | src/modules/orgs/orgs.repository.ts:158-167 | Removes exactly the user's memberships and counts them. |
| `LinkTheorems.LinksActOnce` | src/modules/verification/verification.service.ts:120-258 | In every interleaving each link lets at most one request through, at an endpoint its purpose is meant for, with its own secret. |
| `LinkTheorems.CheapRefusalsKeepTheLink` | src/modules/verification/verification.service.ts:124-147 | A request refused for a weak password, an address found taken by the check, or expiry has used up no link. |
| `LinkTheorems.VerificationMarksItsAddress` | src/modules/verification/verification.service.ts:252-257 | Under any interleaving with address changes, a verification link marks only an address collation-equal to the one it names. |
| `LinkTheorems.ResetMarksProvenAddressIff` | src/modules/verification/verification.service.ts:205-218 | In every run, the address a reset marks is the one its link was mailed to if and only if no edit of the users table and no confirmed change of that account, between the reset's check and its own write, left the account elsewhere; no other step can. |
| `LinkTheorems.ResetCanMarkAnUnprovenAddress` | src/modules/verification/verification.service.ts:205-218 | The run in which it is not: the account is moved in between, and an address no link was ever mailed to ends up marked. |
| `LinkTheorems.TakenMeanwhileCostsTheLinkIff` | src/modules/verification/verification.service.ts:144-163 | In every run, a confirmed change that passed its address check uses up its link, and ends refused as invalid if the account is gone by then, otherwise as a duplicate key if and only if an edit of the users table or another account's confirmed change in between left the address with another account. |
| `LinkTheorems.AConfirmationCanLoseItsLink` | src/modules/verification/verification.service.ts:144-163 | The run in which that happens: the link is used up and the account keeps its old address. |
| `LinkTheorems.ClosedLinksStayClosed` | src/modules/verification/verification.service.ts:226-229 | After the step that closes an account's links, no account-changing link minted before it is ever consumed. |
| `LinkOutcomes.RequestsEndAsFound` | src/modules/verification/verification.service.ts:120-258 | In every run each redemption has ended, or not, exactly as the links, accounts and clock it found at its own turns say. |
| `LinkOutcomes.TurnsWriteAsMeant` | src/modules/verification/verification.service.ts:120-258 | What each turn of a redemption writes to the accounts and links, in plain fields. |
| `LinkOutcomes.OutsideWritesAsMeant` | src/modules/verification/verification.service.ts:40-86 | What happens beside the redemptions: a link is minted with its lifetime and recipient, links are pruned or purged, the users table is edited, and time passes. |
| `LinkRedemption.RunKeeps` | src/modules/verification/verification.service.ts:120-258 | Links are as minted, and what each request holds and used is on record, after any run. |
| `Erasure.RerunsConverge` | src/modules/users/users.service.ts:216-238 | However often the purge is stopped, after any accounts and any subset of the next one's statements, each attempt with a cutoff of its own: running it to the end gives the state of one uninterrupted run at the last cutoff. |
| `Erasure.StopKeepsTarget` | src/modules/users/users.service.ts:216-238 | A stopped purge leaves the next one the same end state. |
| `Erasure.StopLeavesNoOrphans` | src/modules/users/users.service.ts:219-223 | Wherever the purge stops, every remaining satellite row still has its user row. |
| `Erasure.OthersUntouched` | src/modules/users/users.service.ts:216-238 | A purge, finished or stopped, leaves every other account's rows of all tables as they were. |
| `Erasure.PurgedErases` | src/modules/users/users.service.ts:224-235 | The eleven statements of the nine deletions in any order and then the row erase exactly that account. |
| `PasskeyTheorems.LimitHolds` | src/modules/passkeys/passkey.service.ts:184-190 | With at most k registrations of an account in flight at any time it never holds more than MAX_PASSKEYS - 1 + k passkeys. |
| `PasskeyLimit.LimitIsAttained` | src/modules/passkeys/passkey.service.ts:184-213 | For every k of at least one, a run is given with at most k registrations in flight in which the account ends with exactly MAX_PASSKEYS - 1 + k passkeys. |
| `PasskeyTheorems.RegistrationAlone` | src/modules/passkeys/passkey.service.ts:184-213 | In every run, an accepted registration that then runs on alone is refused at the limit or for a known credential, and otherwise adds exactly one passkey of that user. |
| `PasskeyTheorems.CredentialsStayUnique` | src/modules/passkeys/passkey.service.ts:191-213 | However registrations interleave, no credential is stored twice. |
| `PasskeyTheorems.ChallengesServeOnce` | src/modules/passkeys/passkey.service.ts:69-77 | A challenge serves at most one request, of the purpose and user it was offered for, and nobody registers or signs in without having consumed one. |
| `PasskeyTheorems.ConsumedBeforeExpiry` | src/modules/passkeys/passkey.repository.ts:103-111 | The step that consumes a challenge finds it unused and before its expiry. |
| `PasskeyOutcomes.CeremoniesEndAsFound` | src/modules/passkeys/passkey.service.ts:53-214 | In every run each ceremony has ended, or not, exactly as the tables, the clock and the library's verdict it found at its own turns say. |
| `PasskeyOutcomes.TurnsWriteAsMeant` | src/modules/passkeys/passkey.service.ts:53-214 | What each turn of a ceremony writes to the passkeys and the challenges, in plain fields. |
| `PasskeyOutcomes.OutsideWritesAsMeant` | src/modules/passkeys/passkey.repository.ts:85-127 | What happens beside the ceremonies: one passkey or all of a user's are removed, a user is erased, expired challenges are pruned, and time passes. |
| `PasskeyOutcomes.SignedInIsTheOwner` | src/modules/passkeys/passkey.service.ts:96-131 | In every run, whoever a sign-in ended for owned a passkey with its credential in some state of that run, and at a turn of its own the request presented an unspent, unexpired challenge in a response the library verified. |
| `PasskeyOutcomes.SignInAlone` | src/modules/passkeys/passkey.service.ts:96-131 | Run alone, an accepted sign-in ends as the owner of the row with its credential, and rewrites only that row's counter and time and the challenge it consumed. |
| `PasskeyService.Handler.Turn` | src/modules/passkeys/passkey.service.ts:132-214 | One turn of a ceremony over the real repository is the transition system's step. |
| `PasskeyService.Handler.Register` | src/modules/passkeys/passkey.service.ts:188-213 | Count, look up, insert, and after a lost insert look up again. |
| `Passkeys.PasskeyRepository.Create` | src/modules/passkeys/passkey.repository.ts:59-72 | Inserted exactly when neither the credential nor the id is taken; the failure says which. |
| `Passkeys.PasskeyRepository.FindByCredentialHash` | src/modules/passkeys/passkey.repository.ts:73-76 | Returns the passkey with the credential, or None when there is none. |
| `Passkeys.PasskeyRepository.ListForUser` | src/modules/passkeys/passkey.repository.ts:77-79 | Exactly the user's passkeys, in order. |
| `Passkeys.PasskeyRepository.RecordUse` | src/modules/passkeys/passkey.repository.ts:80-84 | Updates the counter and time of the row with the id, and no other. |
| `Passkeys.PasskeyRepository.Delete` | src/modules/passkeys/passkey.repository.ts:85-89 | Removes the row only when it is the user's, and says whether it did. |
| `Passkeys.PasskeyRepository.CreateChallenge` | src/modules/passkeys/passkey.repository.ts:90-102 | Refused exactly when the hash is taken. |
| `Passkeys.PasskeyRepository.ConsumeChallenge` | src/modules/passkeys/passkey.repository.ts:103-111 | Succeeds exactly on an unused, unexpired challenge of that hash, purpose and user, and marks it. |
| `Passkeys.PasskeyRepository.DeleteExpiredChallengesBefore` | src/modules/passkeys/passkey.repository.ts:112-116 | Removes exactly the challenges expired before the cutoff and counts them. |
| `Passkeys.PasskeyRepository.DeleteAllForUser` | src/modules/passkeys/passkey.repository.ts:117-122 | Removes the user's passkeys and challenges and counts them. |
| `Passkeys.PasskeyRepository.DeleteAllPasskeysForUser` | src/modules/passkeys/passkey.repository.ts:123-127 | Removes the user's passkeys, leaves challenges, and counts them. |
| `Hotp.TruncationIsTheStandards` | src/lib/totp.ts:35-37 | For every 20-byte MAC the masks, shifts and ors on 32-bit values give the 31-bit big-endian number of section 5.3 of RFC 4226. |
| `Hotp.OffsetInRange` | src/lib/totp.ts:35-37 | The four bytes read lie within the MAC. |
| `Hotp.CodeSpellsTheNumber` | src/lib/totp.ts:20-39 | The code has exactly the asked number of digits and parses back to that number modulo ten to that power. |
| `Hotp.MessageIsBigEndian` | src/lib/totp.ts:25-26 | The eight bytes that are hashed are the counter modulo 2^64, highest byte first. |
| `Hotp.TimingSafeEqual` | src/lib/totp.ts:125-130 | The accumulating loop decides string equality. |
| `Hotp.MatchStep` | src/lib/totp.ts:44-54 | Returns the earliest step within one of the given one whose number the six digits spell, and None only when no step of the window matches. |
| `Base32.FromBase32Inverts` | src/lib/totp.ts:61-67 | Every byte string comes back from its unpadded base32 form under section 6 of RFC 4648. |
| `Radix.DecodeInverts` | src/lib/totp.ts:61-67 | Cutting the bits into groups of w and reading them back gives the bytes, for every width up to eight. |
| `Radix.EncodeSpellsTheNumber` | src/lib/totp.ts:61-67 | For every width, the groups and the bytes spell the same number, highest digit first, but for fewer zero bits than a group has at the end. |
| `Base32.SymbolsAreTheStandards` | src/lib/totp.ts:61-67 | The alphabet is that of section 6 of RFC 4648. |
| `BasicAuth.BasicCredentialsInvert` | src/modules/auth/auth.routes.ts:130-147 | For every id and secret, any spelling of the scheme and any encoder that leaves harmless ASCII alone, the Basic header of section 2.3.1 of RFC 6749 decodes to exactly that pair. |
| `BasicAuth.FormReturns` | src/modules/auth/auth.routes.ts:139 | Form-decoding inverts form-encoding for every string, non-ASCII characters included. |
| `BasicAuth.AtobInverts` | src/modules/auth/auth.routes.ts:136 | Base64-decoding inverts base64-encoding for every byte string. |
| `BasicAuth.SymbolsAreTheStandards` | src/modules/auth/auth.routes.ts:136 | The alphabet is that of section 4 of RFC 4648. |
| `BasicAuth.DecodesExactly` | src/modules/auth/auth.routes.ts:139 | The form decoder is exact: a string decodes to a text if and only if it writes every character as itself, unless it is a percent sign, or as the escapes, in either case, of its UTF-8 octets; anything else makes it throw. |
| `BasicAuth.OnlyEncodingsDecode` | src/modules/auth/auth.routes.ts:139 | The UTF-8 decoder takes exactly what the encoder puts out: nothing overlong, no surrogate, nothing incomplete. |
| `BasicAuth.PartIs` | src/modules/auth/auth.routes.ts:131-132 | A header is a Basic one if and only if it is the scheme in any case, alone or followed by white space and then credentials without a line end. |
| `Rbac.LastChangeDecides` | src/modules/rbac/rbac.repository.ts:87-155 | After any sequence of grants, assignments and revokes, exactly those whose last change was not a revoke are in force. |
| `Rbac.RbacRepository.PermissionsForUserInService` | src/modules/rbac/rbac.repository.ts:116-126 | The nested loops return exactly the keys reachable through roles of the service the user holds, each once. |
| `Rbac.RbacRepository.PermissionsForClientInService` | src/modules/rbac/rbac.repository.ts:133-143 | The same for a client. |
| `Rbac.TwoQueriesAnswer` | src/modules/rbac/rbac.repository.drizzle.ts:49-94 | The two joins return exactly the same keys, each once, whatever order the rows come in. |
| `Rbac.LookupsAgree` | src/modules/rbac/rbac.repository.drizzle.ts:49-94 | Two lookups that answer correctly return the same keys up to order. |
| `Rbac.CompositeKeyIsInjective` | src/modules/rbac/rbac.repository.ts:51 | No two grants share the composite string key, since ids contain no colon. |
| `Rbac.RbacRepository.CreateRole` | src/modules/rbac/rbac.repository.ts:56-68 | Refused exactly when the id is taken or the name collates with one of the same service. |
| `Rbac.RbacRepository.CreatePermission` | src/modules/rbac/rbac.repository.ts:69-83 | Refused exactly when the id is taken or the key collates with one of the same service. |
| `Rbac.RbacRepository.GrantPermissionToRole` | src/modules/rbac/rbac.repository.ts:87-90 | Adds the grant to the relations the strings stand for, and only it. |
| `Rbac.RbacRepository.RevokePermissionFromRole` | src/modules/rbac/rbac.repository.ts:144-147 | Removes the grant, and only it. |
| `Rbac.RbacRepository.AssignRoleToUser` | src/modules/rbac/rbac.repository.ts:91-96 | Adds the assignment, and only it. |
| `Rbac.RbacRepository.RemoveRoleFromUser` | src/modules/rbac/rbac.repository.ts:148-151 | Removes the assignment, and only it. |
| `Rbac.RbacRepository.AssignRoleToClient` | src/modules/rbac/rbac.repository.ts:127-132 | Adds the assignment, and only it. |
| `Rbac.RbacRepository.RemoveRoleFromClient` | src/modules/rbac/rbac.repository.ts:152-155 | Removes the assignment, and only it. |
| `Scope.ScopeRoundTrip` | src/middleware/auth.ts:37 | For non-empty keys, joining into the scope and splitting it again keeps the list, and the set, if and only if no key contains a space. |
| `Scope.SplitInverts` | src/modules/auth/auth.service.ts:209 | Splitting a join of keys without spaces gives the keys in order. |

## Left out

- HTTP routing, cookies, CSRF, pages, OpenAPI, logging and sending mail: input and output.
- bcrypt, HMAC, AES-GCM, RS256, key handling and the WebAuthn verification: opaque; their results are inputs.
- The Google token exchange: the identity is an input of the bind and the sign-in.
- Access tokens and id tokens: their claims are not part of a token pair here; a pair is the refresh token it creates.
- `clientCredentialsGrant`, `validateAuthorizeRequest`, `logout` and the session lookups: no state beyond one read or one write.
- Profile fields (names, picture), timestamps of creation and update, and listings: copied, never branched on.
- The password policy's word list: a chosen password says whether it is acceptable.
- Timing equalisation (the dummy hash, constant-time claims): not a functional property.
- The rate limiter, configuration parsing, seeding and the admin wrappers.
- MySQL's rounding of `revoked_at`: the stored time is the clock's, so the grace window is exact.
- Token, code, link and credential hashes are compared exactly where the in-memory code compares by collation: they are lower-case hexadecimal.
- `users.repository.drizzle.ts` answers an update of a soft-deleted row with null after writing it: the in-memory repository is modelled, and `GoogleBind` has that outcome among its faults.
- Memberships are pairs, where the in-memory repository joins them into strings of two UUIDs.
- A prune and a purge delete table by table in the listed order in the imperative methods; `Erasure` proves the order of the deletions irrelevant.
- `AuthService.Handler.Decide`: steps that read only the request's own locals call the specification's functions for them; what those decide is told by `GrantEndings`.
- `TotpService.TotpService.Verify`: takes its input already trimmed, and how a recovery code is normalised is an opaque function.
- `BasicAuth.BasicCredentialsInvert`: strings are Unicode scalar values, so a lone surrogate, which no client can encode, is not among the inputs.
- Folding Basic credentials into the body parameters, and refusing two methods or two client ids: a few map updates.
- `LoginAttempts.Counter.RecordFailure`: limit and period are finite reals; an infinite value, and the rounding of the clock plus the period to a double (by which a period below about a ten-thousandth of a millisecond is lost), are not modelled.
- `Hotp.TimingSafeEqual`: strings are Unicode scalar values, where the code compares UTF-16 units; its caller gives it six ASCII digits.
- The decoders of `@std/encoding` also reject malformed padding; `Base32` models only what decoding an encoded string needs.
- `otpauthUri`, `sealSecret`, `openSecret` and `generateRecoveryCodes`: formatting and randomness.
- The route that disables TOTP checks its proof without the failure counter; its rate limit is the limiter's.
