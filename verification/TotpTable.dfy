/** The user_totp and totp_recovery_codes tables and their repository. */
module TotpTable {
  import opened Base
  import opened Rows

  datatype TotpRecord = TotpRecord(secret: Digest, enabledAt: Option<Time>, lastStep: int)

  datatype RecoveryRow = RecoveryRow(userId: Id, codeHash: Digest, usedAt: Option<Time>)

  function NotOwnedBy(userId: Id): RecoveryRow -> bool {
    (r: RecoveryRow) => r.userId != userId
  }

  function FreshRows(userId: Id, hashes: seq<Digest>): (rows: seq<RecoveryRow>)
    ensures |rows| == |hashes| && forall i :: 0 <= i < |hashes| ==> rows[i] == RecoveryRow(userId, hashes[i], None)
  {
    seq(|hashes|, i requires 0 <= i < |hashes| => RecoveryRow(userId, hashes[i], None))
  }

  predicate Distinct(hashes: seq<Digest>) {
    forall i, j :: 0 <= i < j < |hashes| ==> hashes[i] != hashes[j]
  }

  predicate Unspent(row: RecoveryRow, userId: Id, codeHash: Digest) {
    row.userId == userId && row.codeHash == codeHash && row.usedAt.None?
  }

  /** Among other users' rows and a user's fresh ones, a hash is stored for the user iff it is one of the fresh. */
  lemma OnlyFreshRowsMatch(others: seq<RecoveryRow>, userId: Id, hashes: seq<Digest>, hash: Digest)
    requires forall r :: r in others ==> r.userId != userId
    ensures var rows := others + FreshRows(userId, hashes);
            (exists i :: 0 <= i < |rows| && rows[i].userId == userId && rows[i].codeHash == hash) <==> hash in hashes
  {
    var rows := others + FreshRows(userId, hashes);
    assert forall j :: 0 <= j < |others| ==> others[j] in others && rows[j] == others[j];
    assert forall j :: 0 <= j < |hashes| ==> rows[|others| + j].codeHash == hashes[j];
  }

  method StoredFor(codes: seq<RecoveryRow>, userId: Id, codeHash: Digest) returns (taken: bool)
    ensures taken <==> exists i :: 0 <= i < |codes| && codes[i].userId == userId && codes[i].codeHash == codeHash
  {
    for i := 0 to |codes|
      invariant forall j :: 0 <= j < i ==> !(codes[j].userId == userId && codes[j].codeHash == codeHash)
    {
      if codes[i].userId == userId && codes[i].codeHash == codeHash {
        return true;
      }
    }
    return false;
  }

  /** Adds the hashes one by one until one repeats. */
  method StoreEach(others: seq<RecoveryRow>, userId: Id, hashes: seq<Digest>)
    returns (codes: seq<RecoveryRow>, stored: nat)
    requires forall r :: r in others ==> r.userId != userId
    ensures stored <= |hashes| && Distinct(hashes[..stored])
    ensures stored < |hashes| ==> hashes[stored] in hashes[..stored]
    ensures codes == others + FreshRows(userId, hashes[..stored])
  {
    codes, stored := others, 0;
    while stored < |hashes|
      invariant stored <= |hashes| && Distinct(hashes[..stored])
      invariant codes == others + FreshRows(userId, hashes[..stored])
    {
      var taken := StoredFor(codes, userId, hashes[stored]);
      OnlyFreshRowsMatch(others, userId, hashes[..stored], hashes[stored]);
      if taken {
        return;
      }
      codes := codes + [RecoveryRow(userId, hashes[stored], None)];
      assert FreshRows(userId, hashes[..stored + 1]) ==
             FreshRows(userId, hashes[..stored]) + [RecoveryRow(userId, hashes[stored], None)];
      stored := stored + 1;
    }
  }

  class TotpRepository {
    var totp: map<Id, TotpRecord>
    var codes: seq<RecoveryRow>

    constructor ()
      ensures totp == map[] && codes == []
    {
      totp, codes := map[], [];
    }

    method CreatePending(userId: Id, secret: Digest) returns (ok: bool)
      modifies this
      ensures ok == (userId !in old(totp)) && codes == old(codes)
      ensures totp == if ok then old(totp)[userId := TotpRecord(secret, None, 0)] else old(totp)
    {
      ok := userId !in totp;
      if ok {
        totp := totp[userId := TotpRecord(secret, None, 0)];
      }
    }

    /** Never touches an enabled row. */
    method DeletePending(userId: Id) returns (n: nat)
      modifies this
      ensures n == (if userId in old(totp) && old(totp)[userId].enabledAt.None? then 1 else 0) && codes == old(codes)
      ensures totp == if n == 1 then old(totp) - {userId} else old(totp)
    {
      if userId !in totp || totp[userId].enabledAt.Some? {
        return 0;
      }
      totp := totp - {userId};
      return 1;
    }

    method Enable(userId: Id, step: int, at: Time) returns (won: bool)
      modifies this
      ensures won == (userId in old(totp) && old(totp)[userId].enabledAt.None?) && codes == old(codes)
      ensures totp == if won then old(totp)[userId := old(totp)[userId].(enabledAt := Some(at), lastStep := step)]
                      else old(totp)
    {
      if userId !in totp || totp[userId].enabledAt.Some? {
        return false;
      }
      totp := totp[userId := totp[userId].(enabledAt := Some(at), lastStep := step)];
      return true;
    }

    /** The replay guard: only a step later than the last accepted one passes, and is recorded. */
    method AdvanceStep(userId: Id, step: int) returns (won: bool)
      modifies this
      ensures won == (userId in old(totp) && old(totp)[userId].lastStep < step) && codes == old(codes)
      ensures totp == if won then old(totp)[userId := old(totp)[userId].(lastStep := step)] else old(totp)
    {
      if userId !in totp || totp[userId].lastStep >= step {
        return false;
      }
      totp := totp[userId := totp[userId].(lastStep := step)];
      return true;
    }

    /** Replaces the user's codes; a repeated hash is refused, with the ones before it stored. */
    method ReplaceRecoveryCodes(userId: Id, hashes: seq<Digest>) returns (stored: nat)
      modifies this
      ensures totp == old(totp)
      ensures stored <= |hashes| && Distinct(hashes[..stored])
      ensures stored < |hashes| ==> hashes[stored] in hashes[..stored]
      ensures codes == Kept(old(codes), NotOwnedBy(userId)) + FreshRows(userId, hashes[..stored])
    {
      codes := Filter(codes, NotOwnedBy(userId));
      codes, stored := StoreEach(codes, userId, hashes);
    }

    /** Marks one unused row of the code as used; false means unknown or already used. */
    method ConsumeRecoveryCode(userId: Id, codeHash: Digest, now: Time) returns (won: bool)
      modifies this
      ensures totp == old(totp)
      ensures won == exists i :: && 0 <= i < |old(codes)| && old(codes)[i].userId == userId
                                 && old(codes)[i].codeHash == codeHash && old(codes)[i].usedAt.None?
      ensures !won ==> codes == old(codes)
      ensures won ==> exists i :: 0 <= i < |old(codes)| && Unspent(old(codes)[i], userId, codeHash)
                                  && codes == old(codes)[i := old(codes)[i].(usedAt := Some(now))]
    {
      for i := 0 to |codes|
        invariant codes == old(codes) && totp == old(totp)
        invariant forall j :: 0 <= j < i ==> !Unspent(codes[j], userId, codeHash)
      {
        if Unspent(codes[i], userId, codeHash) {
          codes := codes[i := codes[i].(usedAt := Some(now))];
          return true;
        }
      }
      return false;
    }

    /** Both tables; the count is the rows removed. */
    method DeleteAllForUser(userId: Id) returns (n: nat)
      modifies this
      ensures totp == old(totp) - {userId} && codes == Kept(old(codes), NotOwnedBy(userId))
      ensures forall c :: c in codes <==> c in old(codes) && c.userId != userId
      ensures n == |old(codes)| - |codes| + |old(totp)| - |totp|
    {
      var before := |codes|;
      codes := Filter(codes, NotOwnedBy(userId));
      n := before - |codes|;
      if userId in totp {
        assert (totp - {userId}).Keys == totp.Keys - {userId};
        n := n + 1;
      } else {
        assert totp - {userId} == totp;
      }
      totp := totp - {userId};
    }
  }
}
