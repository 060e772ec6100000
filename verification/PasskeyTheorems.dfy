/** What holds of the passkeys and challenges in every interleaving. */
module PasskeyTheorems {
  import opened Base
  import opened Rows
  import opened Passkeys
  import opened PasskeyRaces

  // ----- the limit

  /** A registration for the account that has arrived and is not done. */
  predicate InFlight(q: Request, userId: Id) {
    q.input.RegisterInput? && q.input.userId == userId && !q.pc.Done?
  }

  /** ... and that passed the count but has not inserted its row yet. */
  predicate PastTheCount(q: Request, userId: Id) {
    q.input.RegisterInput? && q.input.userId == userId && (q.pc.BelowLimit? || q.pc.Inserting?)
  }

  function Registering(w: World, userId: Id): set<ReqId> {
    set r | r in w.requests && InFlight(w.requests[r], userId)
  }

  function Counted(w: World, userId: Id): set<ReqId> {
    set r | r in w.requests && PastTheCount(w.requests[r], userId)
  }

  /** No state of the run has more than k registrations for the account in flight. */
  predicate AtMost(w: World, events: seq<Event>, userId: Id, k: nat)
    decreases events
  {
    |Registering(w, userId)| <= k && (events == [] || AtMost(Step(w, events[0]), events[1..], userId, k))
  }

  /** What the next k - 1 inserts can still add is accounted for. */
  predicate RoomKept(w: World, userId: Id, k: nat) {
    |Owned(w.db.rows, userId)| + |Counted(w, userId)| <= MAX_PASSKEYS - 1 + k
  }

  lemma OutsideOnlyRemoves(db: Db, e: Event, userId: Id)
    ensures |Owned(Outside(db, e).rows, userId)| <= |Owned(db.rows, userId)|
  {
    match e {
      case Remove(u, id) => KeptShrinks(db.rows, Other(u, id), OwnedBy(userId));
      case RevokeAll(u) => KeptShrinks(db.rows, NotOwnedBy(u), OwnedBy(userId));
      case Erase(u) => KeptShrinks(db.rows, NotOwnedBy(u), OwnedBy(userId));
      case _ =>
    }
  }

  /** Only an insert for the account adds to its passkeys, and it adds one. */
  lemma EffectOnCount(db: Db, r: ReqId, effect: Effect, userId: Id)
    ensures |Owned(Apply(db, r, effect).rows, userId)| ==
            |Owned(db.rows, userId)| + if effect.Insert? && effect.row.userId == userId then 1 else 0
  {
    match effect {
      case Insert(row) => KeptAppend(db.rows, row, OwnedBy(userId));
      case Record(id, counter) => {
        var i := First(db.rows, HasId(id));
        if i < |db.rows| {
          KeptRewrite(db.rows, i, db.rows[i].(counter := counter, lastUsedAt := Some(db.now)), OwnedBy(userId));
        }
      }
      case _ =>
    }
  }

  /** One request moves: it joins the counted ones only below the limit, and leaves them when it inserts. */
  lemma TurnOnCount(w: World, r: ReqId, answer: Answer, userId: Id)
    requires r in w.requests
    ensures var v := Step(w, Turn(r, answer));
            var before, after := PastTheCount(w.requests[r], userId), PastTheCount(v.requests[r], userId);
            var effect := Advance(w.db, w.requests[r], answer).effect;
            && v.requests.Keys == w.requests.Keys
            && (forall s :: s in w.requests && s != r ==> v.requests[s] == w.requests[s])
            && (after && !before ==> |Owned(w.db.rows, userId)| < MAX_PASSKEYS && effect.Nothing?)
            && (effect.Insert? && effect.row.userId == userId ==> before && !after)
  {
  }

  lemma OneMember(before: set<ReqId>, after: set<ReqId>, r: ReqId)
    requires forall s :: s != r ==> (s in before <==> s in after)
    ensures |after| == |before| + (if r in after then 1 else 0) - (if r in before then 1 else 0)
  {
    assert after - {r} == before - {r};
    assert r in after ==> after == (after - {r}) + {r};
    assert r in before ==> before == (before - {r}) + {r};
    assert r !in after ==> after == after - {r};
    assert r !in before ==> before == before - {r};
  }

  lemma CountedBound(w: World, userId: Id)
    ensures |Counted(w, userId)| <= |Registering(w, userId)|
  {
    assert Registering(w, userId) == Counted(w, userId) + (Registering(w, userId) - Counted(w, userId));
  }

  lemma StepKeepsRoom(w: World, e: Event, userId: Id, k: nat)
    requires RoomKept(w, userId, k) && |Registering(Step(w, e), userId)| <= k
    ensures RoomKept(Step(w, e), userId, k)
  {
    var v := Step(w, e);
    if e.Turn? && e.r in w.requests {
      TurnOnCount(w, e.r, e.answer, userId);
      EffectOnCount(w.db, e.r, Advance(w.db, w.requests[e.r], e.answer).effect, userId);
      OneMember(Counted(w, userId), Counted(v, userId), e.r);
      CountedBound(v, userId);
    } else {
      OutsideOnlyRemoves(w.db, e, userId);
      assert Counted(v, userId) == Counted(w, userId);
    }
  }

  lemma {:induction false} RunKeepsRoom(w: World, events: seq<Event>, userId: Id, k: nat)
    requires RoomKept(w, userId, k) && AtMost(w, events, userId, k)
    ensures RoomKept(Run(w, events), userId, k)
    decreases events
  {
    if events != [] {
      StepKeepsRoom(w, events[0], userId, k);
      RunKeepsRoom(Step(w, events[0]), events[1..], userId, k);
    }
  }

  /** With at most k registrations of an account in flight it never holds more than MAX_PASSKEYS - 1 + k. */
  lemma LimitHolds(now: Time, events: seq<Event>, userId: Id, k: nat)
    requires AtMost(Init(now), events, userId, k)
    ensures |Owned(Run(Init(now), events).db.rows, userId)| <= MAX_PASSKEYS - 1 + k
  {
    assert RoomKept(Init(now), userId, k);
    RunKeepsRoom(Init(now), events, userId, k);
  }

  // ----- credentials and challenges

  ghost predicate UniqueCredentials(rows: seq<Passkey>) {
    forall i, j :: 0 <= i < j < |rows| ==> rows[i].credentialHash != rows[j].credentialHash
  }

  /** Every stored challenge is one that was offered, and is unspent exactly while nobody consumed it. */
  ghost predicate ChallengesOk(db: Db) {
    && (forall c :: c in db.challenges ==>
          c.hash in db.offered && db.offered[c.hash] == c.(consumedAt := None)
          && (c.hash in db.usedBy <==> c.consumedAt.Some?))
    && (forall i, j :: 0 <= i < j < |db.challenges| ==> db.challenges[i].hash != db.challenges[j].hash)
    && (forall h :: h in db.usedBy ==> h in db.offered)
    && (forall h :: h in db.offered ==> h.preimage < db.supply)
  }

  function PurposeOf(input: Input): Purpose {
    if input.RegisterInput? then Register else Authenticate
  }

  function UserOf(input: Input): Option<Id> {
    if input.RegisterInput? then Some(input.userId) else None
  }

  /** What a request consumed was offered for its purpose and user, and to no other request. */
  ghost predicate RequestOk(db: Db, r: ReqId, q: Request) {
    && (q.used.Some? ==>
          && q.used.value in db.usedBy && db.usedBy[q.used.value] == r
          && (q.input.RegisterInput? || q.input.SignIn?) && q.used.value == HashToken(q.input.challenge)
          && q.used.value in db.offered
          && db.offered[q.used.value].purpose == PurposeOf(q.input)
          && db.offered[q.used.value].userId == UserOf(q.input))
    && (q.pc.Verified? || q.pc.BelowLimit? || q.pc.Inserting? || q.pc.Clashed? || q.pc.Recording? ==> q.used.Some?)
    && (q.pc.Found? || q.pc.Recording? ==> q.input.SignIn? && q.pc.row.credentialHash == q.input.credential)
    && (q.pc.Start? || q.pc.Found? ==> q.used.None?)
    && (q.pc.Done? && (q.pc.outcome.Registered? || q.pc.outcome.SignedIn?) ==> q.used.Some?)
  }

  ghost predicate Inv(w: World) {
    && UniqueCredentials(w.db.rows) && ChallengesOk(w.db)
    && forall r :: r in w.requests ==> RequestOk(w.db, r, w.requests[r])
  }

  /** A filter keeps distinct things distinct. */
  lemma {:induction false} KeptCredentials(rows: seq<Passkey>, keep: Passkey -> bool)
    requires UniqueCredentials(rows)
    ensures UniqueCredentials(Kept(rows, keep))
  {
    if rows != [] {
      var init, x := rows[..|rows| - 1], rows[|rows| - 1];
      KeptCredentials(init, keep);
      var kept := Kept(init, keep);
      forall i | 0 <= i < |kept| ensures kept[i].credentialHash != x.credentialHash {
        assert kept[i] in init;
      }
    }
  }

  ghost predicate DistinctHashes(challenges: seq<Challenge>) {
    forall i, j :: 0 <= i < j < |challenges| ==> challenges[i].hash != challenges[j].hash
  }

  lemma {:induction false} KeptHashes(challenges: seq<Challenge>, keep: Challenge -> bool)
    requires DistinctHashes(challenges)
    ensures DistinctHashes(Kept(challenges, keep))
  {
    if challenges != [] {
      var init, x := challenges[..|challenges| - 1], challenges[|challenges| - 1];
      KeptHashes(init, keep);
      var kept := Kept(init, keep);
      forall i | 0 <= i < |kept| ensures kept[i].hash != x.hash {
        assert kept[i] in init;
      }
    }
  }

  lemma OutsideKeeps(db: Db, e: Event)
    requires UniqueCredentials(db.rows) && ChallengesOk(db)
    ensures var d := Outside(db, e);
            UniqueCredentials(d.rows) && ChallengesOk(d) && d.usedBy == db.usedBy && d.offered == db.offered
  {
    match e {
      case Remove(userId, id) => KeptCredentials(db.rows, Other(userId, id));
      case RevokeAll(userId) => KeptCredentials(db.rows, NotOwnedBy(userId));
      case Erase(userId) => {
        KeptCredentials(db.rows, NotOwnedBy(userId));
        KeptHashes(db.challenges, NotFor(userId));
      }
      case Prune(cutoff) => KeptHashes(db.challenges, NotExpiredBefore(cutoff));
      case _ =>
    }
  }

  /** What a write needs: an unspent challenge, a credential no row has. */
  predicate Allowed(db: Db, effect: Effect) {
    match effect
    case Spend(i) => i < |db.challenges| && db.challenges[i].consumedAt.None?
    case Insert(row) => InsertResult(db.rows, row).Inserted?
    case _ => true
  }

  lemma RowsKeep(db: Db, r: ReqId, effect: Effect)
    requires UniqueCredentials(db.rows) && Allowed(db, effect)
    ensures UniqueCredentials(Apply(db, r, effect).rows)
  {
  }

  lemma ChallengesKeep(db: Db, r: ReqId, effect: Effect)
    requires ChallengesOk(db) && Allowed(db, effect)
    ensures var d := Apply(db, r, effect);
            && ChallengesOk(d)
            && (forall h :: h in db.usedBy ==> h in d.usedBy && d.usedBy[h] == db.usedBy[h])
            && (forall h :: h in db.offered ==> h in d.offered && d.offered[h] == db.offered[h])
  {
  }

  lemma AdvanceKeeps(db: Db, r: ReqId, q: Request, answer: Answer)
    requires ChallengesOk(db) && RequestOk(db, r, q)
    ensures var move := Advance(db, q, answer);
            Allowed(db, move.effect) && RequestOk(Apply(db, r, move.effect), r, move.request)
  {
    if q.pc.Start? || q.pc.Found? {
      CheckKeeps(db, r, q, answer);
    } else {
      LaterKeeps(db, r, q, answer);
    }
  }

  /** The steps that can consume the challenge. */
  lemma CheckKeeps(db: Db, r: ReqId, q: Request, answer: Answer)
    requires ChallengesOk(db) && RequestOk(db, r, q) && (q.pc.Start? || q.pc.Found?)
    ensures var move := Advance(db, q, answer);
            Allowed(db, move.effect) && RequestOk(Apply(db, r, move.effect), r, move.request)
  {
  }

  lemma LaterKeeps(db: Db, r: ReqId, q: Request, answer: Answer)
    requires ChallengesOk(db) && RequestOk(db, r, q) && !q.pc.Start? && !q.pc.Found?
    ensures var move := Advance(db, q, answer);
            Allowed(db, move.effect) && RequestOk(Apply(db, r, move.effect), r, move.request)
  {
  }

  lemma StepKeeps(w: World, e: Event)
    requires Inv(w)
    ensures Inv(Step(w, e))
  {
    var v := Step(w, e);
    if e.Turn? && e.r in w.requests {
      var effect := Advance(w.db, w.requests[e.r], e.answer).effect;
      AdvanceKeeps(w.db, e.r, w.requests[e.r], e.answer);
      RowsKeep(w.db, e.r, effect);
      ChallengesKeep(w.db, e.r, effect);
    } else {
      OutsideKeeps(w.db, e);
    }
  }

  lemma {:induction false} RunKeeps(w: World, events: seq<Event>)
    requires Inv(w)
    ensures Inv(Run(w, events))
    decreases events
  {
    if events != [] {
      StepKeeps(w, events[0]);
      RunKeeps(Step(w, events[0]), events[1..]);
    }
  }

  /** However registrations interleave, no credential is stored twice. */
  lemma CredentialsStayUnique(now: Time, events: seq<Event>)
    ensures UniqueCredentials(Run(Init(now), events).db.rows)
  {
    RunKeeps(Init(now), events);
  }

  /**
    A challenge serves at most one request, of the purpose and user it was offered for; and
    nobody registers a passkey or signs in without having consumed one.
   */
  lemma ChallengesServeOnce(now: Time, events: seq<Event>, r: ReqId, s: ReqId)
    requires var w := Run(Init(now), events); r in w.requests && s in w.requests
    ensures var w := Run(Init(now), events);
            var q := w.requests[r];
            && (q.used.Some? && q.used == w.requests[s].used ==> r == s)
            && (q.used.Some? ==>
                  && q.used.value in w.db.offered
                  && w.db.offered[q.used.value].purpose == PurposeOf(q.input)
                  && w.db.offered[q.used.value].userId == UserOf(q.input))
            && (q.pc.Done? && (q.pc.outcome.Registered? || q.pc.outcome.SignedIn?) ==> q.used.Some?)
  {
    RunKeeps(Init(now), events);
    var w := Run(Init(now), events);
    assert RequestOk(w.db, r, w.requests[r]) && RequestOk(w.db, s, w.requests[s]);
  }

  /** The step that consumes a challenge happens before the challenge expires. */
  lemma ConsumedBeforeExpiry(w: World, r: ReqId, answer: Answer)
    requires Inv(w) && r in w.requests
    requires Step(w, Turn(r, answer)).requests[r].used != w.requests[r].used
    ensures var h := Step(w, Turn(r, answer)).requests[r].used;
            && h.Some? && h.value in w.db.offered && h.value !in w.db.usedBy
            && w.db.now < w.db.offered[h.value].expiresAt
  {
    assert RequestOk(w.db, r, w.requests[r]);
  }

  /** Every row has an id drawn from the supply. */
  predicate IdsDrawn(db: Db) {
    forall p :: p in db.rows ==> p.id < db.supply
  }

  lemma StepKeepsIds(w: World, e: Event)
    requires IdsDrawn(w.db)
    ensures IdsDrawn(Step(w, e).db)
  {
  }

  lemma {:induction false} RunKeepsIds(w: World, events: seq<Event>)
    requires IdsDrawn(w.db)
    ensures IdsDrawn(Run(w, events).db)
    decreases events
  {
    if events != [] {
      StepKeepsIds(w, events[0]);
      RunKeepsIds(Step(w, events[0]), events[1..]);
    }
  }

  /**
    In every run, a registration whose challenge was accepted and which then runs on alone is
    refused at the limit or when the credential is known, and otherwise adds exactly one
    passkey of that user.
   */
  lemma RegistrationAlone(now: Time, events: seq<Event>, r: ReqId, answer: Answer)
    requires var w := Run(Init(now), events);
             r in w.requests && w.requests[r].pc.Verified? && w.requests[r].input.RegisterInput?
    ensures var w := Run(Init(now), events);
            var v := Step(Step(Step(w, Turn(r, answer)), Turn(r, answer)), Turn(r, answer));
            var userId, credential := w.requests[r].input.userId, w.requests[r].input.credential;
            && r in v.requests
            && if |Owned(w.db.rows, userId)| >= MAX_PASSKEYS then v.requests[r].pc == Done(LimitReached) && v.db == w.db
               else if HoldsCredential(w.db.rows, credential)
               then v.requests[r].pc == Done(AlreadyRegistered) && v.db == w.db
               else v.requests[r].pc == Done(Registered)
                    && v.db.rows == w.db.rows + [Passkey(w.db.supply, userId, credential, answer.counter, None)]
                    && |Owned(v.db.rows, userId)| == |Owned(w.db.rows, userId)| + 1
  {
    RunKeepsIds(Init(now), events);
    RegistrationRunsOn(Run(Init(now), events), r, answer);
  }

  lemma RegistrationRunsOn(w: World, r: ReqId, answer: Answer)
    requires r in w.requests && w.requests[r].pc.Verified? && w.requests[r].input.RegisterInput?
    requires IdsDrawn(w.db)
    ensures var v := Step(Step(Step(w, Turn(r, answer)), Turn(r, answer)), Turn(r, answer));
            var userId, credential := w.requests[r].input.userId, w.requests[r].input.credential;
            && r in v.requests
            && if |Owned(w.db.rows, userId)| >= MAX_PASSKEYS then v.requests[r].pc == Done(LimitReached) && v.db == w.db
               else if HoldsCredential(w.db.rows, credential)
               then v.requests[r].pc == Done(AlreadyRegistered) && v.db == w.db
               else v.requests[r].pc == Done(Registered)
                    && v.db.rows == w.db.rows + [Passkey(w.db.supply, userId, credential, answer.counter, None)]
                    && |Owned(v.db.rows, userId)| == |Owned(w.db.rows, userId)| + 1
  {
    var w1 := Step(w, Turn(r, answer));
    assert w1.db == w.db && w1.requests[r].input == w.requests[r].input;
    if w1.requests[r].pc.Done? {
      DoneStays(w1, r, answer);
    } else {
      var w2 := Step(w1, Turn(r, answer));
      assert w2.db == w.db && w2.requests[r].input == w.requests[r].input;
      if w2.requests[r].pc.Done? {
        DoneStays(w2, r, answer);
      } else {
        InsertsOne(w2, r, answer);
      }
    }
  }

  lemma DoneStays(w: World, r: ReqId, answer: Answer)
    requires r in w.requests && w.requests[r].pc.Done?
    ensures Step(w, Turn(r, answer)) == w
  {
    assert w.requests[r := w.requests[r]] == w.requests;
  }

  lemma InsertsOne(w: World, r: ReqId, answer: Answer)
    requires r in w.requests && w.requests[r].pc.Inserting? && w.requests[r].input.RegisterInput?
    requires IdsDrawn(w.db)
    requires !HoldsCredential(w.db.rows, w.requests[r].input.credential)
    ensures var v := Step(w, Turn(r, answer));
            var userId, credential := w.requests[r].input.userId, w.requests[r].input.credential;
            && r in v.requests && v.requests[r].pc == Done(Registered)
            && v.db.rows == w.db.rows + [Passkey(w.db.supply, userId, credential, answer.counter, None)]
            && |Owned(v.db.rows, userId)| == |Owned(w.db.rows, userId)| + 1
  {
    var row := Passkey(w.db.supply, w.requests[r].input.userId, w.requests[r].input.credential, answer.counter, None);
    KeptAppend(w.db.rows, row, OwnedBy(row.userId));
  }
}
