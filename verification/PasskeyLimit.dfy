/**
  The passkey limit is overrun exactly as far as the bound allows: with k registrations in
  flight an account can come to hold MAX_PASSKEYS - 1 + k passkeys.
 */
module PasskeyLimit {
  import opened Base
  import opened Rows
  import opened Passkeys
  import opened PasskeyRaces
  import opened PasskeyTheorems

  /** Everything goes well: the account has an address, and the authenticator's response verifies. */
  const WELL := Answer(true, true, true, 0)

  // ----- the events

  /** Request 2i asks for a challenge, and is given the secret `s`. */
  function Offered(i: nat, userId: Id, now: Time): seq<Event> {
    [Arrive(2 * i, RegistrationOptions(userId, now)), Turn(2 * i, WELL), Turn(2 * i, WELL), Turn(2 * i, WELL),
     Turn(2 * i, WELL)]
  }

  /** Request 2i + 1 redeems it and passes the count and the lookup. */
  function Admitted(i: nat, s: Secret, userId: Id): seq<Event> {
    [Arrive(2 * i + 1, RegisterInput(userId, s, HashToken(s))), Turn(2 * i + 1, WELL), Turn(2 * i + 1, WELL),
     Turn(2 * i + 1, WELL)]
  }

  function Unit(i: nat, s: Secret, userId: Id, now: Time): seq<Event> {
    Offered(i, userId, now) + Admitted(i, s, userId)
  }

  function Registration(i: nat, userId: Id, now: Time): seq<Event> {
    Unit(i, 2 * i, userId, now) + [Turn(2 * i + 1, WELL)]
  }

  /** Registrations one after the other, from number i on. */
  function Serial(i: nat, n: nat, userId: Id, now: Time): seq<Event>
    decreases n
  {
    if n == 0 then [] else Registration(i, userId, now) + Serial(i + 1, n - 1, userId, now)
  }

  /** Registrations that all stop right before their insert; their secrets are their numbers and `shift`. */
  function Gathered(i: nat, shift: nat, k: nat, userId: Id, now: Time): seq<Event>
    decreases k
  {
    if k == 0 then [] else Unit(i, i + shift, userId, now) + Gathered(i + 1, shift, k - 1, userId, now)
  }

  /** Their inserts. */
  function Released(i: nat, k: nat): seq<Event>
    decreases k
  {
    if k == 0 then [] else [Turn(2 * i + 1, WELL)] + Released(i + 1, k - 1)
  }

  function Overrun(k: nat, userId: Id, now: Time): seq<Event> {
    var full := MAX_PASSKEYS - 1;
    Serial(0, full, userId, now) + (Gathered(full, full, k, userId, now) + Released(full, k))
  }

  // ----- running them

  lemma {:induction false} RunsThrough(w: World, a: seq<Event>, b: seq<Event>)
    ensures Run(w, a + b) == Run(Run(w, a), b)
    decreases a
  {
    if a == [] {
      assert a + b == b;
    } else {
      assert (a + b)[0] == a[0] && (a + b)[1..] == a[1..] + b;
      RunsThrough(Step(w, a[0]), a[1..], b);
    }
  }

  lemma FourSteps(w: World, events: seq<Event>)
    requires |events| == 4
    ensures Run(w, events) == Step(Step(Step(Step(w, events[0]), events[1]), events[2]), events[3])
  {
    var w1 := Step(w, events[0]);
    var w2 := Step(w1, events[1]);
    var w3 := Step(w2, events[2]);
    var w4 := Step(w3, events[3]);
    assert events[1..][1..] == events[2..] && events[2..][1..] == events[3..] && events[3..][1..] == [];
    assert Run(w3, events[3..]) == Run(w4, []);
    assert Run(w1, events[1..]) == Run(w2, events[2..]) == Run(w3, events[3..]);
  }

  /** What is known between the registrations: everything was drawn before `s`, and requests come in order. */
  predicate Tidy(w: World, i: nat, s: Secret) {
    && w.db.supply == s
    && (forall p :: p in w.db.rows ==> p.id < s && p.credentialHash.preimage < s)
    && (forall c :: c in w.db.challenges ==> c.hash.preimage < s)
    && (forall r :: r in w.requests ==> r < 2 * i)
  }

  /** Request 2i + 1 is about to insert the passkey with its own credential. */
  predicate Waits(w: World, i: nat, shift: nat, userId: Id) {
    && 2 * i + 1 in w.requests && w.requests[2 * i + 1].pc.Inserting?
    && w.requests[2 * i + 1].input == RegisterInput(userId, i + shift, HashToken(i + shift))
  }

  predicate KeepsRequests(w: World, v: World) {
    forall r :: r in w.requests ==> r in v.requests && v.requests[r] == w.requests[r]
  }

  /** What handing out the challenge changes. */
  predicate OfferMade(w: World, v: World, i: nat, s: Secret, userId: Id) {
    && v.db.rows == w.db.rows && v.db.now == w.db.now && v.db.supply == s + 1
    && v.db.challenges ==
         w.db.challenges + [Challenge(HashToken(s), Register, Some(userId), w.db.now + CHALLENGE_TTL_MS, None)]
    && v.requests.Keys == w.requests.Keys + {2 * i} && KeepsRequests(w, v)
  }

  /** What redeeming it changes. */
  predicate LetIn(w: World, v: World, before: seq<Challenge>, i: nat, shift: nat, userId: Id) {
    && |before| < |w.db.challenges|
    && v.db == w.db.(challenges := Spent(w.db.challenges, |before|, w.db.now),
                     usedBy := w.db.usedBy[HashToken(i + shift) := 2 * i + 1])
    && v.requests.Keys == w.requests.Keys + {2 * i + 1} && KeepsRequests(w, v)
    && Waits(v, i, shift, userId)
  }

  /** The same tables, and the request added or moved on to where it says. */
  predicate Moved(w: World, v: World, r: ReqId, input: Input, pc: Pc) {
    v.db == w.db && v.requests.Keys == w.requests.Keys + {r} && r in v.requests
    && v.requests[r] == Request(input, None, pc)
    && forall q :: q in w.requests && q != r ==> v.requests[q] == w.requests[q]
  }

  lemma GetsReady(w: World, i: nat, userId: Id) returns (v: World)
    requires 2 * i !in w.requests && |Owned(w.db.rows, userId)| < MAX_PASSKEYS
    ensures Moved(w, v, 2 * i, RegistrationOptions(userId, w.db.now), Offering)
    ensures Run(w, Offered(i, userId, w.db.now)) == Step(v, Turn(2 * i, WELL))
  {
    var events := Offered(i, userId, w.db.now);
    var w1 := Step(w, events[0]);
    FourSteps(w1, events[1..]);
    var w2 := Step(w1, events[1]);
    assert w2.db == w.db && w2.requests[2 * i].pc == Fresh;
    var w3 := Step(w2, events[2]);
    assert w3.db == w.db && w3.requests[2 * i].pc == Counting;
    v := Step(w3, events[3]);
  }

  lemma OfferStores(w: World, i: nat, s: Secret, userId: Id)
    requires Tidy(w, i, s) && |Owned(w.db.rows, userId)| < MAX_PASSKEYS
    ensures OfferMade(w, Run(w, Offered(i, userId, w.db.now)), i, s, userId)
  {
    var v := GetsReady(w, i, userId);
    LastOffer(w, v, i, s, userId);
  }

  lemma LastOffer(w: World, v: World, i: nat, s: Secret, userId: Id)
    requires w.db.supply == s && 2 * i !in w.requests
    requires Moved(w, v, 2 * i, RegistrationOptions(userId, w.db.now), Offering)
    ensures OfferMade(w, Step(v, Turn(2 * i, WELL)), i, s, userId)
  {
  }

  /** The challenge with secret `s` is stored, and nothing else speaks of it. */
  predicate Pending(db: Db, before: seq<Challenge>, s: Secret, userId: Id) {
    && db.challenges == before + [Challenge(HashToken(s), Register, Some(userId), db.now + CHALLENGE_TTL_MS, None)]
    && (forall c :: c in before ==> c.hash.preimage < s)
    && forall p :: p in db.rows ==> p.credentialHash.preimage < s
  }

  lemma FoundLast(db: Db, before: seq<Challenge>, s: Secret, userId: Id)
    requires Pending(db, before, s, userId)
    ensures First(db.challenges, Fits(HashToken(s), Register, Some(userId), db.now)) == |before|
  {
    var fits := Fits(HashToken(s), Register, Some(userId), db.now);
    assert fits(db.challenges[|before|]);
    assert forall j :: 0 <= j < |before| ==> db.challenges[j] in before;
  }

  lemma Redeems(w: World, before: seq<Challenge>, i: nat, shift: nat, userId: Id) returns (v: World)
    requires 2 * i + 1 !in w.requests && Pending(w.db, before, i + shift, userId)
    ensures var input := RegisterInput(userId, i + shift, HashToken(i + shift));
            v == Step(Step(w, Arrive(2 * i + 1, input)), Turn(2 * i + 1, WELL))
    ensures v.db == w.db.(challenges := Spent(w.db.challenges, |before|, w.db.now),
                          usedBy := w.db.usedBy[HashToken(i + shift) := 2 * i + 1])
    ensures v.requests.Keys == w.requests.Keys + {2 * i + 1} && KeepsRequests(w, v)
    ensures v.requests[2 * i + 1].pc == Verified
    ensures v.requests[2 * i + 1].input == RegisterInput(userId, i + shift, HashToken(i + shift))
  {
    FoundLast(w.db, before, i + shift, userId);
    var w1 := Step(w, Arrive(2 * i + 1, RegisterInput(userId, i + shift, HashToken(i + shift))));
    v := Step(w1, Turn(2 * i + 1, WELL));
  }

  lemma RedeemAdmits(w: World, before: seq<Challenge>, i: nat, shift: nat, userId: Id)
    requires |Owned(w.db.rows, userId)| < MAX_PASSKEYS && 2 * i + 1 !in w.requests
    requires Pending(w.db, before, i + shift, userId)
    ensures LetIn(w, Run(w, Admitted(i, i + shift, userId)), before, i, shift, userId)
  {
    FourSteps(w, Admitted(i, i + shift, userId));
    var w2 := Redeems(w, before, i, shift, userId);
    var w3 := Step(w2, Turn(2 * i + 1, WELL));
    assert w3.requests[2 * i + 1].pc == BelowLimit && w3.db == w2.db;
    var w4 := Step(w3, Turn(2 * i + 1, WELL));
    assert w4.requests[2 * i + 1].pc == Inserting && w4.db == w2.db;
  }

  /** What the unit comes to: the registration waits, and everything is as tidy as before. */
  predicate UnitDone(w: World, v: World, i: nat, shift: nat, userId: Id) {
    && Tidy(v, i + 1, i + shift + 1) && v.db.rows == w.db.rows && v.db.now == w.db.now
    && KeepsRequests(w, v) && Waits(v, i, shift, userId)
  }

  lemma OfferThenLetIn(w: World, u: World, v: World, i: nat, shift: nat, userId: Id)
    requires Tidy(w, i, i + shift) && OfferMade(w, u, i, i + shift, userId)
    requires LetIn(u, v, w.db.challenges, i, shift, userId)
    ensures UnitDone(w, v, i, shift, userId)
  {
  }

  lemma OfferIsPending(w: World, u: World, i: nat, s: Secret, userId: Id)
    requires Tidy(w, i, s) && OfferMade(w, u, i, s, userId)
    ensures u.db.rows == w.db.rows && 2 * i + 1 !in u.requests && Pending(u.db, w.db.challenges, s, userId)
  {
  }

  lemma UnitWaits(w: World, i: nat, shift: nat, userId: Id)
    requires Tidy(w, i, i + shift) && |Owned(w.db.rows, userId)| < MAX_PASSKEYS
    ensures UnitDone(w, Run(w, Unit(i, i + shift, userId, w.db.now)), i, shift, userId)
  {
    var offered, admitted := Offered(i, userId, w.db.now), Admitted(i, i + shift, userId);
    OfferStores(w, i, i + shift, userId);
    var u := Run(w, offered);
    OfferIsPending(w, u, i, i + shift, userId);
    RedeemAdmits(u, w.db.challenges, i, shift, userId);
    OfferThenLetIn(w, u, Run(u, admitted), i, shift, userId);
    RunsThrough(w, offered, admitted);
  }

  /** A waiting registration inserts, unless its credential is there already. */
  lemma InsertAdds(w: World, i: nat, shift: nat, userId: Id)
    requires Waits(w, i, shift, userId) && IdsDrawn(w.db)
    requires forall p :: p in w.db.rows ==> p.credentialHash != HashToken(i + shift)
    ensures var v := Step(w, Turn(2 * i + 1, WELL));
            && v.db == w.db.(rows := w.db.rows + [Passkey(w.db.supply, userId, HashToken(i + shift), 0, None)],
                             supply := w.db.supply + 1)
            && v.requests == w.requests[2 * i + 1 := w.requests[2 * i + 1].(pc := Done(Registered))]
            && |Owned(v.db.rows, userId)| == |Owned(w.db.rows, userId)| + 1
  {
    KeptAppend(w.db.rows, Passkey(w.db.supply, userId, HashToken(i + shift), 0, None), OwnedBy(userId));
  }

  // ----- how many are in flight

  /** The event starts no registration but those in the set. */
  predicate StartsOnly(e: Event, s: set<ReqId>) {
    e.Turn? || (e.Arrive? && (e.input.RegisterInput? ==> e.r in s))
  }

  lemma StepStaysWithin(w: World, e: Event, userId: Id, s: set<ReqId>)
    requires Registering(w, userId) <= s && StartsOnly(e, s)
    ensures Registering(Step(w, e), userId) <= s
  {
  }

  lemma {:induction false} StaysWithin(w: World, events: seq<Event>, userId: Id, s: set<ReqId>, k: nat)
    requires Registering(w, userId) <= s && |s| <= k && forall e :: e in events ==> StartsOnly(e, s)
    ensures AtMost(w, events, userId, k) && Registering(Run(w, events), userId) <= s
    decreases events
  {
    assert s == Registering(w, userId) + (s - Registering(w, userId));
    if events != [] {
      StepStaysWithin(w, events[0], userId, s);
      StaysWithin(Step(w, events[0]), events[1..], userId, s, k);
    }
  }

  lemma {:induction false} AtMostThrough(w: World, a: seq<Event>, b: seq<Event>, userId: Id, k: nat)
    requires AtMost(w, a, userId, k) && AtMost(Run(w, a), b, userId, k)
    ensures AtMost(w, a + b, userId, k)
    decreases a
  {
    if a == [] {
      assert a + b == b;
    } else {
      assert (a + b)[0] == a[0] && (a + b)[1..] == a[1..] + b;
      AtMostThrough(Step(w, a[0]), a[1..], b, userId, k);
    }
  }

  // ----- the three parts of the run

  /** Nobody is registering, and the account holds one passkey for each registration so far. */
  predicate Quiet(w: World, i: nat, userId: Id) {
    Tidy(w, i, 2 * i) && |Owned(w.db.rows, userId)| == i && Registering(w, userId) == {}
  }

  lemma LastInsert(w: World, v: World, i: nat, userId: Id)
    requires Quiet(w, i, userId) && UnitDone(w, v, i, i, userId)
    requires Registering(v, userId) <= {2 * i + 1}
    ensures var end := Step(v, Turn(2 * i + 1, WELL)); Quiet(end, i + 1, userId) && end.db.now == w.db.now
  {
    InsertAdds(v, i, i, userId);
    NobodyLeft(v, Step(v, Turn(2 * i + 1, WELL)), 2 * i + 1, userId);
  }

  lemma NobodyLeft(v: World, end: World, r: ReqId, userId: Id)
    requires Registering(v, userId) <= {r} && r in v.requests
    requires end.requests == v.requests[r := v.requests[r].(pc := Done(Registered))]
    ensures Registering(end, userId) == {}
  {
    assert forall q :: q in Registering(end, userId) ==> q in Registering(v, userId);
  }

  /** One registration, with its insert, is never more than one in flight. */
  lemma RegistrationAlone(w: World, i: nat, userId: Id)
    requires Registering(w, userId) == {}
    ensures AtMost(w, Registration(i, userId, w.db.now), userId, 1)
    ensures Registering(Run(w, Unit(i, 2 * i, userId, w.db.now)), userId) <= {2 * i + 1}
  {
    var unit := Unit(i, 2 * i, userId, w.db.now);
    assert forall e :: e in Registration(i, userId, w.db.now) ==> StartsOnly(e, {2 * i + 1});
    assert forall e :: e in unit ==> e in Registration(i, userId, w.db.now);
    StaysWithin(w, Registration(i, userId, w.db.now), userId, {2 * i + 1}, 1);
    StaysWithin(w, unit, userId, {2 * i + 1}, 1);
  }

  lemma RegistrationAdds(w: World, i: nat, userId: Id)
    requires Quiet(w, i, userId) && i < MAX_PASSKEYS
    ensures var v := Run(w, Registration(i, userId, w.db.now)); Quiet(v, i + 1, userId) && v.db.now == w.db.now
    ensures AtMost(w, Registration(i, userId, w.db.now), userId, 1)
  {
    var unit, insert := Unit(i, i + i, userId, w.db.now), Turn(2 * i + 1, WELL);
    RegistrationAlone(w, i, userId);
    UnitWaits(w, i, i, userId);
    var v := Run(w, unit);
    LastInsert(w, v, i, userId);
    RunsThrough(w, unit, [insert]);
    OneStep(v, insert);
  }

  lemma OneStep(w: World, e: Event)
    ensures Run(w, [e]) == Step(w, e)
  {
    assert Run(w, [e]) == Run(Step(w, e), []);
  }

  lemma {:induction false} SerialFills(w: World, i: nat, n: nat, userId: Id)
    requires Quiet(w, i, userId) && i + n < MAX_PASSKEYS
    ensures var v := Run(w, Serial(i, n, userId, w.db.now)); Quiet(v, i + n, userId) && v.db.now == w.db.now
    ensures AtMost(w, Serial(i, n, userId, w.db.now), userId, 1)
    decreases n
  {
    if n > 0 {
      var one, rest := Registration(i, userId, w.db.now), Serial(i + 1, n - 1, userId, w.db.now);
      RegistrationAdds(w, i, userId);
      var v := Run(w, one);
      SerialFills(v, i + 1, n - 1, userId);
      RunsThrough(w, one, rest);
      AtMostThrough(w, one, rest, userId, 1);
    }
  }

  lemma {:induction false} GatheredWait(w: World, i: nat, shift: nat, k: nat, userId: Id)
    requires Tidy(w, i, i + shift) && |Owned(w.db.rows, userId)| < MAX_PASSKEYS
    ensures var v := Run(w, Gathered(i, shift, k, userId, w.db.now));
            && Tidy(v, i + k, i + k + shift) && v.db.rows == w.db.rows && KeepsRequests(w, v)
            && forall n :: i <= n < i + k ==> Waits(v, n, shift, userId)
    decreases k
  {
    if k > 0 {
      var unit, rest := Unit(i, i + shift, userId, w.db.now), Gathered(i + 1, shift, k - 1, userId, w.db.now);
      UnitWaits(w, i, shift, userId);
      GatheredWait(Run(w, unit), i + 1, shift, k - 1, userId);
      RunsThrough(w, unit, rest);
    }
  }

  lemma {:induction false} ReleasedInsert(w: World, i: nat, shift: nat, k: nat, userId: Id)
    requires IdsDrawn(w.db) && forall p :: p in w.db.rows ==> p.credentialHash.preimage < i + shift
    requires forall n :: i <= n < i + k ==> Waits(w, n, shift, userId)
    ensures |Owned(Run(w, Released(i, k)).db.rows, userId)| == |Owned(w.db.rows, userId)| + k
    decreases k
  {
    if k > 0 {
      var first, rest := Turn(2 * i + 1, WELL), Released(i + 1, k - 1);
      assert Waits(w, i, shift, userId);
      InsertAdds(w, i, shift, userId);
      var v := Step(w, first);
      forall n | i + 1 <= n < i + k ensures Waits(v, n, shift, userId) {
        assert Waits(w, n, shift, userId);
      }
      ReleasedInsert(v, i + 1, shift, k - 1, userId);
      assert Released(i, k)[1..] == rest;
      assert Run(w, Released(i, k)) == Run(v, rest);
    }
  }

  /** The register requests with these numbers. */
  function Numbered(i: nat, k: nat): (s: set<ReqId>)
    ensures |s| == k && (forall n :: i <= n < i + k ==> 2 * n + 1 in s) && forall r :: r in s ==> r >= 2 * i + 1
    decreases k
  {
    if k == 0 then {} else {2 * i + 1} + Numbered(i + 1, k - 1)
  }

  lemma {:induction false} GatheredStartOnly(i: nat, shift: nat, k: nat, userId: Id, now: Time, s: set<ReqId>)
    requires forall n :: i <= n < i + k ==> 2 * n + 1 in s
    ensures forall e :: e in Gathered(i, shift, k, userId, now) + Released(i, k) ==> StartsOnly(e, s)
    decreases k
  {
    if k > 0 {
      GatheredStartOnly(i + 1, shift, k - 1, userId, now, s);
      assert 2 * i + 1 in s;
      assert forall e :: e in Unit(i, i + shift, userId, now) ==> StartsOnly(e, s);
    }
  }

  /** For every k of at least one, a run with at most k in flight attains the bound. */
  lemma LimitIsAttained(now: Time, userId: Id, k: nat)
    requires k >= 1
    ensures AtMost(Init(now), Overrun(k, userId, now), userId, k)
    ensures |Owned(Run(Init(now), Overrun(k, userId, now)).db.rows, userId)| == MAX_PASSKEYS - 1 + k
  {
    var full := MAX_PASSKEYS - 1;
    var w := Init(now);
    var serial, last := Serial(0, full, userId, now), Gathered(full, full, k, userId, now) + Released(full, k);
    SerialFills(w, 0, full, userId);
    OneIsAtMost(w, serial, userId, k);
    LastAttain(Run(w, serial), full, userId, k);
    RunsThrough(w, serial, last);
    AtMostThrough(w, serial, last, userId, k);
  }

  lemma LastAttain(w: World, i: nat, userId: Id, k: nat)
    requires Quiet(w, i, userId) && i < MAX_PASSKEYS
    ensures var last := Gathered(i, i, k, userId, w.db.now) + Released(i, k);
            AtMost(w, last, userId, k) && |Owned(Run(w, last).db.rows, userId)| == i + k
  {
    var gathered, released := Gathered(i, i, k, userId, w.db.now), Released(i, k);
    GatheredWait(w, i, i, k, userId);
    ReleasedInsert(Run(w, gathered), i, i, k, userId);
    RunsThrough(w, gathered, released);
    GatheredStartOnly(i, i, k, userId, w.db.now, Numbered(i, k));
    StaysWithin(w, gathered + released, userId, Numbered(i, k), k);
  }

  lemma {:induction false} OneIsAtMost(w: World, events: seq<Event>, userId: Id, k: nat)
    requires AtMost(w, events, userId, 1) && k >= 1
    ensures AtMost(w, events, userId, k)
    decreases events
  {
    if events != [] {
      OneIsAtMost(Step(w, events[0]), events[1..], userId, k);
    }
  }
}
