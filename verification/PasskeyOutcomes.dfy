/**
  How passkey ceremonies end, in every interleaving: told from the tables a request finds at
  its own turns, and from nothing the transition system keeps for it.
 */
module PasskeyOutcomes {
  import opened Base
  import opened Rows
  import opened Passkeys
  import opened PasskeyRaces

  /** What a request finds when a turn of its comes: the tables, the clock in them, and the outer answer. */
  datatype Seen = Seen(db: Db, answer: Answer)

  /** What the turns of request `r` find, in the order they come, once it has arrived. */
  function Finds(w: World, events: seq<Event>, r: ReqId): seq<Seen>
    decreases events
  {
    if events == [] then []
    else
      var rest := Finds(Step(w, events[0]), events[1..], r);
      if events[0].Turn? && events[0].r == r && r in w.requests then [Seen(w.db, events[0].answer)] + rest else rest
  }

  // ----- what the tables say

  /** The passkey with the credential, the first if there were several. */
  function RowFor(rows: seq<Passkey>, credential: Digest): Option<Passkey>
    decreases rows
  {
    if rows == [] then None
    else if rows[0].credentialHash == credential then Some(rows[0])
    else RowFor(rows[1..], credential)
  }

  function HowMany(rows: seq<Passkey>, userId: Id): nat
    decreases rows
  {
    if rows == [] then 0
    else HowMany(rows[..|rows| - 1], userId) + if rows[|rows| - 1].userId == userId then 1 else 0
  }

  /** An unspent, unexpired challenge with this secret, offered for this purpose and user. */
  predicate Fitting(c: Challenge, secret: Secret, purpose: Purpose, forUser: Option<Id>, now: Time) {
    c.hash == Sha256(secret) && c.purpose == purpose && c.userId == forUser && c.consumedAt == None && now < c.expiresAt
  }

  /** The response passes: it carries a challenge that fits, and the library is content with it. */
  predicate Passes(seen: Seen, secret: Secret, purpose: Purpose, forUser: Option<Id>) {
    && seen.answer.callsBack && seen.answer.verified
    && exists c :: c in seen.db.challenges && Fitting(c, secret, purpose, forUser, seen.db.now)
  }

  predicate Full(db: Db, userId: Id) {
    HowMany(db.rows, userId) >= 20
  }

  predicate Taken(rows: seq<Passkey>, credential: Digest, id: Id) {
    exists p :: p in rows && (p.credentialHash == credential || p.id == id)
  }

  // ----- how each ceremony ends

  function OptionsEnd(userId: Id, signedInAt: Time, seen: seq<Seen>): Option<Outcome> {
    if |seen| < 1 then None
    else if seen[0].db.now > signedInAt + 300_000 then Some(FreshLoginRequired)
    else if |seen| < 2 then None
    else if !seen[1].answer.hasEmail then Some(UserNotFound)
    else if |seen| < 3 then None
    else if Full(seen[2].db, userId) then Some(LimitReached)
    else if |seen| < 4 then None
    else Some(Offered(seen[3].db.supply))
  }

  /** Refused without a passing response, at the limit, or for a known credential; else the insert decides. */
  function RegistrationEnds(userId: Id, secret: Secret, credential: Digest, seen: seq<Seen>): Option<Outcome> {
    if |seen| < 1 then None
    else if !Passes(seen[0], secret, Register, Some(userId)) then Some(Invalid)
    else if |seen| < 2 then None
    else if Full(seen[1].db, userId) then Some(LimitReached)
    else if |seen| < 3 then None
    else if RowFor(seen[2].db.rows, credential).Some? then Some(AlreadyRegistered)
    else if |seen| < 4 then None
    else if !Taken(seen[3].db.rows, credential, seen[3].db.supply) then Some(Registered)
    else if |seen| < 5 then None
    else if RowFor(seen[4].db.rows, credential).Some? then Some(AlreadyRegistered)
    else Some(Outcome.DuplicateKey)
  }

  /** The one signed in is the owner of the passkey presented, and the response has to pass. */
  function SignInEnds(secret: Secret, credential: Digest, seen: seq<Seen>): Option<Outcome> {
    if |seen| < 1 then None
    else if RowFor(seen[0].db.rows, credential).None? then Some(Invalid)
    else if |seen| < 2 then None
    else if !Passes(seen[1], secret, Authenticate, None) then Some(Invalid)
    else if |seen| < 3 then None
    else Some(SignedIn(RowFor(seen[0].db.rows, credential).value.userId))
  }

  function Ends(input: Input, seen: seq<Seen>): Option<Outcome> {
    match input
    case RegistrationOptions(userId, signedInAt) => OptionsEnd(userId, signedInAt, seen)
    case SignInOptions => if |seen| < 2 then None else Some(Offered(seen[1].db.supply))
    case RegisterInput(userId, challenge, credential) => RegistrationEnds(userId, challenge, credential, seen)
    case SignIn(challenge, credential) => SignInEnds(challenge, credential, seen)
  }

  function OutcomeOf(q: Request): Option<Outcome> {
    if q.pc.Done? then Some(q.pc.outcome) else None
  }

  // ----- the tables' answers are the lookups'

  lemma {:induction false} FirstIsRowFor(rows: seq<Passkey>, credential: Digest)
    ensures var i := First(rows, HasCredential(credential));
            RowFor(rows, credential) == if i < |rows| then Some(rows[i]) else None
    ensures RowFor(rows, credential).Some? <==> HoldsCredential(rows, credential)
    decreases rows
  {
    if rows != [] && rows[0].credentialHash != credential {
      FirstIsRowFor(rows[1..], credential);
      FirstOfRest(rows, HasCredential(credential));
      assert forall p :: p in rows <==> p == rows[0] || p in rows[1..];
    }
  }

  lemma FirstOfRest(rows: seq<Passkey>, wanted: Passkey -> bool)
    requires rows != [] && !wanted(rows[0])
    ensures First(rows, wanted) == 1 + First(rows[1..], wanted)
  {
  }

  lemma {:induction false} CountIsHowMany(rows: seq<Passkey>, userId: Id)
    ensures |Owned(rows, userId)| == HowMany(rows, userId)
    decreases rows
  {
    if rows != [] {
      CountIsHowMany(rows[..|rows| - 1], userId);
    }
  }

  lemma FitsIsFitting(db: Db, secret: Secret, purpose: Purpose, forUser: Option<Id>)
    ensures First(db.challenges, Fits(HashToken(secret), purpose, forUser, db.now)) < |db.challenges| <==>
            exists c :: c in db.challenges && Fitting(c, secret, purpose, forUser, db.now)
  {
    var fits := Fits(HashToken(secret), purpose, forUser, db.now);
    var i := First(db.challenges, fits);
    if i < |db.challenges| {
      assert Fitting(db.challenges[i], secret, purpose, forUser, db.now);
    }
    assert forall c :: fits(c) <==> Fitting(c, secret, purpose, forUser, db.now);
  }

  // ----- where a request stands

  predicate StandsRegistering(q: Request, seen: seq<Seen>)
    requires q.input.RegisterInput?
  {
    && Ends(q.input, seen) == OutcomeOf(q)
    && match q.pc
       case Start => |seen| == 0
       case Verified => |seen| == 1
       case BelowLimit => |seen| == 2
       case Inserting => |seen| == 3
       case Clashed => |seen| == 4
       case Done(_) => true
       case _ => false
  }

  predicate StandsSigningIn(q: Request, seen: seq<Seen>)
    requires q.input.SignIn?
  {
    && Ends(q.input, seen) == OutcomeOf(q)
    && match q.pc
       case Start => |seen| == 0
       case Found(row) => |seen| == 1 && RowFor(seen[0].db.rows, q.input.credential) == Some(row)
       case Recording(row) => |seen| == 2 && RowFor(seen[0].db.rows, q.input.credential) == Some(row)
       case Done(_) => true
       case _ => false
  }

  predicate StandsAsking(q: Request, seen: seq<Seen>) {
    && Ends(q.input, seen) == OutcomeOf(q)
    && match q.pc
       case Start => |seen| == 0
       case Fresh => |seen| == 1 && q.input.RegistrationOptions?
       case Counting => |seen| == 2 && q.input.RegistrationOptions?
       case Offering => |seen| == if q.input.RegistrationOptions? then 3 else 1
       case Done(_) => true
       case _ => false
  }

  /** Where a request is after it has seen this much. */
  predicate Stands(q: Request, seen: seq<Seen>) {
    match q.input
    case RegisterInput(_, _, _) => StandsRegistering(q, seen)
    case SignIn(_, _) => StandsSigningIn(q, seen)
    case _ => StandsAsking(q, seen)
  }

  lemma EndsStay(input: Input, seen: seq<Seen>, more: Seen)
    requires Ends(input, seen).Some?
    ensures Ends(input, seen + [more]) == Ends(input, seen)
  {
  }

  lemma RegistrationMoves(db: Db, q: Request, answer: Answer, seen: seq<Seen>)
    requires q.input.RegisterInput? && !q.pc.Done? && StandsRegistering(q, seen)
    ensures StandsRegistering(Advance(db, q, answer).request, seen + [Seen(db, answer)])
  {
    if q.pc.Start? {
      ResponseMoves(db, q, answer, seen);
    } else {
      CountIsHowMany(db.rows, q.input.userId);
      FirstIsRowFor(db.rows, q.input.credential);
    }
  }

  lemma ResponseMoves(db: Db, q: Request, answer: Answer, seen: seq<Seen>)
    requires q.input.RegisterInput? && q.pc.Start? && StandsRegistering(q, seen)
    ensures StandsRegistering(Advance(db, q, answer).request, seen + [Seen(db, answer)])
  {
    FitsIsFitting(db, q.input.challenge, Register, Some(q.input.userId));
  }

  lemma SignInMoves(db: Db, q: Request, answer: Answer, seen: seq<Seen>)
    requires q.input.SignIn? && !q.pc.Done? && StandsSigningIn(q, seen)
    ensures StandsSigningIn(Advance(db, q, answer).request, seen + [Seen(db, answer)])
  {
    FitsIsFitting(db, q.input.challenge, Authenticate, None);
    FirstIsRowFor(db.rows, q.input.credential);
  }

  lemma OptionsMoves(db: Db, q: Request, answer: Answer, seen: seq<Seen>)
    requires (q.input.RegistrationOptions? || q.input.SignInOptions?) && !q.pc.Done? && StandsAsking(q, seen)
    ensures StandsAsking(Advance(db, q, answer).request, seen + [Seen(db, answer)])
  {
    if q.input.RegistrationOptions? {
      CountIsHowMany(db.rows, q.input.userId);
    }
  }

  lemma TurnStands(w: World, r: ReqId, answer: Answer, seen: seq<Seen>)
    requires r in w.requests && Stands(w.requests[r], seen)
    ensures var v := Step(w, Turn(r, answer));
            && r in v.requests && v.requests[r].input == w.requests[r].input
            && Stands(v.requests[r], seen + [Seen(w.db, answer)])
  {
    var q := w.requests[r];
    if q.pc.Done? {
      EndsStay(q.input, seen, Seen(w.db, answer));
    } else if q.input.RegisterInput? {
      RegistrationMoves(w.db, q, answer, seen);
    } else if q.input.SignIn? {
      SignInMoves(w.db, q, answer, seen);
    } else {
      OptionsMoves(w.db, q, answer, seen);
    }
  }

  lemma {:induction false} RunStands(w: World, events: seq<Event>, r: ReqId, seen: seq<Seen>)
    requires if r in w.requests then Stands(w.requests[r], seen) else seen == []
    ensures var v := Run(w, events); r in v.requests ==> Stands(v.requests[r], seen + Finds(w, events, r))
    decreases events
  {
    if events == [] {
      assert seen + [] == seen;
    } else {
      var e := events[0];
      var v := Step(w, e);
      if e.Turn? && e.r == r && r in w.requests {
        var found := Seen(w.db, e.answer);
        TurnStands(w, r, e.answer, seen);
        RunStands(v, events[1..], r, seen + [found]);
        assert seen + [found] + Finds(v, events[1..], r) == seen + ([found] + Finds(v, events[1..], r));
      } else {
        assert r in w.requests ==> r in v.requests && v.requests[r] == w.requests[r];
        assert r !in w.requests && r in v.requests ==> v.requests[r].pc.Start?;
        RunStands(v, events[1..], r, seen);
      }
    }
  }

  /** In every run each ceremony has ended exactly as what it found at its turns says, or has not ended yet. */
  lemma CeremoniesEndAsFound(now: Time, events: seq<Event>, r: ReqId)
    requires r in Run(Init(now), events).requests
    ensures var q := Run(Init(now), events).requests[r];
            OutcomeOf(q) == Ends(q.input, Finds(Init(now), events, r))
  {
    RunStands(Init(now), events, r, []);
    assert [] + Finds(Init(now), events, r) == Finds(Init(now), events, r);
  }

  // ----- what each turn writes

  /** One fitting challenge is marked as spent, by this request, and nothing else changes. */
  ghost predicate SpendsOne(before: Db, after: Db, r: ReqId, secret: Secret, purpose: Purpose, forUser: Option<Id>) {
    exists i :: && 0 <= i < |before.challenges| && Fitting(before.challenges[i], secret, purpose, forUser, before.now)
                && after == before.(
                     challenges := before.challenges[i := before.challenges[i].(consumedAt := Some(before.now))],
                     usedBy := before.usedBy[Sha256(secret) := r])
  }

  /** A row with the id has its counter and last use rewritten, if there is one, and nothing else changes. */
  ghost predicate RecordsOne(before: Db, after: Db, id: Id, counter: nat) {
    if !exists p :: p in before.rows && p.id == id then after == before
    else exists i :: && 0 <= i < |before.rows| && before.rows[i].id == id
                     && after == before.(
                          rows := before.rows[i := before.rows[i].(counter := counter, lastUsedAt := Some(before.now))])
  }

  /** A fresh challenge for this purpose and user is stored, good for five minutes. */
  predicate OffersOne(before: Db, after: Db, purpose: Purpose, forUser: Option<Id>) {
    var c := Challenge(Sha256(before.supply), purpose, forUser, before.now + 300_000, None);
    after == before.(challenges := before.challenges + [c], offered := before.offered[c.hash := c],
                     supply := before.supply + 1)
  }

  /** The response of the turn is checked against a challenge: consuming one is the check, whatever the library says. */
  ghost predicate Checks(before: Db, after: Db, r: ReqId, answer: Answer, secret: Secret, purpose: Purpose,
                         forUser: Option<Id>) {
    if answer.callsBack && exists c :: c in before.challenges && Fitting(c, secret, purpose, forUser, before.now)
    then SpendsOne(before, after, r, secret, purpose, forUser)
    else after == before
  }

  /** What a turn of a request writes. */
  ghost predicate WritesAsMeant(before: Db, after: Db, r: ReqId, q: Request, answer: Answer) {
    match q.input
    case RegisterInput(userId, challenge, credential) =>
      if q.pc.Start? then Checks(before, after, r, answer, challenge, Register, Some(userId))
      else if q.pc.Inserting? && !Taken(before.rows, credential, before.supply) then
        after == before.(rows := before.rows + [Passkey(before.supply, userId, credential, answer.counter, None)],
                         supply := before.supply + 1)
      else after == before
    case SignIn(challenge, _) =>
      if q.pc.Found? then Checks(before, after, r, answer, challenge, Authenticate, None)
      else if q.pc.Recording? then RecordsOne(before, after, q.pc.row.id, answer.counter)
      else after == before
    case RegistrationOptions(userId, _) =>
      if q.pc.Offering? then OffersOne(before, after, Register, Some(userId)) else after == before
    case SignInOptions => if q.pc.Offering? then OffersOne(before, after, Authenticate, None) else after == before
  }

  lemma CheckWrites(db: Db, r: ReqId, q: Request, passed: Pc, answer: Answer, secret: Secret, purpose: Purpose,
                    forUser: Option<Id>)
    ensures var move := CheckMove(db, q, secret, purpose, forUser, passed, answer);
            Checks(db, PasskeyRaces.Apply(db, r, move.effect), r, answer, secret, purpose, forUser)
  {
    FitsIsFitting(db, secret, purpose, forUser);
    var i := First(db.challenges, Fits(HashToken(secret), purpose, forUser, db.now));
    if i < |db.challenges| {
      assert Fitting(db.challenges[i], secret, purpose, forUser, db.now);
    }
  }

  lemma RecordWrites(db: Db, r: ReqId, id: Id, counter: nat)
    ensures RecordsOne(db, PasskeyRaces.Apply(db, r, Record(id, counter)), id, counter)
  {
    var i := First(db.rows, HasId(id));
    if i == |db.rows| {
      forall p | p in db.rows ensures p.id != id {
        var j :| 0 <= j < |db.rows| && db.rows[j] == p;
        assert !HasId(id)(db.rows[j]);
      }
    } else {
      assert db.rows[i] in db.rows && db.rows[i].id == id;
    }
  }

  lemma AdvanceWrites(db: Db, r: ReqId, q: Request, answer: Answer, seen: seq<Seen>)
    requires Stands(q, seen)
    ensures WritesAsMeant(db, PasskeyRaces.Apply(db, r, Advance(db, q, answer).effect), r, q, answer)
  {
    match q.input
    case RegisterInput(userId, challenge, _) =>
      if q.pc.Start? {
        CheckWrites(db, r, q, Verified, answer, challenge, Register, Some(userId));
      }
    case SignIn(challenge, _) =>
      if q.pc.Found? {
        CheckWrites(db, r, q, Recording(q.pc.row), answer, challenge, Authenticate, None);
      } else if q.pc.Recording? {
        RecordWrites(db, r, q.pc.row.id, answer.counter);
      }
    case _ =>
  }

  /** In every run a turn writes just that, and what a request has consumed is on its record. */
  lemma TurnsWriteAsMeant(now: Time, events: seq<Event>, r: ReqId, answer: Answer)
    requires r in Run(Init(now), events).requests
    ensures var w := Run(Init(now), events);
            WritesAsMeant(w.db, Step(w, Turn(r, answer)).db, r, w.requests[r], answer)
  {
    RunStands(Init(now), events, r, []);
    var w := Run(Init(now), events);
    AdvanceWrites(w.db, r, w.requests[r], answer, [] + Finds(Init(now), events, r));
  }

  // ----- signing in

  lemma {:induction false} NthTurn(w: World, events: seq<Event>, r: ReqId, k: nat) returns (i: nat)
    requires k < |Finds(w, events, r)|
    ensures i < |events| && events[i].Turn? && events[i].r == r
    ensures Finds(w, events, r)[k] == Seen(Run(w, events[..i]).db, events[i].answer)
    decreases events
  {
    var e := events[0];
    var mine := e.Turn? && e.r == r && r in w.requests;
    if mine && k == 0 {
      i := 0;
      assert events[..0] == [];
    } else {
      var j := NthTurn(Step(w, e), events[1..], r, if mine then k - 1 else k);
      i := j + 1;
      assert events[..i][0] == e && events[..i][1..] == events[1..][..j];
    }
  }

  lemma {:induction false} RowForIsThere(rows: seq<Passkey>, credential: Digest)
    requires RowFor(rows, credential).Some?
    ensures var p := RowFor(rows, credential).value; p in rows && p.credentialHash == credential
    decreases rows
  {
    if rows[0].credentialHash != credential {
      RowForIsThere(rows[1..], credential);
    }
  }

  /** Somewhere in the run the account had a passkey with the credential. */
  ghost predicate HadPasskey(w: World, events: seq<Event>, userId: Id, credential: Digest) {
    exists i, p :: && 0 <= i < |events| && p in Run(w, events[..i]).db.rows
                   && p.credentialHash == credential && p.userId == userId
  }

  /** Somewhere in the run the request presented a response that passed. */
  ghost predicate Presented(w: World, events: seq<Event>, r: ReqId, secret: Secret) {
    exists j, answer :: && 0 <= j < |events| && events[j] == Turn(r, answer)
                        && Passes(Seen(Run(w, events[..j]).db, answer), secret, Authenticate, None)
  }

  /** Whoever is signed in owned the passkey presented, and the response to an open challenge passed. */
  lemma SignedInIsTheOwner(now: Time, events: seq<Event>, r: ReqId)
    requires r in Run(Init(now), events).requests
    requires var q := Run(Init(now), events).requests[r];
             q.input.SignIn? && q.pc.Done? && q.pc.outcome.SignedIn?
    ensures var q := Run(Init(now), events).requests[r];
            && HadPasskey(Init(now), events, q.pc.outcome.userId, q.input.credential)
            && Presented(Init(now), events, r, q.input.challenge)
  {
    CeremoniesEndAsFound(now, events, r);
    var w, q := Init(now), Run(Init(now), events).requests[r];
    var seen := Finds(w, events, r);
    var i := NthTurn(w, events, r, 0);
    var j := NthTurn(w, events, r, 1);
    RowForIsThere(seen[0].db.rows, q.input.credential);
    assert events[j] == Turn(r, events[j].answer);
  }

  /** How a sign-in that runs alone ends, and what it leaves of the tables. */
  ghost predicate SignedInAlone(w: World, v: World, r: ReqId, secret: Secret, credential: Digest, answer: Answer) {
    var row := RowFor(w.db.rows, credential);
    && r in v.requests
    && if row.None? || !answer.callsBack
          || !exists c :: c in w.db.challenges && Fitting(c, secret, Authenticate, None, w.db.now)
       then v.requests[r].pc == Done(Invalid) && v.db == w.db
       else exists spent :: && SpendsOne(w.db, spent, r, secret, Authenticate, None)
                            && if answer.verified
                               then v.requests[r].pc == Done(SignedIn(row.value.userId))
                                    && RecordsOne(spent, v.db, row.value.id, answer.counter)
                               else v.requests[r].pc == Done(Invalid) && v.db == spent
  }

  /** A sign-in that meets no other request. */
  lemma SignInAlone(now: Time, events: seq<Event>, r: ReqId, secret: Secret, credential: Digest, answer: Answer)
    requires r !in Run(Init(now), events).requests
    ensures var w := Run(Init(now), events);
            var v := Step(Step(Step(Step(w, Arrive(r, SignIn(secret, credential))), Turn(r, answer)), Turn(r, answer)),
                          Turn(r, answer));
            SignedInAlone(w, v, r, secret, credential, answer)
  {
    var w := Run(Init(now), events);
    var w0 := Step(w, Arrive(r, SignIn(secret, credential)));
    FirstIsRowFor(w.db.rows, credential);
    var w1 := Step(w0, Turn(r, answer));
    if w1.requests[r].pc.Done? {
      DoneStays(w1, r, answer);
    } else {
      assert w1.db == w.db;
      FoundRunsOn(w1, r, secret, credential, answer);
    }
  }

  lemma DoneStays(w: World, r: ReqId, answer: Answer)
    requires r in w.requests && w.requests[r].pc.Done?
    ensures Step(w, Turn(r, answer)) == w
  {
    assert w.requests[r := w.requests[r]] == w.requests;
  }

  lemma FoundRunsOn(w: World, r: ReqId, secret: Secret, credential: Digest, answer: Answer)
    requires r in w.requests && w.requests[r].input == SignIn(secret, credential) && w.requests[r].pc.Found?
    requires RowFor(w.db.rows, credential) == Some(w.requests[r].pc.row)
    ensures SignedInAlone(w, Step(Step(w, Turn(r, answer)), Turn(r, answer)), r, secret, credential, answer)
  {
    FoundChecks(w, r, secret, credential, answer);
    var w1 := Step(w, Turn(r, answer));
    if w1.requests[r].pc.Done? {
      DoneStays(w1, r, answer);
    } else {
      Records(w1, r, answer);
    }
  }

  /** The turn that checks the response, and where it leads. */
  lemma FoundChecks(w: World, r: ReqId, secret: Secret, credential: Digest, answer: Answer)
    requires r in w.requests && w.requests[r].input == SignIn(secret, credential) && w.requests[r].pc.Found?
    ensures var w1 := Step(w, Turn(r, answer));
            && r in w1.requests
            && if answer.callsBack
                  && exists c :: c in w.db.challenges && Fitting(c, secret, Authenticate, None, w.db.now)
               then SpendsOne(w.db, w1.db, r, secret, Authenticate, None)
                    && w1.requests[r].pc == if answer.verified then Recording(w.requests[r].pc.row) else Done(Invalid)
               else w1.db == w.db && w1.requests[r].pc == Done(Invalid)
  {
    FitsIsFitting(w.db, secret, Authenticate, None);
    CheckWrites(w.db, r, w.requests[r], Recording(w.requests[r].pc.row), answer, secret, Authenticate, None);
  }

  lemma Records(w: World, r: ReqId, answer: Answer)
    requires r in w.requests && w.requests[r].pc.Recording?
    ensures var v, row := Step(w, Turn(r, answer)), w.requests[r].pc.row;
            && r in v.requests && v.requests[r].pc == Done(SignedIn(row.userId))
            && RecordsOne(w.db, v.db, row.id, answer.counter)
  {
    RecordWrites(w.db, r, w.requests[r].pc.row.id, answer.counter);
  }

  // ----- what else changes the tables

  /** What an event that is no request's turn writes: passkeys are removed, a user is erased, challenges are pruned. */
  ghost predicate OutsideWrites(before: Db, after: Db, e: Event) {
    match e
    case Tick(elapsed) => after == before.(now := before.now + elapsed)
    case Remove(userId, id) =>
      && after == before.(rows := after.rows)
      && forall p :: p in after.rows <==> p in before.rows && !(p.userId == userId && p.id == id)
    case RevokeAll(userId) =>
      && after == before.(rows := after.rows)
      && forall p :: p in after.rows <==> p in before.rows && p.userId != userId
    case Erase(userId) =>
      && after == before.(rows := after.rows, challenges := after.challenges)
      && (forall p :: p in after.rows <==> p in before.rows && p.userId != userId)
      && (forall c :: c in after.challenges <==> c in before.challenges && c.userId != Some(userId))
    case Prune(cutoff) =>
      && after == before.(challenges := after.challenges)
      && forall c :: c in after.challenges <==> c in before.challenges && c.expiresAt >= cutoff
    case _ => after == before
  }

  /** The rest of the server, and time, do no more and no less than that, and new requests arrive. */
  lemma OutsideWritesAsMeant(w: World, e: Event)
    requires !e.Turn?
    ensures OutsideWrites(w.db, Step(w, e).db, e)
    ensures Step(w, e).requests == if e.Arrive? && e.r !in w.requests
                                   then w.requests[e.r := Request(e.input, None, Start)] else w.requests
  {
  }
}
