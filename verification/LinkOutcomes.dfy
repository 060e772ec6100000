/**
  How confirmations, resets, verifications and password changes end, in every interleaving:
  told from the tables a request finds at its own turns, and what each turn writes.
 */
module LinkOutcomes {
  import opened Base
  import opened Users
  import opened Links
  import opened LinkRedemption

  /** The tables each turn of request `r` finds, in the order they come, once it has arrived. */
  ghost function Finds(w: World, events: seq<Event>, r: ReqId): seq<Db>
    decreases events
  {
    if events == [] then []
    else
      var rest := Finds(Step(w, events[0]), events[1..], r);
      if events[0].Turn? && events[0].r == r && r in w.requests then [w.db] + rest else rest
  }

  // ----- what the tables say

  predicate IsLive(users: UserTable, id: Id) {
    id in users && users[id].deletedAt == None
  }

  predicate ElsewhereHeld(users: UserTable, id: Id, email: Address) {
    exists k :: k in users && k != id && users[k].email.Some? && users[k].email.value.folded == email.folded
  }

  /** What the link with this secret is refused for when it is looked up; the secret is its number. */
  function Objection(db: Db, token: Secret, purposes: set<Purpose>): Option<Error> {
    if token !in db.links || db.links[token].purpose !in purposes || db.links[token].consumedAt.Some?
    then Some(InvalidLink)
    else if db.now >= db.links[token].expiresAt then Some(LinkExpired)
    else None
  }

  predicate Unused(db: Db, token: Secret) {
    token in db.links && db.links[token].consumedAt == None
  }

  // ----- how each request ends

  /** A change looks at the address before it uses up the link, and meets the key again when it writes. */
  function ChangeEnds(link: Link, seen: seq<Db>): Option<Outcome>
    requires |seen| >= 2
  {
    if |seen| < 3 then None
    else if ElsewhereHeld(seen[2].users, link.userId, link.email) then Some(Refused(EmailTaken))
    else if |seen| < 4 then None
    else if !Unused(seen[3], link.tokenHash.preimage) then Some(Refused(InvalidLink))
    else if |seen| < 5 then None
    else if link.userId !in seen[4].users then Some(Refused(InvalidLink))
    else if ElsewhereHeld(seen[4].users, link.userId, link.email) then Some(Refused(DuplicateKey))
    else Some(Ok)
  }

  function DeletionEnds(link: Link, seen: seq<Db>): Option<Outcome>
    requires |seen| >= 2
  {
    if |seen| < 3 then None
    else if !Unused(seen[2], link.tokenHash.preimage) then Some(Refused(InvalidLink))
    else if |seen| < 4 then None
    else Some(Ok)
  }

  function ConfirmEnds(token: Secret, seen: seq<Db>): Option<Outcome> {
    if |seen| < 1 then None
    else
      var objection := Objection(seen[0], token, {EmailChange, AccountDeletion});
      if objection.Some? then Some(Refused(objection.value))
      else if |seen| < 2 then None
      else
        var link := seen[0].links[token];
        if !IsLive(seen[1].users, link.userId) then Some(Refused(InvalidLink))
        else if link.purpose == EmailChange then ChangeEnds(link, seen)
        else DeletionEnds(link, seen)
  }

  /** The account is there and has exactly the address the link was minted for. */
  predicate StillThere(db: Db, link: Link) {
    IsLive(db.users, link.userId) && db.users[link.userId].email == Some(link.email)
  }

  function ResetEnds(token: Secret, acceptable: bool, seen: seq<Db>): Option<Outcome> {
    if |seen| < 1 then None
    else if !acceptable then Some(Refused(WeakPassword))
    else
      var objection := Objection(seen[0], token, {PasswordReset});
      if objection.Some? then Some(Refused(objection.value))
      else if |seen| < 2 then None
      else if !StillThere(seen[1], seen[0].links[token]) then Some(Refused(InvalidLink))
      else if |seen| < 3 then None
      else if !Unused(seen[2], token) then Some(Refused(InvalidLink))
      else if |seen| < 5 then None
      else Some(Ok)
  }

  function VerifyEnds(token: Secret, seen: seq<Db>): Option<Outcome> {
    if |seen| < 1 then None
    else
      var objection := Objection(seen[0], token, {VerifyEmail});
      if objection.Some? then Some(Refused(objection.value))
      else if |seen| < 2 then None
      else if !StillThere(seen[1], seen[0].links[token]) then Some(Refused(InvalidLink))
      else if |seen| < 3 then None
      else if !Unused(seen[2], token) then Some(Refused(InvalidLink))
      else if |seen| < 4 then None
      else
        var link := seen[0].links[token];
        if Marks(seen[3].users, link) then Some(Ok) else Some(Refused(InvalidLink))
  }

  /** The row still holds the link's address, but perhaps for its spelling. */
  predicate Marks(users: UserTable, link: Link) {
    && link.userId in users && users[link.userId].email.Some?
    && users[link.userId].email.value.folded == link.email.folded
  }

  function Ends(input: Input, seen: seq<Db>): Option<Outcome> {
    match input
    case Confirm(token) => ConfirmEnds(token, seen)
    case Reset(token, _, acceptable) => ResetEnds(token, acceptable, seen)
    case Verify(token) => VerifyEnds(token, seen)
    case ChangePassword(userId, _) =>
      if |seen| < 1 then None
      else if userId !in seen[0].users then Some(Refused(UserNotFound))
      else if |seen| < 2 then None
      else Some(Ok)
  }

  function OutcomeOf(q: Request): Option<Outcome> {
    if q.pc.Done? then Some(q.pc.outcome) else None
  }

  // ----- where a request stands

  /** The request holds the link it was found by, as it was then. */
  predicate HoldsFound(q: Request, id: Id, record: Link, seen: seq<Db>) {
    && !q.input.ChangePassword? && |seen| >= 1
    && id == q.input.token && id in seen[0].links && seen[0].links[id] == record
    && record.purpose in Accepts(q.input) && record.tokenHash == HashToken(id)
  }

  /** Where a request is after it has seen this much. */
  predicate Stands(q: Request, seen: seq<Db>) {
    && Ends(q.input, seen) == OutcomeOf(q)
    && match q.pc
       case Start => |seen| == 0
       case Found(id, record) => |seen| == 1 && HoldsFound(q, id, record, seen)
       case Vacant(id, record) => |seen| == 2 && HoldsFound(q, id, record, seen) && record.purpose == EmailChange
       case Consuming(id, record) =>
         HoldsFound(q, id, record, seen) && |seen| == if record.purpose == EmailChange then 3 else 2
       case Acting(id, record) =>
         HoldsFound(q, id, record, seen) && |seen| == if record.purpose == EmailChange then 4 else 3
       case Closing(owner) =>
         if q.input.ChangePassword? then |seen| == 1 && owner == q.input.userId
         else q.input.Reset? && |seen| == 4 && q.input.token in seen[0].links
              && owner == seen[0].links[q.input.token].userId
       case Done(_) => true
  }

  lemma EndsStay(input: Input, seen: seq<Db>, more: Db)
    requires Ends(input, seen).Some?
    ensures Ends(input, seen + [more]) == Ends(input, seen)
  {
  }

  /** The lookup by hash finds the link whose number is the secret, or nothing. */
  lemma LookupIsByNumber(db: Db, token: Secret)
    requires forall l :: l in db.links ==> db.links[l].tokenHash == HashToken(l)
    ensures LinkWithHash(db.links, HashToken(token)) == if token in db.links then Some(token) else None
  {
  }

  lemma LooksUp(db: Db, q: Request, seen: seq<Db>)
    requires (forall l :: l in db.links ==> db.links[l].tokenHash == HashToken(l)) && q.pc.Start? && Stands(q, seen)
    ensures Stands(Advance(db, q).request, seen + [db])
  {
    if !q.input.ChangePassword? {
      LookupIsByNumber(db, q.input.token);
    }
  }

  lemma HeldElsewhere(users: UserTable, id: Id, email: Address)
    ensures TakenByOther(users, id, email) <==> ElsewhereHeld(users, id, email)
  {
  }

  lemma MovesOn(db: Db, q: Request, seen: seq<Db>)
    requires (q.pc.Found? || q.pc.Vacant? || q.pc.Consuming?) && Stands(q, seen)
    ensures Stands(Advance(db, q).request, seen + [db])
  {
    HeldElsewhere(db.users, q.pc.record.userId, q.pc.record.email);
  }

  lemma Finishes(db: Db, q: Request, seen: seq<Db>)
    requires (q.pc.Acting? || q.pc.Closing?) && Stands(q, seen)
    ensures Stands(Advance(db, q).request, seen + [db])
  {
    if q.pc.Acting? {
      HeldElsewhere(db.users, q.pc.record.userId, q.pc.record.email);
    }
  }

  lemma TurnStands(w: World, r: ReqId, seen: seq<Db>)
    requires forall l :: l in w.db.links ==> w.db.links[l].tokenHash == HashToken(l)
    requires r in w.requests && Stands(w.requests[r], seen)
    ensures var v := Step(w, Turn(r)); r in v.requests && Stands(v.requests[r], seen + [w.db])
  {
    var q := w.requests[r];
    if q.pc.Done? {
      EndsStay(q.input, seen, w.db);
    } else if q.pc.Start? {
      LooksUp(w.db, q, seen);
    } else if q.pc.Acting? || q.pc.Closing? {
      Finishes(w.db, q, seen);
    } else {
      MovesOn(w.db, q, seen);
    }
  }

  lemma {:induction false} RunStands(w: World, events: seq<Event>, r: ReqId, seen: seq<Db>)
    requires Inv(w) && if r in w.requests then Stands(w.requests[r], seen) else seen == []
    ensures var v := Run(w, events); r in v.requests ==> Stands(v.requests[r], seen + Finds(w, events, r))
    decreases events
  {
    if events == [] {
      assert seen + [] == seen;
    } else {
      var e := events[0];
      var v := Step(w, e);
      StepKeeps(w, e);
      if e == Turn(r) && r in w.requests {
        TurnStands(w, r, seen);
        RunStands(v, events[1..], r, seen + [w.db]);
        assert seen + [w.db] + Finds(v, events[1..], r) == seen + ([w.db] + Finds(v, events[1..], r));
      } else {
        OthersLeave(w, e, r);
        RunStands(v, events[1..], r, seen);
      }
    }
  }

  lemma OthersLeave(w: World, e: Event, r: ReqId)
    requires !(e == Turn(r) && r in w.requests)
    ensures var v := Step(w, e);
            if r in w.requests then r in v.requests && v.requests[r] == w.requests[r]
            else r in v.requests ==> v.requests[r].pc.Start?
  {
  }

  /** In every run each request has ended exactly as what it found at its turns says, or has not ended yet. */
  lemma RequestsEndAsFound(now: Time, users: UserTable, events: seq<Event>, r: ReqId)
    requires r in Run(Init(now, users), events).requests
    ensures var q := Run(Init(now, users), events).requests[r];
            OutcomeOf(q) == Ends(q.input, Finds(Init(now, users), events, r))
  {
    RunStands(Init(now, users), events, r, []);
    assert [] + Finds(Init(now, users), events, r) == Finds(Init(now, users), events, r);
  }

  // ----- what each turn writes

  /** One row of the users table is written, or nothing. */
  predicate WritesRow(before: Db, after: Db, id: Id, user: User) {
    after == before.(users := before.users[id := user])
  }

  /** Every unused link that could change the account is used up, and nothing else changes. */
  ghost predicate ClosesLinks(before: Db, after: Db, id: Id) {
    && after == before.(links := after.links) && after.links.Keys == before.links.Keys
    && forall l :: l in before.links ==>
         var link := before.links[l];
         after.links[l] == if link.userId == id && link.consumedAt.None? && link.purpose != VerifyEmail
                           then link.(consumedAt := Some(before.now)) else link
  }

  /** What the turn after the consumption does to the account the link is for. */
  ghost predicate ActsAsMeant(before: Db, after: Db, q: Request, link: Link) {
    if link.userId !in before.users then after == before
    else
      var was := before.users[link.userId];
      match link.purpose
      case EmailChange =>
        if ElsewhereHeld(before.users, link.userId, link.email) then after == before
        else WritesRow(before, after, link.userId, was.(email := Some(link.email), emailVerified := false))
      case AccountDeletion =>
        if was.deletedAt.Some? then after == before
        else WritesRow(before, after, link.userId, was.(deletedAt := Some(before.now)))
      case PasswordReset =>
        q.input.Reset?
        && WritesRow(before, after, link.userId,
                     was.(passwordHash := Some(q.input.passwordHash), emailVerified := true))
      case VerifyEmail =>
        if Marks(before.users, link) then WritesRow(before, after, link.userId, was.(emailVerified := true))
        else after == before
  }

  /** What a turn of a request writes. */
  ghost predicate WritesAsMeant(before: Db, after: Db, r: ReqId, q: Request) {
    match q.pc
    case Start =>
      if q.input.ChangePassword? && q.input.userId in before.users
      then WritesRow(before, after, q.input.userId,
                     before.users[q.input.userId].(passwordHash := Some(q.input.passwordHash)))
      else after == before
    case Consuming(id, _) =>
      if Unused(before, id)
      then after == before.(links := before.links[id := before.links[id].(consumedAt := Some(before.now))],
                            usedBy := before.usedBy[id := r])
      else after == before
    case Acting(_, record) => ActsAsMeant(before, after, q, record)
    case Closing(owner) => ClosesLinks(before, after, owner)
    case _ => after == before
  }

  lemma ActWrites(db: Db, r: ReqId, q: Request, seen: seq<Db>)
    requires q.pc.Acting? && Stands(q, seen)
    ensures ActsAsMeant(db, LinkRedemption.Apply(db, r, Advance(db, q).effect), q, q.pc.record)
  {
    HeldElsewhere(db.users, q.pc.record.userId, q.pc.record.email);
  }

  lemma AdvanceWrites(db: Db, r: ReqId, q: Request, seen: seq<Db>)
    requires Stands(q, seen)
    ensures WritesAsMeant(db, LinkRedemption.Apply(db, r, Advance(db, q).effect), r, q)
  {
    if q.pc.Acting? {
      ActWrites(db, r, q, seen);
    }
  }

  /** In every run a turn writes just that. */
  lemma TurnsWriteAsMeant(now: Time, users: UserTable, events: seq<Event>, r: ReqId)
    requires r in Run(Init(now, users), events).requests
    ensures var w := Run(Init(now, users), events);
            WritesAsMeant(w.db, Step(w, Turn(r)).db, r, w.requests[r])
  {
    RunStands(Init(now, users), events, r, []);
    var w := Run(Init(now, users), events);
    AdvanceWrites(w.db, r, w.requests[r], [] + Finds(Init(now, users), events, r));
  }

  // ----- what else changes the tables

  /** What an event that is no request's turn writes: a link is minted, links go, or the users table is edited. */
  ghost predicate OutsideWrites(before: Db, after: Db, e: Event) {
    match e
    case Tick(elapsed) => after == before.(now := before.now + elapsed)
    case Mint(userId, email, purpose, mailedTo, ttl) =>
      var n := before.supply;
      var to := if purpose == VerifyEmail || purpose == PasswordReset then email else mailedTo;
      && after == before.(links := after.links, minted := after.minted, supply := n + 1)
      && after.links ==
           before.links[n := Link(userId, email, purpose, Sha256(n), before.now + ttl, None, to)]
    case EditUsers(users) => after == before.(users := users)
    case PruneLinks(cutoff) =>
      && after == before.(links := after.links)
      && after.links == map l | l in before.links && before.links[l].expiresAt >= cutoff :: before.links[l]
    case PurgeLinks(userId) =>
      && after == before.(links := after.links)
      && after.links == map l | l in before.links && before.links[l].userId != userId :: before.links[l]
    case _ => after == before
  }

  /** The rest of the server, and time, do no more and no less than that, and new requests arrive. */
  lemma OutsideWritesAsMeant(w: World, e: Event)
    requires !e.Turn?
    ensures OutsideWrites(w.db, Step(w, e).db, e)
    ensures Step(w, e).requests == if e.Arrive? && e.r !in w.requests
                                   then w.requests[e.r := Request(e.input, None, Start)] else w.requests
  {
  }
}
