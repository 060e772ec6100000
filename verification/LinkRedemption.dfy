/**
  Redeeming emailed links as a transition system: confirmations, password resets, address
  verifications and password changes interleave at every repository call, with address
  changes, new links, deletions and prune jobs in between.
 */
module LinkRedemption {
  import opened Base
  import opened Tables
  import opened Users
  import opened Links

  type ReqId = nat

  datatype Input =
    | Confirm(token: Secret)
    | Reset(token: Secret, passwordHash: Digest, acceptable: bool)
    | Verify(token: Secret)
    | ChangePassword(userId: Id, passwordHash: Digest) // the checks before the write have passed

  datatype Error = InvalidLink | LinkExpired | WeakPassword | EmailTaken | DuplicateKey | UserNotFound

  datatype Outcome = Ok | Refused(error: Error)

  datatype Pc =
    | Start
    | Found(id: Id, record: Link)      // purpose, use and expiry checked; the account is looked up next
    | Vacant(id: Id, record: Link)     // an address change: the new address is looked up next
    | Consuming(id: Id, record: Link)
    | Acting(id: Id, record: Link)
    | Closing(owner: Id)               // the account's other links are used up next
    | Done(outcome: Outcome)

  /** `used` is the link this request consumed. */
  datatype Request = Request(input: Input, used: Option<Id>, pc: Pc)

  /** `minted` holds every link as it was minted, and `usedBy` the request that consumed it. */
  datatype Db = Db(now: Time, supply: nat, users: UserTable, links: LinkTable, minted: LinkTable,
                   usedBy: map<Id, ReqId>)

  datatype World = World(db: Db, requests: map<ReqId, Request>)

  datatype Effect =
    | Nothing
    | Consume(link: Id)
    | UpdateUser(userId: Id, patch: Patch)
    | SoftDelete(userId: Id)
    | MarkVerified(userId: Id, email: Address)
    | CloseAll(userId: Id)

  datatype Move = Move(request: Request, effect: Effect)

  function Goto(q: Request, pc: Pc): Move {
    Move(q.(pc := pc), Nothing)
  }

  function Refuse(q: Request, error: Error): Move {
    Goto(q, Done(Refused(error)))
  }

  /** The purposes an endpoint acts on. */
  function Accepts(input: Input): set<Purpose> {
    match input
    case Confirm(_) => {EmailChange, AccountDeletion}
    case Reset(_, _, _) => {PasswordReset}
    case Verify(_) => {VerifyEmail}
    case ChangePassword(_, _) => {}
  }

  ghost function FindMove(db: Db, q: Request, token: Secret): Move {
    var id := LinkWithHash(db.links, HashToken(token));
    if id.None? || db.links[id.value].purpose !in Accepts(q.input) then Refuse(q, InvalidLink)
    else if db.links[id.value].consumedAt.Some? then Refuse(q, InvalidLink)
    else if db.links[id.value].expiresAt <= db.now then Refuse(q, LinkExpired)
    else Goto(q, Found(id.value, db.links[id.value]))
  }

  ghost function StartMove(db: Db, q: Request): Move {
    match q.input
    case Confirm(token) => FindMove(db, q, token)
    case Verify(token) => FindMove(db, q, token)
    case Reset(token, _, acceptable) => if acceptable then FindMove(db, q, token) else Refuse(q, WeakPassword)
    case ChangePassword(userId, hash) =>
      if userId !in db.users then Refuse(q, UserNotFound)
      else Move(q.(pc := Closing(userId)), UpdateUser(userId, Patch(None, Some(hash), None)))
  }

  function FoundMove(db: Db, q: Request, id: Id, record: Link): Move {
    if !Live(db.users, record.userId) then Refuse(q, InvalidLink)
    else if !q.input.Confirm? && db.users[record.userId].email != Some(record.email) then Refuse(q, InvalidLink)
    else Goto(q, if record.purpose == EmailChange then Vacant(id, record) else Consuming(id, record))
  }

  function ActingMove(db: Db, q: Request, id: Id, record: Link): Move {
    match record.purpose
    case EmailChange =>
      var patch := Patch(Some(record.email), None, Some(false));
      (match UpdateResult(db.users, record.userId, patch)
       case Updated => Move(q.(pc := Done(Ok)), UpdateUser(record.userId, patch))
       case Missing => Refuse(q, InvalidLink)
       case DuplicateEmail => Refuse(q, DuplicateKey))
    case AccountDeletion => Move(q.(pc := Done(Ok)), SoftDelete(record.userId))
    case PasswordReset =>
      var hash := if q.input.Reset? then Some(q.input.passwordHash) else None;
      Move(q.(pc := Closing(record.userId)), UpdateUser(record.userId, Patch(None, hash, Some(true))))
    case VerifyEmail =>
      if record.userId in db.users && CiEquals(db.users[record.userId].email, Some(record.email))
      then Move(q.(pc := Done(Ok)), MarkVerified(record.userId, record.email))
      else Refuse(q, InvalidLink)
  }

  ghost function Advance(db: Db, q: Request): Move {
    match q.pc
    case Start => StartMove(db, q)
    case Found(id, record) => FoundMove(db, q, id, record)
    case Vacant(id, record) =>
      if TakenByOther(db.users, record.userId, record.email) then Refuse(q, EmailTaken)
      else Goto(q, Consuming(id, record))
    case Consuming(id, record) =>
      if Consumable(db.links, id) then Move(q.(used := Some(id), pc := Acting(id, record)), Consume(id))
      else Refuse(q, InvalidLink)
    case Acting(id, record) => ActingMove(db, q, id, record)
    case Closing(owner) => Move(q.(pc := Done(Ok)), CloseAll(owner))
    case Done(_) => Goto(q, q.pc)
  }

  function Apply(db: Db, r: ReqId, effect: Effect): Db {
    match effect
    case Nothing => db
    case Consume(link) =>
      if link !in db.links then db
      else db.(links := Consumed(db.links, link, db.now), usedBy := db.usedBy[link := r])
    case UpdateUser(userId, patch) => db.(users := AfterUpdate(db.users, userId, patch))
    case SoftDelete(userId) =>
      if !Live(db.users, userId) then db
      else db.(users := db.users[userId := db.users[userId].(deletedAt := Some(db.now))])
    case MarkVerified(userId, email) =>
      if userId in db.users && CiEquals(db.users[userId].email, Some(email))
      then db.(users := db.users[userId := db.users[userId].(emailVerified := true)]) else db
    case CloseAll(userId) => db.(links := Rewritten(db.links, Open(userId), Used(db.now)))
  }

  datatype Event =
    | Tick(elapsed: nat)
    | Arrive(r: ReqId, input: Input)
    | Turn(r: ReqId)
    | Mint(userId: Id, email: Address, purpose: Purpose, mailedTo: Address, ttl: nat)
    | EditUsers(users: UserTable) // any other write to the users table
    | PruneLinks(cutoff: int)
    | PurgeLinks(userId: Id)

  /** Such a link is mailed to the very address it is about. */
  predicate ProvesAddress(purpose: Purpose) {
    purpose.VerifyEmail? || purpose.PasswordReset?
  }

  function Outside(db: Db, e: Event): Db {
    match e
    case Tick(elapsed) => db.(now := db.now + elapsed)
    case Mint(userId, email, purpose, mailedTo, ttl) =>
      var recipient := if ProvesAddress(purpose) then email else mailedTo;
      var link := Link(userId, email, purpose, HashToken(db.supply), db.now + ttl, None, recipient);
      db.(links := db.links[db.supply := link], minted := db.minted[db.supply := link], supply := db.supply + 1)
    case EditUsers(users) => db.(users := users)
    case PruneLinks(cutoff) => db.(links := Without(db.links, ExpiredBefore(cutoff)))
    case PurgeLinks(userId) => db.(links := Without(db.links, OwnedBy(userId)))
    case _ => db
  }

  ghost function Step(w: World, e: Event): World {
    match e
    case Arrive(r, input) =>
      if r in w.requests then w else w.(requests := w.requests[r := Request(input, None, Start)])
    case Turn(r) =>
      if r !in w.requests then w
      else
        var move := Advance(w.db, w.requests[r]);
        World(Apply(w.db, r, move.effect), w.requests[r := move.request])
    case _ => w.(db := Outside(w.db, e))
  }

  ghost function Run(w: World, events: seq<Event>): World
    decreases events
  {
    if events == [] then w else Run(Step(w, events[0]), events[1..])
  }

  function Init(now: Time, users: UserTable): World {
    World(Db(now, 0, users, map[], map[], map[]), map[])
  }

  // ----- what every step keeps

  /** Stored links are minted ones, unused exactly as minted, and used ones were either redeemed or closed. */
  ghost predicate LinksOk(db: Db) {
    && (forall l :: l in db.links ==>
          l in db.minted && db.links[l].(consumedAt := None) == db.minted[l]
          && (l in db.usedBy ==> db.links[l].consumedAt.Some?))
    && (forall l :: l in db.minted ==>
        l < db.supply && db.minted[l].tokenHash == HashToken(l) && db.minted[l].consumedAt.None?)
    && (forall l :: l in db.usedBy ==> l in db.minted)
  }

  ghost predicate MailedHome(minted: LinkTable) {
    forall l :: l in minted && ProvesAddress(minted[l].purpose) ==> minted[l].mailedTo == minted[l].email
  }

  function Token(input: Input): Option<Secret> {
    if input.ChangePassword? then None else Some(input.token)
  }

  /** The link a request holds is the one its token names, minted for a purpose its endpoint accepts. */
  ghost predicate Holds(minted: LinkTable, q: Request, id: Id, record: Link) {
    id in minted && minted[id] == record && record.purpose in Accepts(q.input) && Token(q.input) == Some(id)
  }

  predicate Cheap(error: Error) {
    error.WeakPassword? || error.EmailTaken? || error.LinkExpired?
  }

  ghost predicate RequestOk(minted: LinkTable, usedBy: map<Id, ReqId>, r: ReqId, q: Request) {
    && (q.pc.Found? || q.pc.Vacant? || q.pc.Consuming? || q.pc.Acting? ==> Holds(minted, q, q.pc.id, q.pc.record))
    && (q.pc.Vacant? ==> q.pc.record.purpose == EmailChange)
    && (q.used.Some? ==>
          && q.used.value in usedBy && usedBy[q.used.value] == r
          && q.used.value in minted && minted[q.used.value].purpose in Accepts(q.input) && Token(q.input) == q.used)
    && (q.pc.Start? || q.pc.Found? || q.pc.Vacant? || q.pc.Consuming? ==> q.used.None?)
    && (q.pc.Acting? ==> q.used == Some(q.pc.id))
    && (q.pc.Closing? ==> if q.input.ChangePassword? then q.pc.owner == q.input.userId
                          else q.used.Some? && q.pc.owner == minted[q.used.value].userId)
    && (q.pc.Done? && q.pc.outcome.Refused? && Cheap(q.pc.outcome.error) ==> q.used.None?)
  }

  /** Nobody is on record as the user of a link without having used it. */
  ghost predicate UsersOfLinks(w: World) {
    forall l :: l in w.db.usedBy ==> w.db.usedBy[l] in w.requests && w.requests[w.db.usedBy[l]].used == Some(l)
  }

  ghost predicate Inv(w: World) {
    && LinksOk(w.db) && MailedHome(w.db.minted) && UsersOfLinks(w)
    && forall r :: r in w.requests ==> RequestOk(w.db.minted, w.db.usedBy, r, w.requests[r])
  }

  lemma OutsideKeeps(db: Db, e: Event)
    requires LinksOk(db)
    ensures var d := Outside(db, e);
            && LinksOk(d) && d.usedBy == db.usedBy
            && (forall l :: l in db.minted ==> l in d.minted && d.minted[l] == db.minted[l])
  {
  }

  lemma WriteKeeps(db: Db, r: ReqId, effect: Effect)
    requires LinksOk(db) && (effect.Consume? ==> Consumable(db.links, effect.link))
    ensures var d := Apply(db, r, effect);
            && LinksOk(d) && d.minted == db.minted
            && d.usedBy == (if effect.Consume? then db.usedBy[effect.link := r] else db.usedBy)
            && (effect.Consume? ==> effect.link !in db.usedBy)
  {
  }

  lemma AdvanceKeeps(db: Db, r: ReqId, q: Request)
    requires LinksOk(db) && RequestOk(db.minted, db.usedBy, r, q)
    ensures var move := Advance(db, q);
            && (move.effect.Consume? ==>
                Consumable(db.links, move.effect.link) && q.used.None? && move.request.used == Some(move.effect.link))
            && (!move.effect.Consume? ==> move.request.used == q.used)
            && RequestOk(db.minted, Apply(db, r, move.effect).usedBy, r, move.request)
  {
    if q.pc.Start? {
      StartKeeps(db, r, q);
    } else if q.pc.Consuming? {
      ConsumingKeeps(db, r, q);
    } else {
      LaterKeeps(db, r, q);
    }
  }

  lemma StartKeeps(db: Db, r: ReqId, q: Request)
    requires LinksOk(db) && RequestOk(db.minted, db.usedBy, r, q) && q.pc.Start?
    ensures var move := Advance(db, q);
            && !move.effect.Consume? && move.request.used == q.used && Apply(db, r, move.effect).usedBy == db.usedBy
            && RequestOk(db.minted, db.usedBy, r, move.request)
  {
  }

  lemma ConsumingKeeps(db: Db, r: ReqId, q: Request)
    requires LinksOk(db) && RequestOk(db.minted, db.usedBy, r, q) && q.pc.Consuming?
    ensures var move := Advance(db, q);
            && (if move.effect.Consume? then
                  Consumable(db.links, move.effect.link) && q.used.None? && move.request.used == Some(move.effect.link)
                else move.request.used == q.used)
            && RequestOk(db.minted, Apply(db, r, move.effect).usedBy, r, move.request)
  {
  }

  lemma LaterKeeps(db: Db, r: ReqId, q: Request)
    requires RequestOk(db.minted, db.usedBy, r, q) && !q.pc.Start? && !q.pc.Consuming?
    ensures var move := Advance(db, q);
            && !move.effect.Consume? && move.request.used == q.used && Apply(db, r, move.effect).usedBy == db.usedBy
            && RequestOk(db.minted, db.usedBy, r, move.request)
  {
  }

  lemma OtherKeeps(minted: LinkTable, after: LinkTable, usedBy: map<Id, ReqId>, r: ReqId, q: Request)
    requires RequestOk(minted, usedBy, r, q) && forall l :: l in minted ==> l in after && after[l] == minted[l]
    ensures RequestOk(after, usedBy, r, q)
  {
  }

  lemma TurnKeeps(w: World, r: ReqId)
    requires Inv(w) && r in w.requests
    ensures Inv(Step(w, Turn(r)))
  {
    var effect := Advance(w.db, w.requests[r]).effect;
    var v := Step(w, Turn(r));
    AdvanceKeeps(w.db, r, w.requests[r]);
    WriteKeeps(w.db, r, effect);
    forall s | s in v.requests && s != r ensures RequestOk(v.db.minted, v.db.usedBy, s, v.requests[s]) {
      assert RequestOk(w.db.minted, w.db.usedBy, s, w.requests[s]);
    }
  }

  lemma StepKeeps(w: World, e: Event)
    requires Inv(w)
    ensures Inv(Step(w, e))
  {
    if e.Turn? {
      if e.r in w.requests {
        TurnKeeps(w, e.r);
      }
    } else {
      OutsideKeeps(w.db, e);
      assert MailedHome(Outside(w.db, e).minted);
      forall s | s in w.requests ensures RequestOk(Outside(w.db, e).minted, w.db.usedBy, s, w.requests[s]) {
        OtherKeeps(w.db.minted, Outside(w.db, e).minted, w.db.usedBy, s, w.requests[s]);
      }
    }
  }

  lemma {:induction false} RunKeeps(w: World, events: seq<Event>)
    requires Inv(w)
    ensures Inv(Run(w, events))
    decreases events
  {
    if events != [] {
      StepKeeps(w, events[0]);
      RunKeeps(Step(w, events[0]), events[1..]);
    }
  }
}
