/**
  Passkey ceremonies as a transition system: registrations and sign-ins of any accounts
  interleave at every repository call. The WebAuthn check is foreign; it can succeed only
  when the challenge it was handed was consumed.
 */
module PasskeyRaces {
  import opened Base
  import opened Rows
  import opened Passkeys

  type ReqId = nat

  const MAX_PASSKEYS := 20
  const CHALLENGE_TTL_MS := 300000
  const FRESH_LOGIN_MS := 300000

  datatype Input =
    | RegistrationOptions(userId: Id, signedInAt: Time)
    | SignInOptions
    | RegisterInput(userId: Id, challenge: Secret, credential: Digest)
    | SignIn(challenge: Secret, credential: Digest)

  datatype Outcome =
    | Offered(challenge: Secret)
    | Registered
    | SignedIn(userId: Id)
    | FreshLoginRequired
    | UserNotFound
    | Invalid
    | LimitReached
    | AlreadyRegistered
    | DuplicateKey

  datatype Pc =
    | Start
    | Fresh                    // options: the user lookup is next
    | Counting                 // options: the passkeys are counted next
    | Offering                 // options: the challenge is stored next
    | Verified                 // register: the passkeys are counted next
    | BelowLimit               // register: the credential is looked up next
    | Inserting                // register: the row is inserted next
    | Clashed                  // register: the credential is looked up again
    | Found(row: Passkey)      // sign-in: the signature is checked next
    | Recording(row: Passkey)  // sign-in: the use is recorded next
    | Done(outcome: Outcome)

  /** `used` is the challenge this request consumed. */
  datatype Request = Request(input: Input, used: Option<Digest>, pc: Pc)

  /** What lies outside: the user lookup, and how the WebAuthn check goes for this response. */
  datatype Answer = Answer(hasEmail: bool, callsBack: bool, verified: bool, counter: nat)

  /** `offered` is every challenge ever stored and `usedBy` who consumed it. */
  datatype Db = Db(
    now: Time,
    supply: nat,
    rows: seq<Passkey>,
    challenges: seq<Challenge>,
    offered: map<Digest, Challenge>,
    usedBy: map<Digest, ReqId>)

  datatype World = World(db: Db, requests: map<ReqId, Request>)

  datatype Effect =
    | Nothing
    | Offer(purpose: Purpose, forUser: Option<Id>)
    | Spend(index: nat)
    | Insert(row: Passkey)
    | Record(id: Id, counter: nat)

  datatype Move = Move(request: Request, effect: Effect)

  function Goto(q: Request, pc: Pc): Move {
    Move(q.(pc := pc), Nothing)
  }

  function End(q: Request, outcome: Outcome): Move {
    Goto(q, Done(outcome))
  }

  function Owned(rows: seq<Passkey>, userId: Id): seq<Passkey> {
    Kept(rows, OwnedBy(userId))
  }

  function AtLimit(db: Db, userId: Id): bool {
    |Owned(db.rows, userId)| >= MAX_PASSKEYS
  }

  /** Consuming the challenge is the check: the library's verdict counts only when that worked. */
  function CheckMove(db: Db, q: Request, challenge: Secret, purpose: Purpose, forUser: Option<Id>, passed: Pc,
                     answer: Answer): Move {
    var i := First(db.challenges, Fits(HashToken(challenge), purpose, forUser, db.now));
    if !answer.callsBack || i == |db.challenges| then End(q, Invalid)
    else Move(q.(used := Some(HashToken(challenge)), pc := if answer.verified then passed else Done(Invalid)), Spend(i))
  }

  function StartMove(db: Db, q: Request, answer: Answer): Move {
    match q.input
    case RegistrationOptions(_, signedInAt) =>
      if db.now - signedInAt > FRESH_LOGIN_MS then End(q, FreshLoginRequired) else Goto(q, Fresh)
    case SignInOptions => Goto(q, Offering)
    case RegisterInput(userId, challenge, _) => CheckMove(db, q, challenge, Register, Some(userId), Verified, answer)
    case SignIn(_, credential) =>
      var i := First(db.rows, HasCredential(credential));
      if i == |db.rows| then End(q, Invalid) else Goto(q, Found(db.rows[i]))
  }

  function HoldsCredential(rows: seq<Passkey>, credential: Digest): bool {
    exists p :: p in rows && p.credentialHash == credential
  }

  /** The steps of a registration after its challenge was consumed. */
  function RegisterMove(db: Db, q: Request, answer: Answer): Move
    requires q.input.RegisterInput?
  {
    var credential := q.input.credential;
    match q.pc
    case Verified => if AtLimit(db, q.input.userId) then End(q, LimitReached) else Goto(q, BelowLimit)
    case BelowLimit => if HoldsCredential(db.rows, credential) then End(q, AlreadyRegistered) else Goto(q, Inserting)
    case Inserting =>
      var row := Passkey(db.supply, q.input.userId, credential, answer.counter, None);
      if InsertResult(db.rows, row).Inserted? then Move(q.(pc := Done(Registered)), Insert(row)) else Goto(q, Clashed)
    case Clashed => End(q, if HoldsCredential(db.rows, credential) then AlreadyRegistered else DuplicateKey)
    case _ => Goto(q, q.pc)
  }

  function OptionsMove(db: Db, q: Request, answer: Answer): Move {
    match q.pc
    case Fresh => if answer.hasEmail then Goto(q, Counting) else End(q, UserNotFound)
    case Counting =>
      if q.input.RegistrationOptions? && AtLimit(db, q.input.userId) then End(q, LimitReached) else Goto(q, Offering)
    case _ =>
      Move(q.(pc := Done(Offered(db.supply))),
           if q.input.RegistrationOptions? then Offer(Register, Some(q.input.userId)) else Offer(Authenticate, None))
  }

  function Advance(db: Db, q: Request, answer: Answer): Move {
    match q.pc
    case Start => StartMove(db, q, answer)
    case Fresh => OptionsMove(db, q, answer)
    case Counting => OptionsMove(db, q, answer)
    case Offering => OptionsMove(db, q, answer)
    case Found(row) =>
      if q.input.SignIn? then CheckMove(db, q, q.input.challenge, Authenticate, None, Recording(row), answer)
      else Goto(q, q.pc)
    case Recording(row) => Move(q.(pc := Done(SignedIn(row.userId))), Record(row.id, answer.counter))
    case Done(_) => Goto(q, q.pc)
    case _ => if q.input.RegisterInput? then RegisterMove(db, q, answer) else Goto(q, q.pc)
  }

  function Apply(db: Db, r: ReqId, effect: Effect): Db {
    match effect
    case Nothing => db
    case Offer(purpose, forUser) =>
      var c := Challenge(HashToken(db.supply), purpose, forUser, db.now + CHALLENGE_TTL_MS, None);
      db.(challenges := db.challenges + [c], offered := db.offered[c.hash := c], supply := db.supply + 1)
    case Spend(i) =>
      if i >= |db.challenges| then db
      else db.(challenges := Spent(db.challenges, i, db.now), usedBy := db.usedBy[db.challenges[i].hash := r])
    case Insert(row) => db.(rows := db.rows + [row], supply := db.supply + 1)
    case Record(id, counter) => db.(rows := Recorded(db.rows, id, counter, db.now))
  }

  datatype Event =
    | Tick(elapsed: nat)
    | Arrive(r: ReqId, input: Input)
    | Turn(r: ReqId, answer: Answer)
    | Remove(userId: Id, id: Id)
    | RevokeAll(userId: Id)  // a password reset or change
    | Erase(userId: Id)
    | Prune(cutoff: int)

  function Outside(db: Db, e: Event): Db {
    match e
    case Tick(elapsed) => db.(now := db.now + elapsed)
    case Remove(userId, id) => db.(rows := Kept(db.rows, Other(userId, id)))
    case RevokeAll(userId) => db.(rows := Kept(db.rows, NotOwnedBy(userId)))
    case Erase(userId) =>
      db.(rows := Kept(db.rows, NotOwnedBy(userId)), challenges := Kept(db.challenges, NotFor(userId)))
    case Prune(cutoff) => db.(challenges := Kept(db.challenges, NotExpiredBefore(cutoff)))
    case _ => db
  }

  function Step(w: World, e: Event): World {
    match e
    case Arrive(r, input) =>
      if r in w.requests then w else w.(requests := w.requests[r := Request(input, None, Start)])
    case Turn(r, answer) =>
      if r !in w.requests then w
      else
        var move := Advance(w.db, w.requests[r], answer);
        World(Apply(w.db, r, move.effect), w.requests[r := move.request])
    case _ => w.(db := Outside(w.db, e))
  }

  function Run(w: World, events: seq<Event>): World
    decreases events
  {
    if events == [] then w else Run(Step(w, events[0]), events[1..])
  }

  function Init(now: Time): World {
    World(Db(now, 0, [], [], map[], map[]), map[])
  }
}
