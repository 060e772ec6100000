/**
  Token grants as a transition system. Any number of requests run at once and may
  interleave at every await, so each repository call is one atomic step of one request,
  and what a request remembers between two steps is its program counter and its locals.
 */
module Grants {
  import opened Base
  import opened Tables
  import opened RefreshTokens
  import Codes = AuthCodes

  type ReqId = nat

  /** All durations are in milliseconds. */
  datatype Config = Config(reuseGrace: nat, refreshTtl: nat, codeTtl: nat, retention: nat)

  datatype Service = Service(id: Id, clientId: Id, isPublic: bool, secretHash: Option<Digest>)

  datatype Client = Client(id: Option<Id>, secret: Option<Secret>)

  datatype Error =
    | InvalidRefreshToken
    | RefreshTokenReuse
    | InvalidGrant
    | InvalidClient
    | SubjectRefused // no such user, unverified address or not a member
    | DuplicateKey

  datatype Outcome = Pair(tokenId: Id) | Refused(error: Error) | Acknowledged

  datatype Input =
    | RefreshInput(secret: Secret, client: Client)
    | ExchangeInput(code: Secret, redirectUri: nat, verifier: Secret, clientId: Id, clientSecret: Option<Secret>)
    | IssueInput(userId: Id, serviceId: Id)
    | RevokeInput(secret: Secret, client: Client)

  /** The program counter of a request, with the locals that are live there. */
  datatype Pc =
    | Start
    | Found(id: Id, row: Token)
    | Authenticated(id: Id, row: Token)
    | Live(id: Id, row: Token)
    | Minted(id: Id, row: Token, next: NewToken)
    | LostRace(id: Id, row: Token)
    | MustRevoke(id: Id)
    | MustRevokeAll(userId: Id, error: Error)
    | CodeFound(code: Id, record: Codes.Code)
    | CodeChecked(code: Id, record: Codes.Code)
    | CodeRedeemed(code: Id, record: Codes.Code)
    | Creating(from: Option<Id>, next: NewToken)
    | Done(outcome: Outcome)

  /** `subject` is the id of the presented token or code once the lookup found it. */
  datatype Request = Request(input: Input, subject: Option<Id>, service: Option<Service>, pc: Pc)

  /** What the other tables answer to the step being taken: the app service, and the subject checks. */
  datatype Answer = Answer(service: Option<Service>, subjectOk: bool)

  /** The one write a step performs. */
  datatype Effect =
    | Nothing
    | Draw
    | Create(next: NewToken, from: Option<Id>)
    | Rotate(id: Id, next: NewToken)
    | Revoke(id: Id)
    | RevokeAll(userId: Id)
    | Consume(code: Id)

  /** The chain a token belongs to: its first token, and the code that one was issued for, if any. */
  datatype Chain = Chain(first: Id, code: Option<Id>)

  /**
    What has happened so far, kept beside the tables because rows can be deleted: the
    chain of every token ever inserted, the request that rotated a token or redeemed a
    code, and every code as it was issued.
   */
  datatype Log = Log(
    chain: map<Id, Chain>,
    rotatedBy: map<Id, ReqId>,
    redeemedBy: map<Id, ReqId>,
    issued: map<Id, Codes.Code>)

  /** The n-th draw from the supply is both a new id and a new secret. */
  datatype Db = Db(now: Time, supply: nat, tokens: TokenTable, codes: Codes.CodeTable, log: Log)

  datatype World = World(db: Db, requests: map<ReqId, Request>)

  function Init(now: Time): World {
    World(Db(now, 0, map[], map[], Log(map[], map[], map[], map[])), map[])
  }

  // ----- lookups and checks

  ghost function TokenWithHash(tokens: TokenTable, hash: Digest): (found: Option<Id>)
    ensures found.Some? ==> found.value in tokens && tokens[found.value].tokenHash == hash
    ensures found.None? ==> forall id :: id in tokens ==> tokens[id].tokenHash != hash
  {
    if exists id :: id in tokens && tokens[id].tokenHash == hash then
      var id :| id in tokens && tokens[id].tokenHash == hash;
      Some(id)
    else
      None
  }

  ghost function CodeWithHash(codes: Codes.CodeTable, hash: Digest): (found: Option<Id>)
    ensures found.Some? ==> found.value in codes && codes[found.value].codeHash == hash
    ensures found.None? ==> forall id :: id in codes ==> codes[id].codeHash != hash
  {
    if exists id :: id in codes && codes[id].codeHash == hash then
      var id :| id in codes && codes[id].codeHash == hash;
      Some(id)
    else
      None
  }

  function ServiceById(answer: Answer, id: Id): Option<Service> {
    if answer.service.Some? && answer.service.value.id == id then answer.service else None
  }

  predicate ClientSecretOk(service: Service, secret: Option<Secret>) {
    || service.isPublic
    || (service.secretHash.Some? && secret.Some? && HashToken(secret.value) == service.secretHash.value)
  }

  function TokenClientError(service: Service, client: Client, wrongClient: Error): Option<Error> {
    if client.id.Some? && client.id.value != service.clientId then Some(wrongClient)
    else if !service.isPublic && client.id.None? then Some(InvalidClient)
    else if !ClientSecretOk(service, client.secret) then Some(InvalidClient)
    else None
  }

  /** Rotated, not revoked, less than the grace period ago by the stored revokedAt. */
  predicate JustRotated(cfg: Config, t: Token, now: Time) {
    && cfg.reuseGrace > 0
    && t.replacedBy.Some? && t.revokedAt.Some?
    && now - t.revokedAt.value < cfg.reuseGrace
  }

  function NextToken(cfg: Config, db: Db, userId: Id, serviceId: Id): NewToken {
    NewToken(db.supply, userId, serviceId, HashToken(db.supply), db.now + cfg.refreshTtl)
  }

  // ----- one step of one request

  /** A request that moves on to `pc` after the write `effect`. */
  datatype Move = Move(request: Request, effect: Effect)

  function Goto(q: Request, pc: Pc): Move {
    Move(q.(pc := pc), Nothing)
  }

  function Refuse(q: Request, error: Error): Move {
    Goto(q, Done(Refused(error)))
  }

  ghost function FindToken(db: Db, q: Request, secret: Secret, unknown: Outcome): Move {
    match TokenWithHash(db.tokens, HashToken(secret))
    case None => Goto(q, Done(unknown))
    case Some(id) => Move(q.(subject := Some(id), pc := Found(id, db.tokens[id])), Nothing)
  }

  ghost function StartMove(cfg: Config, db: Db, q: Request, answer: Answer): Move {
    match q.input
    case RefreshInput(secret, _) => FindToken(db, q, secret, Refused(InvalidRefreshToken))
    case RevokeInput(secret, _) => FindToken(db, q, secret, Acknowledged)
    case ExchangeInput(code, _, _, _, _) =>
      (match CodeWithHash(db.codes, HashToken(code))
       case None => Refuse(q, InvalidGrant)
       case Some(id) => Move(q.(subject := Some(id), pc := CodeFound(id, db.codes[id])), Nothing))
    case IssueInput(userId, serviceId) =>
      if !answer.subjectOk then Refuse(q, SubjectRefused)
      else Move(q.(pc := Creating(None, NextToken(cfg, db, userId, serviceId))), Draw)
  }

  /** The service lookup and the client authentication that precede every use of a found token. */
  function FoundMove(q: Request, id: Id, row: Token, answer: Answer): Move {
    var service := ServiceById(answer, row.serviceId);
    match q.input
    case RefreshInput(_, client) =>
      if service.None? then Refuse(q, InvalidRefreshToken)
      else
        (match TokenClientError(service.value, client, InvalidGrant)
         case Some(error) => Refuse(q, error)
         case None => Move(q.(service := service, pc := Authenticated(id, row)), Nothing))
    case RevokeInput(_, client) =>
      var error := if service.None? then None else TokenClientError(service.value, client, InvalidClient);
      if error.Some? then Refuse(q, error.value)
      else if Active(row) then Goto(q, MustRevoke(id))
      else Goto(q, Done(Acknowledged))
    case _ => Goto(q, q.pc)
  }

  /** Reuse detection comes before expiry, on the row as it was found. */
  function AuthenticatedMove(cfg: Config, db: Db, q: Request, id: Id, row: Token): Move {
    if row.revokedAt.Some? then
      if JustRotated(cfg, row, db.now) then Refuse(q, InvalidRefreshToken)
      else Goto(q, MustRevokeAll(row.userId, RefreshTokenReuse))
    else if row.expiresAt <= db.now then Refuse(q, InvalidRefreshToken)
    else Goto(q, Live(id, row))
  }

  function LiveMove(cfg: Config, db: Db, q: Request, id: Id, row: Token, answer: Answer): Move {
    if !answer.subjectOk then Refuse(q, SubjectRefused)
    else Move(q.(pc := Minted(id, row, NextToken(cfg, db, row.userId, row.serviceId))), Draw)
  }

  function MintedMove(db: Db, q: Request, id: Id, row: Token, next: NewToken): Move {
    if !Rotatable(db.tokens, id) then Goto(q, LostRace(id, row))
    else if !Insertable(db.tokens, next) then Refuse(q, Error.DuplicateKey)
    else Move(q.(pc := Done(Pair(next.id))), Rotate(id, next))
  }

  ghost function LostRaceMove(cfg: Config, db: Db, q: Request, row: Token): Move {
    var again := TokenWithHash(db.tokens, row.tokenHash);
    if again.Some? && JustRotated(cfg, db.tokens[again.value], db.now) then Refuse(q, InvalidRefreshToken)
    else Goto(q, MustRevokeAll(row.userId, RefreshTokenReuse))
  }

  function CodeFoundMove(db: Db, q: Request, code: Id, record: Codes.Code, answer: Answer): Move {
    var service := ServiceById(answer, record.serviceId);
    match q.input
    case ExchangeInput(_, redirectUri, verifier, clientId, clientSecret) =>
      if service.None? || service.value.clientId != clientId then Refuse(q, InvalidGrant)
      // Replay is acted on before client authentication.
      else if record.consumedAt.Some? then Goto(q, MustRevokeAll(record.userId, InvalidGrant))
      else if record.expiresAt <= db.now then Refuse(q, InvalidGrant)
      else if record.redirectUri != redirectUri then Refuse(q, InvalidGrant)
      else if !ClientSecretOk(service.value, clientSecret) then Refuse(q, InvalidClient)
      else if Codes.S256(verifier) != record.challenge then Refuse(q, InvalidGrant)
      else Move(q.(service := service, pc := CodeChecked(code, record)), Nothing)
    case _ => Goto(q, q.pc)
  }

  function CodeCheckedMove(db: Db, q: Request, code: Id, record: Codes.Code): Move {
    if !Codes.Consumable(db.codes, code) then Goto(q, MustRevokeAll(record.userId, InvalidGrant))
    else Move(q.(pc := CodeRedeemed(code, record)), Consume(code))
  }

  function CodeRedeemedMove(cfg: Config, db: Db, q: Request, code: Id, record: Codes.Code, answer: Answer): Move {
    if !answer.subjectOk then Refuse(q, SubjectRefused)
    else Move(q.(pc := Creating(Some(code), NextToken(cfg, db, record.userId, record.serviceId))), Draw)
  }

  function CreatingMove(db: Db, q: Request, code: Option<Id>, next: NewToken): Move {
    if !Insertable(db.tokens, next) then Refuse(q, Error.DuplicateKey)
    else Move(q.(pc := Done(Pair(next.id))), Create(next, code))
  }

  /** The next step of a request: what it writes and where it goes. */
  ghost function Advance(cfg: Config, db: Db, q: Request, answer: Answer): Move {
    match q.pc
    case Start => StartMove(cfg, db, q, answer)
    case Found(id, row) => FoundMove(q, id, row, answer)
    case Authenticated(id, row) => AuthenticatedMove(cfg, db, q, id, row)
    case Live(id, row) => LiveMove(cfg, db, q, id, row, answer)
    case Minted(id, row, next) => MintedMove(db, q, id, row, next)
    case LostRace(_, row) => LostRaceMove(cfg, db, q, row)
    case MustRevoke(id) => Move(q.(pc := Done(Acknowledged)), Revoke(id))
    case MustRevokeAll(userId, error) => Move(q.(pc := Done(Refused(error))), RevokeAll(userId))
    case CodeFound(code, record) => CodeFoundMove(db, q, code, record, answer)
    case CodeChecked(code, record) => CodeCheckedMove(db, q, code, record)
    case CodeRedeemed(code, record) => CodeRedeemedMove(cfg, db, q, code, record, answer)
    case Creating(code, next) => CreatingMove(db, q, code, next)
    case Done(_) => Goto(q, q.pc)
  }

  // ----- writes

  function RevokedOne(tokens: TokenTable, id: Id, now: Time): TokenTable {
    if id in tokens then tokens[id := tokens[id].(revokedAt := Some(now))] else tokens
  }

  function RevokedAll(tokens: TokenTable, userId: Id, now: Time): TokenTable {
    Rewritten(tokens, OwnedBy(userId), RefreshTokens.Revoke(now))
  }

  /** Carries out the write of request `r`. */
  function Apply(db: Db, r: ReqId, effect: Effect): Db {
    match effect
    case Nothing => db
    case Draw => db.(supply := db.supply + 1)
    case Create(next, from) =>
      db.(tokens := db.tokens[next.id := Row(next)],
          log := db.log.(chain := db.log.chain[next.id := Chain(next.id, from)]))
    case Rotate(id, next) =>
      if id !in db.tokens || id !in db.log.chain then db
      else db.(tokens := Rotated(db.tokens, id, next, db.now),
               log := db.log.(
                 chain := db.log.chain[next.id := db.log.chain[id]],
                 rotatedBy := db.log.rotatedBy[id := r]))
    case Revoke(id) => db.(tokens := RevokedOne(db.tokens, id, db.now))
    case RevokeAll(userId) => db.(tokens := RevokedAll(db.tokens, userId, db.now))
    case Consume(code) =>
      if code !in db.codes then db
      else db.(codes := Codes.Consumed(db.codes, code, db.now),
              log := db.log.(redeemedBy := db.log.redeemedBy[code := r]))
  }

  // ----- runs

  datatype Event =
    | Tick(elapsed: nat)
    | Arrive(r: ReqId, input: Input)
    | Turn(r: ReqId, answer: Answer)
    | IssueCode(userId: Id, serviceId: Id, redirectUri: nat, challenge: Codes.Challenge)
    | RevokeUser(userId: Id)       // a password reset or change
    | PurgeTokens(userId: Id)      // account erasure
    | PurgeCodes(userId: Id)
    | PruneTokens(cutoff: int)
    | PruneCodes(cutoff: int)

  function NewCode(cfg: Config, db: Db, userId: Id, serviceId: Id, redirectUri: nat,
                   challenge: Codes.Challenge): Codes.Code {
    Codes.Code(userId, serviceId, HashToken(db.supply), redirectUri, challenge, db.now + cfg.codeTtl, None)
  }

  /** A prune job computed its cutoff at some earlier or present moment, the retention window back. */
  predicate PruneCutoff(cfg: Config, db: Db, cutoff: int) {
    cutoff + cfg.retention <= db.now
  }

  /** A write no modelled request is the author of. */
  function Outside(cfg: Config, db: Db, e: Event): Db {
    match e
    case Tick(elapsed) => db.(now := db.now + elapsed)
    case IssueCode(userId, serviceId, redirectUri, challenge) =>
      var code := NewCode(cfg, db, userId, serviceId, redirectUri, challenge);
      db.(codes := db.codes[db.supply := code],
          supply := db.supply + 1,
          log := db.log.(issued := db.log.issued[db.supply := code]))
    case RevokeUser(userId) => db.(tokens := RevokedAll(db.tokens, userId, db.now))
    case PurgeTokens(userId) => db.(tokens := Without(db.tokens, OwnedBy(userId)))
    case PurgeCodes(userId) => db.(codes := Without(db.codes, Codes.OwnedBy(userId)))
    case PruneTokens(cutoff) =>
      if PruneCutoff(cfg, db, cutoff) then db.(tokens := Without(db.tokens, ExpiredBefore(cutoff))) else db
    case PruneCodes(cutoff) =>
      if PruneCutoff(cfg, db, cutoff) then db.(codes := Without(db.codes, Codes.ExpiredBefore(cutoff))) else db
    case _ => db
  }

  ghost function Step(cfg: Config, w: World, e: Event): World {
    match e
    case Arrive(r, input) =>
      if r in w.requests then w
      else w.(requests := w.requests[r := Request(input, None, None, Start)])
    case Turn(r, answer) =>
      if r !in w.requests then w
      else
        var move := Advance(cfg, w.db, w.requests[r], answer);
        World(Apply(w.db, r, move.effect), w.requests[r := move.request])
    case _ => w.(db := Outside(cfg, w.db, e))
  }

  ghost function Run(cfg: Config, w: World, events: seq<Event>): World
    decreases events
  {
    if events == [] then w else Run(cfg, Step(cfg, w, events[0]), events[1..])
  }

  lemma RunAppend(cfg: Config, w: World, first: seq<Event>, second: seq<Event>)
    ensures Run(cfg, w, first + second) == Run(cfg, Run(cfg, w, first), second)
    decreases first
  {
    if first == [] {
      assert first + second == second;
    } else {
      assert (first + second)[0] == first[0] && (first + second)[1..] == first[1..] + second;
      RunAppend(cfg, Step(cfg, w, first[0]), first[1..], second);
    }
  }
}
