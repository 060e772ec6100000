/**
  How refreshes, exchanges, sign-ins and revocations end, in every interleaving: told from
  the tables and the answers a request finds at its own turns, and what each turn writes.
 */
module GrantEndings {
  import opened Base
  import opened RefreshTokens
  import Codes = AuthCodes
  import opened Grants
  import opened GrantInvariant
  import opened GrantOutcomes

  /** What a request finds when a turn of its comes: the tables with the clock, and the other tables' answer. */
  datatype Seen = Seen(db: Db, answer: Answer)

  /** What the event lets the request find. */
  function Glimpse(w: World, e: Event, r: ReqId): seq<Seen> {
    if e.Turn? && e.r == r && r in w.requests then [Seen(w.db, e.answer)] else []
  }

  /** What the turns of request `r` find, in the order they come, once it has arrived. */
  ghost function Finds(cfg: Config, w: World, events: seq<Event>, r: ReqId): seq<Seen>
    decreases events
  {
    if events == [] then []
    else Glimpse(w, events[0], r) + Finds(cfg, Step(cfg, w, events[0]), events[1..], r)
  }

  // ----- how each request ends

  predicate ActiveIn(db: Db, secret: Secret) {
    secret in db.tokens && db.tokens[secret].revokedAt == None
  }

  predicate UnusedIn(db: Db, code: Secret) {
    code in db.codes && db.codes[code].consumedAt == None
  }

  function RowIn(db: Db, secret: Secret): Option<Token> {
    if secret in db.tokens then Some(db.tokens[secret]) else None
  }

  /** A revoked row, looked at in turn n: forgiven at once, or theft a turn later. */
  function ReplayEnds(cfg: Config, row: Option<Token>, seen: seq<Seen>, n: nat): Option<Outcome>
    requires 0 < n <= |seen|
  {
    if row.Some? && Forgiven(cfg, row.value, seen[n - 1].db.now) then Some(Refused(InvalidRefreshToken))
    else if |seen| == n then None
    else Some(Refused(RefreshTokenReuse))
  }

  /** What the client is refused for, once the token is found. */
  function Rebuffed(row: Token, client: Client, answer: Answer): Option<Error> {
    var service := Owner(answer, row.serviceId);
    if service.None? then Some(InvalidRefreshToken)
    else if !Admitted(service.value, client) then Some(Rebuff(service.value, client, InvalidGrant))
    else None
  }

  function RefreshEnds(cfg: Config, secret: Secret, client: Client, seen: seq<Seen>): Option<Outcome> {
    if |seen| < 1 then None
    else if secret !in seen[0].db.tokens then Some(Refused(InvalidRefreshToken))
    else if |seen| < 2 then None
    else
      var row := seen[0].db.tokens[secret];
      if Rebuffed(row, client, seen[1].answer).Some? then Some(Refused(Rebuffed(row, client, seen[1].answer).value))
      else if |seen| < 3 then None
      else if row.revokedAt.Some? then ReplayEnds(cfg, Some(row), seen, 3)
      else if row.expiresAt <= seen[2].db.now then Some(Refused(InvalidRefreshToken))
      else if |seen| < 4 then None
      else if !seen[3].answer.subjectOk then Some(Refused(SubjectRefused))
      else if |seen| < 5 then None
      else if ActiveIn(seen[4].db, secret) then Some(Pair(seen[3].db.supply))
      else if |seen| < 6 then None
      else ReplayEnds(cfg, RowIn(seen[5].db, secret), seen, 6)
  }

  function RevokeEnds(secret: Secret, client: Client, seen: seq<Seen>): Option<Outcome> {
    if |seen| < 1 then None
    else if secret !in seen[0].db.tokens then Some(Acknowledged)
    else if |seen| < 2 then None
    else
      var row := seen[0].db.tokens[secret];
      var service := Owner(seen[1].answer, row.serviceId);
      if service.Some? && !Admitted(service.value, client)
      then Some(Refused(Rebuff(service.value, client, InvalidClient)))
      else if row.revokedAt.Some? then Some(Acknowledged)
      else if |seen| < 3 then None
      else Some(Acknowledged)
  }

  function ExchangeEnds(input: Input, seen: seq<Seen>): Option<Outcome>
    requires input.ExchangeInput?
  {
    if |seen| < 1 then None
    else if input.code !in seen[0].db.codes then Some(Refused(InvalidGrant))
    else if |seen| < 2 then None
    else
      var record, answer := seen[0].db.codes[input.code], seen[1].answer;
      if !ForThisClient(record, input, answer) then Some(Refused(InvalidGrant))
      else if record.consumedAt.Some? then if |seen| < 3 then None else Some(Refused(InvalidGrant))
      else if Objection(record, input, answer, seen[1].db.now).Some?
      then Some(Refused(Objection(record, input, answer, seen[1].db.now).value))
      else if |seen| < 4 then None
      else if !UnusedIn(seen[2].db, input.code) then Some(Refused(InvalidGrant))
      else if !seen[3].answer.subjectOk then Some(Refused(SubjectRefused))
      else if |seen| < 5 then None
      else Some(Pair(seen[3].db.supply))
  }

  function IssueEnds(seen: seq<Seen>): Option<Outcome> {
    if |seen| < 1 then None
    else if !seen[0].answer.subjectOk then Some(Refused(SubjectRefused))
    else if |seen| < 2 then None
    else Some(Pair(seen[0].db.supply))
  }

  function Ends(cfg: Config, input: Input, seen: seq<Seen>): Option<Outcome> {
    match input
    case RefreshInput(secret, client) => RefreshEnds(cfg, secret, client, seen)
    case RevokeInput(secret, client) => RevokeEnds(secret, client, seen)
    case ExchangeInput(_, _, _, _, _) => ExchangeEnds(input, seen)
    case IssueInput(_, _) => IssueEnds(seen)
  }

  function OutcomeOf(q: Request): Option<Outcome> {
    if q.pc.Done? then Some(q.pc.outcome) else None
  }

  // ----- where a request stands

  /** The token, or code, it looked up in its first turn. */
  predicate Holding(secret: Secret, id: Id, row: Token, seen: seq<Seen>) {
    |seen| > 0 && id == secret && id in seen[0].db.tokens && row == seen[0].db.tokens[id]
  }

  predicate HoldingCode(secret: Secret, code: Id, record: Codes.Code, seen: seq<Seen>) {
    |seen| > 0 && code == secret && code in seen[0].db.codes && record == seen[0].db.codes[code]
  }

  /** The token to come, drawn in this turn. */
  function Next(cfg: Config, seen: Seen, userId: Id, serviceId: Id): NewToken {
    NewToken(seen.db.supply, userId, serviceId, Sha256(seen.db.supply), seen.db.now + cfg.refreshTtl)
  }

  predicate StandsRefreshing(cfg: Config, q: Request, seen: seq<Seen>)
    requires q.input.RefreshInput?
  {
    match q.pc
    case Start => |seen| == 0
    case Found(id, row) => |seen| == 1 && Holding(q.input.secret, id, row, seen)
    case Authenticated(id, row) => |seen| == 2 && Holding(q.input.secret, id, row, seen)
    case Live(id, row) => |seen| == 3 && Holding(q.input.secret, id, row, seen) && row.revokedAt.None?
    case Minted(id, row, next) =>
      && |seen| == 4 && Holding(q.input.secret, id, row, seen) && row.revokedAt.None?
      && next == Next(cfg, seen[3], row.userId, row.serviceId)
    case LostRace(id, row) => |seen| == 5 && Holding(q.input.secret, id, row, seen) && row.revokedAt.None?
    case MustRevokeAll(userId, error) =>
      && |seen| > 0 && q.input.secret in seen[0].db.tokens
      && var row := seen[0].db.tokens[q.input.secret];
      && userId == row.userId && error == RefreshTokenReuse
      && |seen| == (if row.revokedAt.Some? then 3 else 6)
    case Done(_) => true
    case _ => false
  }

  predicate StandsRevoking(q: Request, seen: seq<Seen>)
    requires q.input.RevokeInput?
  {
    match q.pc
    case Start => |seen| == 0
    case Found(id, row) => |seen| == 1 && Holding(q.input.secret, id, row, seen)
    case MustRevoke(id) => |seen| == 2 && id == q.input.secret
    case Done(_) => true
    case _ => false
  }

  predicate StandsExchanging(cfg: Config, q: Request, seen: seq<Seen>)
    requires q.input.ExchangeInput?
  {
    match q.pc
    case Start => |seen| == 0
    case CodeFound(code, record) => |seen| == 1 && HoldingCode(q.input.code, code, record, seen)
    case CodeChecked(code, record) =>
      |seen| == 2 && HoldingCode(q.input.code, code, record, seen) && record.consumedAt.None?
    case CodeRedeemed(code, record) =>
      && |seen| == 3 && HoldingCode(q.input.code, code, record, seen) && record.consumedAt.None?
      && UnusedIn(seen[2].db, code)
    case MustRevokeAll(userId, error) =>
      && |seen| > 0 && q.input.code in seen[0].db.codes
      && var record := seen[0].db.codes[q.input.code];
      && userId == record.userId && error == InvalidGrant
      && if record.consumedAt.Some? then |seen| == 2 else |seen| == 3 && !UnusedIn(seen[2].db, q.input.code)
    case Creating(from, next) =>
      && |seen| == 4 && from == Some(q.input.code) && q.input.code in seen[0].db.codes
      && var record := seen[0].db.codes[q.input.code];
      && record.consumedAt.None? && next == Next(cfg, seen[3], record.userId, record.serviceId)
    case Done(_) => true
    case _ => false
  }

  predicate StandsIssuing(cfg: Config, q: Request, seen: seq<Seen>)
    requires q.input.IssueInput?
  {
    match q.pc
    case Start => |seen| == 0
    case Creating(from, next) =>
      |seen| == 1 && from == None && next == Next(cfg, seen[0], q.input.userId, q.input.serviceId)
    case Done(_) => true
    case _ => false
  }

  predicate Stands(cfg: Config, q: Request, seen: seq<Seen>) {
    && Ends(cfg, q.input, seen) == OutcomeOf(q)
    && match q.input
       case RefreshInput(_, _) => StandsRefreshing(cfg, q, seen)
       case RevokeInput(_, _) => StandsRevoking(q, seen)
       case ExchangeInput(_, _, _, _, _) => StandsExchanging(cfg, q, seen)
       case IssueInput(_, _) => StandsIssuing(cfg, q, seen)
  }

  /** What the invariant says of one request's turn: lookups go by the secret, and a drawn token can be inserted. */
  ghost predicate Clean(db: Db, q: Request) {
    && (forall i :: i in db.tokens ==> db.tokens[i].tokenHash == Sha256(i))
    && (forall c :: c in db.codes ==> db.codes[c].codeHash == Sha256(c))
    && (q.pc.Minted? || q.pc.Creating? ==> Insertable(db.tokens, q.pc.next))
    && (q.pc.Minted? ==> q.pc.id in db.tokens ==> q.pc.id in db.log.chain)
    && (q.pc.LostRace? ==> q.pc.row.tokenHash == Sha256(q.pc.id))
  }

  lemma InvIsClean(cfg: Config, w: World, r: ReqId)
    requires Inv(cfg, w) && r in w.requests
    ensures Clean(w.db, w.requests[r])
  {
    assert RequestOk(cfg, w.db, r, w.requests[r]);
  }

  lemma EndsStay(cfg: Config, input: Input, seen: seq<Seen>, more: Seen)
    requires Ends(cfg, input, seen).Some?
    ensures Ends(cfg, input, seen + [more]) == Ends(cfg, input, seen)
  {
  }

  lemma StartMoves(cfg: Config, db: Db, q: Request, answer: Answer)
    requires q.pc.Start? && Clean(db, q)
    ensures Stands(cfg, Advance(cfg, db, q, answer).request, [Seen(db, answer)])
  {
  }

  lemma RefreshMoves(cfg: Config, db: Db, q: Request, answer: Answer, seen: seq<Seen>)
    requires q.input.RefreshInput? && !q.pc.Start? && !q.pc.Done? && Clean(db, q) && Stands(cfg, q, seen)
    ensures Stands(cfg, Advance(cfg, db, q, answer).request, seen + [Seen(db, answer)])
  {
    if q.pc.Found? && Owner(answer, q.pc.row.serviceId).Some? {
      ClientErrorIs(answer.service.value, q.input.client, InvalidGrant);
    }
  }

  lemma RevokeMoves(cfg: Config, db: Db, q: Request, answer: Answer, seen: seq<Seen>)
    requires q.input.RevokeInput? && !q.pc.Start? && !q.pc.Done? && Clean(db, q) && Stands(cfg, q, seen)
    ensures Stands(cfg, Advance(cfg, db, q, answer).request, seen + [Seen(db, answer)])
  {
    if q.pc.Found? && Owner(answer, q.pc.row.serviceId).Some? {
      ClientErrorIs(answer.service.value, q.input.client, InvalidClient);
    }
  }

  lemma ExchangeMoves(cfg: Config, db: Db, q: Request, answer: Answer, seen: seq<Seen>)
    requires q.input.ExchangeInput? && !q.pc.Start? && !q.pc.Done? && Clean(db, q) && Stands(cfg, q, seen)
    ensures Stands(cfg, Advance(cfg, db, q, answer).request, seen + [Seen(db, answer)])
  {
  }

  lemma IssueMoves(cfg: Config, db: Db, q: Request, answer: Answer, seen: seq<Seen>)
    requires q.input.IssueInput? && !q.pc.Start? && !q.pc.Done? && Clean(db, q) && Stands(cfg, q, seen)
    ensures Stands(cfg, Advance(cfg, db, q, answer).request, seen + [Seen(db, answer)])
  {
  }

  lemma TurnStands(cfg: Config, w: World, r: ReqId, answer: Answer, seen: seq<Seen>)
    requires Inv(cfg, w) && r in w.requests && Stands(cfg, w.requests[r], seen)
    ensures var v := Step(cfg, w, Turn(r, answer));
            r in v.requests && Stands(cfg, v.requests[r], seen + [Seen(w.db, answer)])
  {
    InvIsClean(cfg, w, r);
    Moves(cfg, w.db, w.requests[r], answer, seen);
  }

  lemma Moves(cfg: Config, db: Db, q: Request, answer: Answer, seen: seq<Seen>)
    requires Clean(db, q) && Stands(cfg, q, seen)
    ensures Stands(cfg, Advance(cfg, db, q, answer).request, seen + [Seen(db, answer)])
  {
    if q.pc.Done? {
      EndsStay(cfg, q.input, seen, Seen(db, answer));
    } else if q.pc.Start? {
      assert seen == [];
      assert seen + [Seen(db, answer)] == [Seen(db, answer)];
      StartMoves(cfg, db, q, answer);
    } else {
      match q.input
      case RefreshInput(_, _) => RefreshMoves(cfg, db, q, answer, seen);
      case RevokeInput(_, _) => RevokeMoves(cfg, db, q, answer, seen);
      case ExchangeInput(_, _, _, _, _) => ExchangeMoves(cfg, db, q, answer, seen);
      case IssueInput(_, _) => IssueMoves(cfg, db, q, answer, seen);
    }
  }

  lemma OtherEvents(cfg: Config, w: World, e: Event, r: ReqId)
    requires !(e.Turn? && e.r == r && r in w.requests)
    ensures var v := Step(cfg, w, e);
            if r in w.requests then r in v.requests && v.requests[r] == w.requests[r]
            else r in v.requests ==> v.requests[r].pc.Start?
  {
  }

  predicate StandsIn(cfg: Config, requests: map<ReqId, Request>, r: ReqId, seen: seq<Seen>) {
    if r in requests then Stands(cfg, requests[r], seen) else seen == []
  }

  lemma StepStands(cfg: Config, w: World, e: Event, r: ReqId, seen: seq<Seen>)
    requires Inv(cfg, w) && StandsIn(cfg, w.requests, r, seen)
    ensures StandsIn(cfg, Step(cfg, w, e).requests, r, seen + Glimpse(w, e, r))
  {
    if e.Turn? && e.r == r && r in w.requests {
      TurnStands(cfg, w, r, e.answer, seen);
    } else {
      OtherEvents(cfg, w, e, r);
      assert seen + [] == seen;
    }
  }

  lemma {:induction false} RunStands(cfg: Config, w: World, events: seq<Event>, r: ReqId, seen: seq<Seen>)
    requires Inv(cfg, w) && StandsIn(cfg, w.requests, r, seen)
    ensures StandsIn(cfg, Run(cfg, w, events).requests, r, seen + Finds(cfg, w, events, r))
    decreases events
  {
    if events == [] {
      assert seen + [] == seen;
    } else {
      var v := Step(cfg, w, events[0]);
      StepKeeps(cfg, w, events[0]);
      StepStands(cfg, w, events[0], r, seen);
      RunStands(cfg, v, events[1..], r, seen + Glimpse(w, events[0], r));
      Joined(seen, Glimpse(w, events[0], r), Finds(cfg, v, events[1..], r));
    }
  }

  lemma Joined(a: seq<Seen>, b: seq<Seen>, c: seq<Seen>)
    ensures a + b + c == a + (b + c)
  {
  }

  /** In every run each request has ended exactly as what it found at its turns says, or has not ended yet. */
  lemma RequestsEndAsFound(cfg: Config, now: Time, events: seq<Event>, r: ReqId)
    requires r in Run(cfg, Init(now), events).requests
    ensures var q := Run(cfg, Init(now), events).requests[r];
            OutcomeOf(q) == Ends(cfg, q.input, Finds(cfg, Init(now), events, r))
  {
    InitInv(cfg, now);
    RunStands(cfg, Init(now), events, r, []);
    assert [] + Finds(cfg, Init(now), events, r) == Finds(cfg, Init(now), events, r);
  }

  // ----- what each turn writes

  /** The same tokens, codes, clock and supply. */
  predicate Same(before: Db, after: Db) {
    after == before.(log := after.log)
  }

  predicate Draws(before: Db, after: Db) {
    after == before.(supply := before.supply + 1, log := after.log)
  }

  predicate RevokesFamily(before: Db, after: Db, userId: Id) {
    && after == before.(tokens := after.tokens, log := after.log)
    && FamilyStamped(before.tokens, after.tokens, userId, before.now)
  }

  /** An active token drawn in an earlier turn, with a lifetime from then on. */
  function Fresh(cfg: Config, drawn: Seen, userId: Id, serviceId: Id): Token {
    Token(userId, serviceId, Sha256(drawn.db.supply), drawn.db.now + cfg.refreshTtl, None, None)
  }

  /** The last turn of a refresh that has not ended before: the fourth draws or revokes, the fifth rotates. */
  predicate RefreshWrites(cfg: Config, secret: Secret, seen: seq<Seen>, after: Db)
    requires |seen| > 0
  {
    var k, now := |seen|, seen[|seen| - 1];
    if secret !in seen[0].db.tokens then Same(now.db, after)
    else
      var row := seen[0].db.tokens[secret];
      if k == 4 then
        if row.revokedAt.Some? then RevokesFamily(now.db, after, row.userId)
        else if now.answer.subjectOk then Draws(now.db, after)
        else Same(now.db, after)
      else if k == 5 && ActiveIn(now.db, secret) then
        var n := seen[3].db.supply;
        && after == now.db.(tokens := after.tokens, log := after.log)
        && after.tokens ==
             now.db.tokens[secret := now.db.tokens[secret].(revokedAt := Some(now.db.now), replacedBy := Some(n))]
                          [n := Fresh(cfg, seen[3], row.userId, row.serviceId)]
      else if k == 7 then RevokesFamily(now.db, after, row.userId)
      else Same(now.db, after)
  }

  predicate RevokeWrites(secret: Secret, seen: seq<Seen>, after: Db)
    requires |seen| > 0
  {
    var now := seen[|seen| - 1];
    if |seen| == 3 && secret in now.db.tokens then
      && after == now.db.(tokens := after.tokens, log := after.log)
      && after.tokens == now.db.tokens[secret := now.db.tokens[secret].(revokedAt := Some(now.db.now))]
    else Same(now.db, after)
  }

  predicate ExchangeWrites(cfg: Config, code: Secret, seen: seq<Seen>, after: Db)
    requires |seen| > 0
  {
    var k, now := |seen|, seen[|seen| - 1];
    if code !in seen[0].db.codes then Same(now.db, after)
    else
      var record := seen[0].db.codes[code];
      if k == 3 then
        if record.consumedAt.Some? then RevokesFamily(now.db, after, record.userId)
        else if UnusedIn(now.db, code) then
          && after == now.db.(codes := after.codes, log := after.log)
          && after.codes == now.db.codes[code := now.db.codes[code].(consumedAt := Some(now.db.now))]
        else Same(now.db, after)
      else if k == 4 then
        if !UnusedIn(seen[2].db, code) then RevokesFamily(now.db, after, record.userId)
        else if now.answer.subjectOk then Draws(now.db, after)
        else Same(now.db, after)
      else if k == 5 then
        Inserts(now.db, after, seen[3].db.supply, Fresh(cfg, seen[3], record.userId, record.serviceId))
      else Same(now.db, after)
  }

  predicate Inserts(before: Db, after: Db, n: Id, token: Token) {
    after == before.(tokens := before.tokens[n := token], log := after.log)
  }

  predicate IssueWrites(cfg: Config, userId: Id, serviceId: Id, seen: seq<Seen>, after: Db)
    requires |seen| > 0
  {
    var now := seen[|seen| - 1];
    if |seen| == 1 && now.answer.subjectOk then Draws(now.db, after)
    else if |seen| == 2 then Inserts(now.db, after, seen[0].db.supply, Fresh(cfg, seen[0], userId, serviceId))
    else Same(now.db, after)
  }

  /** What the turn that found the last of `seen` writes: nothing once the request has ended. */
  predicate WritesAsMeant(cfg: Config, input: Input, seen: seq<Seen>, after: Db)
    requires |seen| > 0
  {
    var last := |seen| - 1;
    if Ends(cfg, input, seen[..last]).Some? then Same(seen[last].db, after)
    else
      match input
      case RefreshInput(secret, _) => RefreshWrites(cfg, secret, seen, after)
      case RevokeInput(secret, _) => RevokeWrites(secret, seen, after)
      case ExchangeInput(code, _, _, _, _) => ExchangeWrites(cfg, code, seen, after)
      case IssueInput(userId, serviceId) => IssueWrites(cfg, userId, serviceId, seen, after)
  }

  lemma AdvanceWrites(cfg: Config, db: Db, r: ReqId, q: Request, answer: Answer, seen: seq<Seen>)
    requires Clean(db, q) && Stands(cfg, q, seen)
    ensures WritesAsMeant(cfg, q.input, seen + [Seen(db, answer)],
                                       Grants.Apply(db, r, Advance(cfg, db, q, answer).effect))
  {
    var found := seen + [Seen(db, answer)];
    assert found[..|found| - 1] == seen;
    if !q.pc.Done? {
      match q.input
      case RefreshInput(_, _) => RefreshAdvances(cfg, db, r, q, answer, seen);
      case RevokeInput(_, _) => RevokeAdvances(cfg, db, r, q, answer, seen);
      case ExchangeInput(_, _, _, _, _) => ExchangeAdvances(cfg, db, r, q, answer, seen);
      case IssueInput(_, _) => IssueAdvances(cfg, db, r, q, answer, seen);
    }
  }

  lemma RefreshAdvances(cfg: Config, db: Db, r: ReqId, q: Request, answer: Answer, seen: seq<Seen>)
    requires q.input.RefreshInput? && !q.pc.Done? && Clean(db, q) && Stands(cfg, q, seen)
    ensures RefreshWrites(cfg, q.input.secret, seen + [Seen(db, answer)],
                          Grants.Apply(db, r, Advance(cfg, db, q, answer).effect))
  {
  }

  lemma RevokeAdvances(cfg: Config, db: Db, r: ReqId, q: Request, answer: Answer, seen: seq<Seen>)
    requires q.input.RevokeInput? && !q.pc.Done? && Clean(db, q) && Stands(cfg, q, seen)
    ensures RevokeWrites(q.input.secret, seen + [Seen(db, answer)],
                         Grants.Apply(db, r, Advance(cfg, db, q, answer).effect))
  {
  }

  lemma ExchangeAdvances(cfg: Config, db: Db, r: ReqId, q: Request, answer: Answer, seen: seq<Seen>)
    requires q.input.ExchangeInput? && !q.pc.Done? && Clean(db, q) && Stands(cfg, q, seen)
    ensures ExchangeWrites(cfg, q.input.code, seen + [Seen(db, answer)],
                           Grants.Apply(db, r, Advance(cfg, db, q, answer).effect))
  {
  }

  lemma IssueAdvances(cfg: Config, db: Db, r: ReqId, q: Request, answer: Answer, seen: seq<Seen>)
    requires q.input.IssueInput? && !q.pc.Done? && Clean(db, q) && Stands(cfg, q, seen)
    ensures IssueWrites(cfg, q.input.userId, q.input.serviceId, seen + [Seen(db, answer)],
                        Grants.Apply(db, r, Advance(cfg, db, q, answer).effect))
  {
  }

  lemma TurnWrites(cfg: Config, w: World, r: ReqId, answer: Answer, seen: seq<Seen>)
    requires Inv(cfg, w) && r in w.requests && StandsIn(cfg, w.requests, r, seen)
    ensures WritesAsMeant(cfg, w.requests[r].input, seen + [Seen(w.db, answer)], Step(cfg, w, Turn(r, answer)).db)
  {
    InvIsClean(cfg, w, r);
    AdvanceWrites(cfg, w.db, r, w.requests[r], answer, seen);
  }

  /** In every run each turn of a request writes exactly that, and the other events what OutsideWritesAsMeant says. */
  lemma TurnsWriteAsMeant(cfg: Config, now: Time, events: seq<Event>, r: ReqId, answer: Answer)
    requires r in Run(cfg, Init(now), events).requests
    ensures var w := Run(cfg, Init(now), events);
            WritesAsMeant(cfg, w.requests[r].input, Finds(cfg, Init(now), events, r) + [Seen(w.db, answer)],
                          Step(cfg, w, Turn(r, answer)).db)
  {
    InitInv(cfg, now);
    var seen := Finds(cfg, Init(now), events, r);
    RunStands(cfg, Init(now), events, r, []);
    assert [] + seen == seen;
    RunKeeps(cfg, Init(now), events);
    TurnWrites(cfg, Run(cfg, Init(now), events), r, answer, seen);
  }
}
