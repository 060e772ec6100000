/** What every step of every interleaving keeps true of the token and code tables. */
module GrantInvariant {
  import opened Base
  import opened Tables
  import opened RefreshTokens
  import Codes = AuthCodes
  import opened Grants

  // ----- the invariant, part by part

  /** Every row is in the history, under the id and with the secret it was drawn with. */
  ghost predicate Books(supply: nat, tokens: TokenTable, chain: map<Id, Chain>, rotatedBy: map<Id, ReqId>) {
    && (forall i :: i in tokens ==> i in chain && tokens[i].tokenHash == HashToken(i))
    && (forall i :: i in chain ==> i < supply && chain[i].first < supply)
    && (forall i :: i in rotatedBy ==> i in chain && (i in tokens ==> tokens[i].revokedAt.Some?))
  }

  /** A code row is the code as issued, but for its consumption; a redeemed one is consumed. */
  ghost predicate CodeBooks(supply: nat, codes: Codes.CodeTable, issued: map<Id, Codes.Code>,
                            redeemedBy: map<Id, ReqId>) {
    && (forall c :: c in issued ==> c < supply && issued[c].codeHash == HashToken(c) && issued[c].consumedAt.None?)
    && (forall c :: c in codes ==> c in issued && codes[c].(consumedAt := None) == issued[c])
    && (forall c :: c in redeemedBy ==> c in issued && (c in codes ==> codes[c].consumedAt.Some?))
  }

  /** The replacedBy links: revoked sources, forward, same owner and chain, never dangling, never shared. */
  ghost predicate Chained(tokens: TokenTable, chain: map<Id, Chain>, rotatedBy: map<Id, ReqId>) {
    && (forall i {:trigger Linked(tokens, chain, rotatedBy, i, tokens[i].replacedBy.value)} ::
          i in tokens && tokens[i].replacedBy.Some? ==> Linked(tokens, chain, rotatedBy, i, tokens[i].replacedBy.value))
    && (forall i, j {:trigger tokens[i].replacedBy, tokens[j].replacedBy} ::
          i in tokens && j in tokens && i != j && tokens[i].replacedBy.Some? ==>
            tokens[i].replacedBy != tokens[j].replacedBy)
  }

  ghost predicate Linked(tokens: TokenTable, chain: map<Id, Chain>, rotatedBy: map<Id, ReqId>, i: Id, n: Id)
    requires i in tokens
  {
    && i < n
    && tokens[i].revokedAt.Some?
    && i in rotatedBy
    && i in chain && n in chain && chain[n] == chain[i]
    && n in tokens
    && tokens[n].userId == tokens[i].userId
    && tokens[i].expiresAt <= tokens[n].expiresAt
  }

  /** A chain has at most one active token, even when its older rows are gone. */
  ghost predicate OneActive(tokens: TokenTable, chain: map<Id, Chain>) {
    forall i, j {:trigger chain[i].first, chain[j].first} ::
      && i in tokens && j in tokens && Active(tokens[i]) && Active(tokens[j])
      && i in chain && j in chain && chain[i].first == chain[j].first
      ==> i == j
  }

  ghost predicate Lifetimes(cfg: Config, now: Time, tokens: TokenTable) {
    && (forall i :: i in tokens ==> tokens[i].expiresAt <= now + cfg.refreshTtl)
    && (forall i :: i in tokens && tokens[i].revokedAt.Some? ==> tokens[i].revokedAt.value <= now)
  }

  /** Chains issued for codes: at most one per code, redeemed first, and owned by the code's user. */
  ghost predicate Origins(tokens: TokenTable, log: Log) {
    && (forall i :: i in log.chain && log.chain[i].code.Some? ==>
          log.chain[i].code.value in log.issued && log.chain[i].code.value in log.redeemedBy)
    && (forall i, j ::
        i in log.chain && j in log.chain && log.chain[i].code.Some? && log.chain[i].code == log.chain[j].code ==>
          log.chain[i] == log.chain[j])
    && (forall i ::
        i in tokens && i in log.chain && log.chain[i].code.Some? && log.chain[i].code.value in log.issued ==>
          tokens[i].userId == log.issued[log.chain[i].code.value].userId)
  }

  /** The row a request remembers is still the row with that id, but for its revocation. */
  ghost predicate Remembers(cfg: Config, db: Db, q: Request, id: Id, row: Token) {
    && q.subject == Some(id)
    && (q.input.RefreshInput? ==> id == q.input.secret)
    && id in db.log.chain
    && row.tokenHash == HashToken(id)
    && row.expiresAt <= db.now + cfg.refreshTtl
    && (id in db.tokens ==>
          && db.tokens[id].userId == row.userId
          && db.tokens[id].serviceId == row.serviceId
          && db.tokens[id].expiresAt == row.expiresAt)
  }

  ghost predicate RemembersCode(db: Db, q: Request, code: Id, record: Codes.Code) {
    && q.input.ExchangeInput?
    && q.subject == Some(code)
    && code in db.log.issued
    && record.(consumedAt := None) == db.log.issued[code]
  }

  /** The exchange met every condition on the code: client, redirect URI, secret and verifier. */
  ghost predicate MeetsCode(db: Db, q: Request, code: Id) {
    && q.input.ExchangeInput?
    && code in db.log.issued
    && q.service.Some?
    && q.service.value.id == db.log.issued[code].serviceId
    && q.service.value.clientId == q.input.clientId
    && ClientSecretOk(q.service.value, q.input.clientSecret)
    && q.input.redirectUri == db.log.issued[code].redirectUri
    && db.log.issued[code].challenge == Codes.S256(q.input.verifier)
    && HashToken(q.input.code) == db.log.issued[code].codeHash
  }

  /** This request redeemed the code and no chain has come of it yet. */
  ghost predicate Holds(db: Db, r: ReqId, code: Id) {
    && code in db.log.redeemedBy && db.log.redeemedBy[code] == r
    && forall i :: i in db.log.chain ==> db.log.chain[i].code != Some(code)
  }

  /** An id that is neither inserted nor the head of a chain. */
  ghost predicate Untouched(id: Id, chain: map<Id, Chain>) {
    id !in chain && forall i :: i in chain ==> chain[i].first != id
  }

  ghost predicate Unused(cfg: Config, db: Db, next: NewToken) {
    && next.id < db.supply
    && Untouched(next.id, db.log.chain)
    && next.tokenHash == HashToken(next.id)
    && next.expiresAt <= db.now + cfg.refreshTtl
  }

  ghost predicate RequestOk(cfg: Config, db: Db, r: ReqId, q: Request) {
    match q.pc
    case Start => q.subject.None?
    case Found(id, row) => Remembers(cfg, db, q, id, row) && (q.input.RefreshInput? || q.input.RevokeInput?)
    case Authenticated(id, row) => Remembers(cfg, db, q, id, row) && q.input.RefreshInput?
    case Live(id, row) => Remembers(cfg, db, q, id, row) && q.input.RefreshInput?
    case Minted(id, row, next) =>
      && Remembers(cfg, db, q, id, row) && q.input.RefreshInput?
      && Unused(cfg, db, next)
      && id < next.id && next.userId == row.userId && row.expiresAt <= next.expiresAt
    case LostRace(id, row) => Remembers(cfg, db, q, id, row) && q.input.RefreshInput?
    case MustRevoke(_) => q.input.RevokeInput?
    case MustRevokeAll(userId, _) =>
      q.input.ExchangeInput? ==>
        q.subject.Some? && q.subject.value in db.log.issued && userId == db.log.issued[q.subject.value].userId
    case CodeFound(code, record) =>
      RemembersCode(db, q, code, record) && HashToken(q.input.code) == record.codeHash
    case CodeChecked(code, record) => RemembersCode(db, q, code, record) && MeetsCode(db, q, code)
    case CodeRedeemed(code, record) =>
      RemembersCode(db, q, code, record) && MeetsCode(db, q, code) && Holds(db, r, code)
    case Creating(code, next) =>
      && Unused(cfg, db, next)
      && (code.None? ==> q.input.IssueInput?)
      && (code.Some? ==>
            && MeetsCode(db, q, code.value) && q.subject == code && Holds(db, r, code.value)
            && next.userId == db.log.issued[code.value].userId)
    case Done(outcome) =>
      outcome.Pair? ==>
        && (q.input.RefreshInput? ==>
              q.subject == Some(q.input.secret) && q.subject.value in db.log.rotatedBy
              && db.log.rotatedBy[q.subject.value] == r)
        && (q.input.ExchangeInput? ==>
              && q.subject.Some? && MeetsCode(db, q, q.subject.value)
              && q.subject.value in db.log.redeemedBy && db.log.redeemedBy[q.subject.value] == r)
        && !q.input.RevokeInput?
  }

  /** The token a request has drawn but not inserted yet. */
  function Drawn(q: Request): Option<Id> {
    match q.pc
    case Minted(_, _, next) => Some(next.id)
    case Creating(_, next) => Some(next.id)
    case _ => None
  }

  ghost predicate Requests(cfg: Config, w: World) {
    && (forall r :: r in w.requests ==> RequestOk(cfg, w.db, r, w.requests[r]))
    && (forall r, s :: r in w.requests && s in w.requests && r != s && Drawn(w.requests[r]).Some? ==>
          Drawn(w.requests[r]) != Drawn(w.requests[s]))
  }

  ghost predicate Sound(cfg: Config, db: Db) {
    && Books(db.supply, db.tokens, db.log.chain, db.log.rotatedBy)
    && CodeBooks(db.supply, db.codes, db.log.issued, db.log.redeemedBy)
    && Chained(db.tokens, db.log.chain, db.log.rotatedBy)
    && OneActive(db.tokens, db.log.chain)
    && Lifetimes(cfg, db.now, db.tokens)
    && Origins(db.tokens, db.log)
  }

  ghost predicate Inv(cfg: Config, w: World) {
    Sound(cfg, w.db) && Requests(cfg, w)
  }

  lemma InitInv(cfg: Config, now: Time)
    ensures Inv(cfg, Init(now))
  {
  }

  // ----- how one state leads to the next, as the other requests see it

  /** Only revocation and replacement ever change in a row. */
  ghost predicate SameRow(a: Token, b: Token) {
    && a.userId == b.userId && a.serviceId == b.serviceId
    && a.expiresAt == b.expiresAt && a.tokenHash == b.tokenHash
  }

  /** Nothing recorded is forgotten, and no deleted row comes back. */
  ghost predicate Evolves(a: Db, b: Db) {
    && a.now <= b.now && a.supply <= b.supply
    && (forall i :: i in a.log.chain ==> i in b.log.chain && b.log.chain[i] == a.log.chain[i])
    && (forall c :: c in a.log.issued ==> c in b.log.issued && b.log.issued[c] == a.log.issued[c])
    && (forall i :: i in a.log.rotatedBy ==> i in b.log.rotatedBy && b.log.rotatedBy[i] == a.log.rotatedBy[i])
    && (forall c :: c in a.log.redeemedBy ==> c in b.log.redeemedBy && b.log.redeemedBy[c] == a.log.redeemedBy[c])
    && (forall i :: i in b.tokens && i in a.log.chain ==> i in a.tokens && SameRow(a.tokens[i], b.tokens[i]))
  }

  /** What `s` redeemed and has not used stays unused. */
  ghost predicate HoldsStays(a: Db, b: Db, s: ReqId) {
    forall c :: Holds(a, s, c) ==> Holds(b, s, c)
  }

  /** A request keeps what it knows while others move, unless they insert its token or use its code. */
  lemma RequestKeeps(cfg: Config, a: Db, b: Db, s: ReqId, q: Request)
    requires Evolves(a, b) && HoldsStays(a, b, s) && RequestOk(cfg, a, s, q)
    requires Drawn(q).Some? ==> Untouched(Drawn(q).value, b.log.chain)
    ensures RequestOk(cfg, b, s, q)
  {
  }

  /** All requests keep their knowledge when request `r` moves to `q`. */
  lemma RequestsKeep(cfg: Config, w: World, b: Db, r: ReqId, q: Request)
    requires Requests(cfg, w) && r in w.requests && Evolves(w.db, b)
    requires forall s :: s in w.requests && s != r ==> HoldsStays(w.db, b, s)
    requires forall s :: s in w.requests && s != r && Drawn(w.requests[s]).Some? ==>
               Untouched(Drawn(w.requests[s]).value, b.log.chain) && Drawn(q) != Drawn(w.requests[s])
    requires RequestOk(cfg, b, r, q)
    ensures Requests(cfg, World(b, w.requests[r := q]))
  {
    forall s | s in w.requests && s != r ensures RequestOk(cfg, b, s, w.requests[s]) {
      RequestKeeps(cfg, w.db, b, s, w.requests[s]);
    }
  }

  // ----- each write keeps the tables

  lemma CreateKeepsChains(tokens: TokenTable, chain: map<Id, Chain>, rotatedBy: map<Id, ReqId>, next: NewToken,
                          first: Chain)
    requires Chained(tokens, chain, rotatedBy) && next.id !in chain
    ensures Chained(tokens[next.id := Row(next)], chain[next.id := first], rotatedBy)
  {
    var after := tokens[next.id := Row(next)];
    forall i | i in after && after[i].replacedBy.Some?
      ensures Linked(after, chain[next.id := first], rotatedBy, i, after[i].replacedBy.value)
    {
      assert Linked(tokens, chain, rotatedBy, i, tokens[i].replacedBy.value);
    }
  }

  lemma CreateKeepsOrigins(cfg: Config, db: Db, r: ReqId, next: NewToken, from: Option<Id>)
    requires Books(db.supply, db.tokens, db.log.chain, db.log.rotatedBy) && Origins(db.tokens, db.log)
    requires Unused(cfg, db, next)
    requires from.Some? ==>
               from.value in db.log.issued && Holds(db, r, from.value)
               && next.userId == db.log.issued[from.value].userId
    ensures Origins(Apply(db, r, Create(next, from)).tokens, Apply(db, r, Create(next, from)).log)
  {
  }

  lemma CreateKeepsBooks(cfg: Config, db: Db, next: NewToken, first: Chain)
    requires Books(db.supply, db.tokens, db.log.chain, db.log.rotatedBy) && Lifetimes(cfg, db.now, db.tokens)
    requires Unused(cfg, db, next) && first.first == next.id
    ensures Books(db.supply, db.tokens[next.id := Row(next)], db.log.chain[next.id := first], db.log.rotatedBy)
    ensures Lifetimes(cfg, db.now, db.tokens[next.id := Row(next)])
  {
  }

  lemma CreateKeepsOneActive(tokens: TokenTable, chain: map<Id, Chain>, next: NewToken, from: Option<Id>)
    requires OneActive(tokens, chain) && Untouched(next.id, chain)
    ensures OneActive(tokens[next.id := Row(next)], chain[next.id := Chain(next.id, from)])
  {
  }

  lemma CreateKeeps(cfg: Config, db: Db, r: ReqId, next: NewToken, from: Option<Id>)
    requires Sound(cfg, db) && Unused(cfg, db, next)
    requires from.Some? ==>
               from.value in db.log.issued && Holds(db, r, from.value)
               && next.userId == db.log.issued[from.value].userId
    ensures Sound(cfg, Apply(db, r, Create(next, from)))
  {
    CreateKeepsBooks(cfg, db, next, Chain(next.id, from));
    CreateKeepsChains(db.tokens, db.log.chain, db.log.rotatedBy, next, Chain(next.id, from));
    CreateKeepsOneActive(db.tokens, db.log.chain, next, from);
    CreateKeepsOrigins(cfg, db, r, next, from);
  }

  lemma RotateKeepsChains(cfg: Config, db: Db, r: ReqId, id: Id, next: NewToken)
    requires Books(db.supply, db.tokens, db.log.chain, db.log.rotatedBy)
    requires Chained(db.tokens, db.log.chain, db.log.rotatedBy)
    requires Unused(cfg, db, next) && Rotatable(db.tokens, id)
    requires id < next.id && next.userId == db.tokens[id].userId && db.tokens[id].expiresAt <= next.expiresAt
    ensures var b := Apply(db, r, Rotate(id, next)); Chained(b.tokens, b.log.chain, b.log.rotatedBy)
  {
    var b := Apply(db, r, Rotate(id, next));
    forall i | i in b.tokens && b.tokens[i].replacedBy.Some?
      ensures Linked(b.tokens, b.log.chain, b.log.rotatedBy, i, b.tokens[i].replacedBy.value)
      ensures i != id ==> b.tokens[i].replacedBy.value in db.log.chain
    {
      if i != id {
        assert Linked(db.tokens, db.log.chain, db.log.rotatedBy, i, db.tokens[i].replacedBy.value);
      }
    }
  }

  lemma RotateKeepsBooks(cfg: Config, db: Db, r: ReqId, id: Id, next: NewToken)
    requires Books(db.supply, db.tokens, db.log.chain, db.log.rotatedBy) && Lifetimes(cfg, db.now, db.tokens)
    requires Unused(cfg, db, next) && Rotatable(db.tokens, id)
    ensures var b := Apply(db, r, Rotate(id, next));
            Books(b.supply, b.tokens, b.log.chain, b.log.rotatedBy) && Lifetimes(cfg, b.now, b.tokens)
  {
    RotateKeepsHistory(db.supply, db.tokens, db.log.chain, db.log.rotatedBy, r, id, next, db.now);
    RotateKeepsLifetimes(cfg, db.now, db.tokens, id, next);
  }

  lemma RotateKeepsHistory(supply: nat, tokens: TokenTable, chain: map<Id, Chain>, rotatedBy: map<Id, ReqId>,
                           r: ReqId, id: Id, next: NewToken, now: Time)
    requires Books(supply, tokens, chain, rotatedBy) && Rotatable(tokens, id)
    requires next.id < supply && Untouched(next.id, chain) && next.tokenHash == HashToken(next.id)
    ensures Books(supply, Rotated(tokens, id, next, now), chain[next.id := chain[id]], rotatedBy[id := r])
  {
  }

  lemma RotateKeepsLifetimes(cfg: Config, now: Time, tokens: TokenTable, id: Id, next: NewToken)
    requires Lifetimes(cfg, now, tokens) && Rotatable(tokens, id) && next.expiresAt <= now + cfg.refreshTtl
    ensures Lifetimes(cfg, now, Rotated(tokens, id, next, now))
  {
  }

  lemma RotateKeepsOrigins(cfg: Config, db: Db, r: ReqId, id: Id, next: NewToken)
    requires Books(db.supply, db.tokens, db.log.chain, db.log.rotatedBy) && Origins(db.tokens, db.log)
    requires Unused(cfg, db, next) && Rotatable(db.tokens, id) && next.userId == db.tokens[id].userId
    ensures var b := Apply(db, r, Rotate(id, next)); Origins(b.tokens, b.log)
  {
  }

  lemma RotateKeepsOneActive(tokens: TokenTable, chain: map<Id, Chain>, id: Id, next: NewToken, now: Time)
    requires OneActive(tokens, chain) && next.id !in chain && id in chain && Rotatable(tokens, id)
    requires forall i :: i in tokens ==> i in chain
    ensures OneActive(Rotated(tokens, id, next, now), chain[next.id := chain[id]])
  {
  }

  lemma RotateKeeps(cfg: Config, db: Db, r: ReqId, id: Id, next: NewToken)
    requires Sound(cfg, db) && Unused(cfg, db, next) && Rotatable(db.tokens, id)
    requires id < next.id && next.userId == db.tokens[id].userId && db.tokens[id].expiresAt <= next.expiresAt
    ensures Sound(cfg, Apply(db, r, Rotate(id, next)))
  {
    RotateKeepsBooks(cfg, db, r, id, next);
    RotateKeepsChains(cfg, db, r, id, next);
    RotateKeepsOneActive(db.tokens, db.log.chain, id, next, db.now);
    RotateKeepsOrigins(cfg, db, r, id, next);
  }

  /** Some rows removed, the others at most stamped with a revocation time. */
  ghost predicate Thinned(before: TokenTable, after: TokenTable, now: Time) {
    && after.Keys <= before.Keys
    && forall i :: i in after ==> after[i] == before[i] || after[i] == before[i].(revokedAt := Some(now))
  }

  lemma ThinningKeepsChains(tokens: TokenTable, after: TokenTable, chain: map<Id, Chain>, rotatedBy: map<Id, ReqId>,
                            now: Time)
    requires Chained(tokens, chain, rotatedBy) && Thinned(tokens, after, now)
    requires forall i {:trigger Linked(tokens, chain, rotatedBy, i, tokens[i].replacedBy.value)} ::
               i in after && tokens[i].replacedBy.Some?
               && Linked(tokens, chain, rotatedBy, i, tokens[i].replacedBy.value)
               ==> tokens[i].replacedBy.value in after
    ensures Chained(after, chain, rotatedBy)
  {
    forall i | i in after && after[i].replacedBy.Some?
      ensures Linked(after, chain, rotatedBy, i, after[i].replacedBy.value)
    {
      assert Linked(tokens, chain, rotatedBy, i, tokens[i].replacedBy.value);
    }
  }

  lemma ThinningKeepsRest(cfg: Config, db: Db, after: TokenTable)
    requires Books(db.supply, db.tokens, db.log.chain, db.log.rotatedBy)
    requires Lifetimes(cfg, db.now, db.tokens) && Origins(db.tokens, db.log)
    requires Thinned(db.tokens, after, db.now)
    ensures Books(db.supply, after, db.log.chain, db.log.rotatedBy)
    ensures Lifetimes(cfg, db.now, after) && Origins(after, db.log)
  {
  }

  lemma ThinningKeepsOneActive(tokens: TokenTable, after: TokenTable, chain: map<Id, Chain>, now: Time)
    requires OneActive(tokens, chain) && Thinned(tokens, after, now)
    ensures OneActive(after, chain)
  {
  }

  /** Revoking any rows, and deleting rows whose kept predecessors do not point at them, is harmless. */
  lemma ThinningKeeps(cfg: Config, db: Db, after: TokenTable)
    requires Sound(cfg, db) && Thinned(db.tokens, after, db.now)
    requires forall i {:trigger Linked(db.tokens, db.log.chain, db.log.rotatedBy, i, db.tokens[i].replacedBy.value)} ::
               && i in after && db.tokens[i].replacedBy.Some?
               && Linked(db.tokens, db.log.chain, db.log.rotatedBy, i, db.tokens[i].replacedBy.value)
               ==> db.tokens[i].replacedBy.value in after
    ensures Sound(cfg, db.(tokens := after))
  {
    ThinningKeepsChains(db.tokens, after, db.log.chain, db.log.rotatedBy, db.now);
    ThinningKeepsRest(cfg, db, after);
    ThinningKeepsOneActive(db.tokens, after, db.log.chain, db.now);
  }

  lemma ConsumeKeeps(cfg: Config, db: Db, r: ReqId, code: Id)
    requires Sound(cfg, db) && Codes.Consumable(db.codes, code)
    ensures Sound(cfg, Apply(db, r, Consume(code)))
    ensures Holds(Apply(db, r, Consume(code)), r, code)
  {
  }

  lemma RevokeAllKeeps(cfg: Config, db: Db, userId: Id)
    requires Sound(cfg, db)
    ensures Sound(cfg, db.(tokens := RevokedAll(db.tokens, userId, db.now)))
  {
    ThinningKeeps(cfg, db, RevokedAll(db.tokens, userId, db.now));
  }

  /** Account erasure removes whole chains, since a chain has one owner. */
  lemma PurgeKeeps(cfg: Config, db: Db, userId: Id)
    requires Sound(cfg, db)
    ensures Sound(cfg, db.(tokens := Without(db.tokens, OwnedBy(userId))))
  {
    ThinningKeeps(cfg, db, Without(db.tokens, OwnedBy(userId)));
  }

  /** With one lifetime for all tokens a prune takes the old end of a chain only. */
  lemma PruneKeeps(cfg: Config, db: Db, cutoff: int)
    requires Sound(cfg, db)
    ensures Sound(cfg, db.(tokens := Without(db.tokens, ExpiredBefore(cutoff))))
  {
    ThinningKeeps(cfg, db, Without(db.tokens, ExpiredBefore(cutoff)));
  }

  lemma IssueKeepsCodes(supply: nat, codes: Codes.CodeTable, issued: map<Id, Codes.Code>, redeemedBy: map<Id, ReqId>,
                        code: Codes.Code)
    requires CodeBooks(supply, codes, issued, redeemedBy)
    requires code.codeHash == HashToken(supply) && code.consumedAt.None?
    ensures CodeBooks(supply + 1, codes[supply := code], issued[supply := code], redeemedBy)
  {
  }

  lemma IssueKeeps(cfg: Config, db: Db, code: Codes.Code)
    requires Sound(cfg, db) && code.codeHash == HashToken(db.supply) && code.consumedAt.None?
    ensures Sound(cfg, db.(codes := db.codes[db.supply := code],
                           supply := db.supply + 1,
                           log := db.log.(issued := db.log.issued[db.supply := code])))
  {
    IssueKeepsCodes(db.supply, db.codes, db.log.issued, db.log.redeemedBy, code);
    IssueKeepsOrigins(db.tokens, db.log, db.supply, code);
    IssueKeepsBooks(db.supply, db.tokens, db.log.chain, db.log.rotatedBy);
  }

  lemma IssueKeepsBooks(supply: nat, tokens: TokenTable, chain: map<Id, Chain>, rotatedBy: map<Id, ReqId>)
    requires Books(supply, tokens, chain, rotatedBy)
    ensures Books(supply + 1, tokens, chain, rotatedBy)
  {
  }

  lemma IssueKeepsOrigins(tokens: TokenTable, log: Log, id: Id, code: Codes.Code)
    requires Origins(tokens, log) && forall c :: c in log.issued ==> c < id
    ensures Origins(tokens, log.(issued := log.issued[id := code]))
  {
  }

  lemma OutsideKeeps(cfg: Config, db: Db, e: Event)
    requires Sound(cfg, db)
    ensures Sound(cfg, Outside(cfg, db, e))
  {
    if e.RevokeUser? || e.PurgeTokens? || e.PruneTokens? {
      OutsideTokensKeep(cfg, db, e);
    } else {
      OutsideRestKeeps(cfg, db, e);
    }
  }

  lemma OutsideTokensKeep(cfg: Config, db: Db, e: Event)
    requires Sound(cfg, db) && (e.RevokeUser? || e.PurgeTokens? || e.PruneTokens?)
    ensures Sound(cfg, Outside(cfg, db, e))
  {
    if e.RevokeUser? {
      RevokeAllKeeps(cfg, db, e.userId);
    } else if e.PurgeTokens? {
      PurgeKeeps(cfg, db, e.userId);
    } else {
      PruneKeeps(cfg, db, e.cutoff);
    }
  }

  lemma OutsideRestKeeps(cfg: Config, db: Db, e: Event)
    requires Sound(cfg, db) && !e.RevokeUser? && !e.PurgeTokens? && !e.PruneTokens?
    ensures Sound(cfg, Outside(cfg, db, e))
  {
    match e
    case IssueCode(userId, serviceId, redirectUri, challenge) =>
      IssueKeeps(cfg, db, NewCode(cfg, db, userId, serviceId, redirectUri, challenge));
    case Tick(elapsed) => TickKeeps(cfg, db, elapsed);
    case PurgeCodes(userId) => FewerCodesKeep(cfg, db, Without(db.codes, Codes.OwnedBy(userId)));
    case PruneCodes(cutoff) => FewerCodesKeep(cfg, db, Without(db.codes, Codes.ExpiredBefore(cutoff)));
    case _ =>
  }

  lemma FewerCodesKeep(cfg: Config, db: Db, codes: Codes.CodeTable)
    requires Sound(cfg, db) && forall c :: c in codes ==> c in db.codes && codes[c] == db.codes[c]
    ensures Sound(cfg, db.(codes := codes))
  {
  }

  lemma TickKeeps(cfg: Config, db: Db, elapsed: nat)
    requires Sound(cfg, db)
    ensures Sound(cfg, db.(now := db.now + elapsed))
  {
  }

  // ----- each step keeps the tables

  /** The other steps write nothing but the supply. */
  lemma QuietSound(cfg: Config, db: Db, r: ReqId, q: Request, answer: Answer)
    requires Sound(cfg, db)
    requires !q.pc.Minted? && !q.pc.Creating? && !q.pc.CodeChecked? && !q.pc.MustRevoke? && !q.pc.MustRevokeAll?
    ensures Sound(cfg, Apply(db, r, Advance(cfg, db, q, answer).effect))
  {
    var effect := Advance(cfg, db, q, answer).effect;
    assert effect.Nothing? || effect.Draw?;
  }

  lemma InsertSound(cfg: Config, db: Db, r: ReqId, q: Request, answer: Answer)
    requires Sound(cfg, db) && RequestOk(cfg, db, r, q) && (q.pc.Minted? || q.pc.Creating?)
    ensures Sound(cfg, Apply(db, r, Advance(cfg, db, q, answer).effect))
  {
    var effect := Advance(cfg, db, q, answer).effect;
    if effect.Rotate? {
      RotateKeeps(cfg, db, r, q.pc.id, q.pc.next);
    } else if effect.Create? {
      CreateKeeps(cfg, db, r, q.pc.next, q.pc.from);
    }
  }

  lemma FlagSound(cfg: Config, db: Db, r: ReqId, q: Request, answer: Answer)
    requires Sound(cfg, db) && (q.pc.CodeChecked? || q.pc.MustRevoke? || q.pc.MustRevokeAll?)
    ensures Sound(cfg, Apply(db, r, Advance(cfg, db, q, answer).effect))
  {
    var effect := Advance(cfg, db, q, answer).effect;
    if effect.Consume? {
      ConsumeKeeps(cfg, db, r, q.pc.code);
    } else {
      ThinningKeeps(cfg, db, Apply(db, r, effect).tokens);
    }
  }

  lemma AdvanceSound(cfg: Config, db: Db, r: ReqId, q: Request, answer: Answer)
    requires Sound(cfg, db) && RequestOk(cfg, db, r, q)
    ensures Sound(cfg, Apply(db, r, Advance(cfg, db, q, answer).effect))
  {
    if q.pc.Minted? || q.pc.Creating? {
      InsertSound(cfg, db, r, q, answer);
    } else if q.pc.CodeChecked? || q.pc.MustRevoke? || q.pc.MustRevokeAll? {
      FlagSound(cfg, db, r, q, answer);
    } else {
      QuietSound(cfg, db, r, q, answer);
    }
  }

  // ----- each step keeps what the requests know

  /** No request but `r` has drawn a token that is in the table, or the one `q` has drawn. */
  ghost predicate OthersFree(w: World, b: Db, r: ReqId, q: Request) {
    forall s :: s in w.requests && s != r && Drawn(w.requests[s]).Some? ==>
      Untouched(Drawn(w.requests[s]).value, b.log.chain) && Drawn(q) != Drawn(w.requests[s])
  }

  /** The next state of request `r` is justified by the tables after its write, and no other request minds. */
  ghost predicate Justified(cfg: Config, w: World, r: ReqId, move: Move) {
    var b := Apply(w.db, r, move.effect);
    && RequestOk(cfg, b, r, move.request)
    && Evolves(w.db, b)
    && (forall s :: s in w.requests && s != r ==> HoldsStays(w.db, b, s))
    && OthersFree(w, b, r, move.request)
  }

  /** Tokens still drawn are neither inserted nor about to be drawn again. */
  lemma DrawnFree(cfg: Config, w: World, r: ReqId, b: Db, q: Request)
    requires Requests(cfg, w) && r in w.requests
    requires forall i :: i in b.log.chain ==> i in w.db.log.chain || Drawn(w.requests[r]) == Some(i)
    requires forall i :: i in b.log.chain ==>
               || (i in w.db.log.chain && b.log.chain[i] == w.db.log.chain[i])
               || (exists j :: j in w.db.log.chain && b.log.chain[i] == w.db.log.chain[j])
               || Drawn(w.requests[r]) == Some(b.log.chain[i].first)
    requires Drawn(q).Some? ==> Drawn(q).value >= w.db.supply
    ensures OthersFree(w, b, r, q)
  {
  }

  /** The known part of the tables that a lookup relies on. */
  ghost predicate Catalogue(cfg: Config, db: Db) {
    && Books(db.supply, db.tokens, db.log.chain, db.log.rotatedBy)
    && CodeBooks(db.supply, db.codes, db.log.issued, db.log.redeemedBy)
    && Lifetimes(cfg, db.now, db.tokens)
  }

  lemma StartOk(cfg: Config, db: Db, r: ReqId, q: Request, answer: Answer)
    requires Catalogue(cfg, db) && RequestOk(cfg, db, r, q) && q.pc.Start?
    ensures var move := StartMove(cfg, db, q, answer);
            RequestOk(cfg, Apply(db, r, move.effect), r, move.request)
            && (move.effect.Nothing? ==> Drawn(move.request).None?)
            && (move.effect.Draw? ==> Drawn(move.request) == Some(db.supply))
            && (move.effect.Nothing? || move.effect.Draw?)
  {
  }

  /** Reads, draws and revocations leave everyone's knowledge as it was. */
  lemma QuietJustified(cfg: Config, w: World, r: ReqId, move: Move)
    requires Requests(cfg, w) && r in w.requests
    requires move.effect.Nothing? || move.effect.Draw? || move.effect.Revoke? || move.effect.RevokeAll?
    requires RequestOk(cfg, Apply(w.db, r, move.effect), r, move.request)
    requires Drawn(move.request).Some? ==> move.effect.Draw? && Drawn(move.request) == Some(w.db.supply)
    ensures Justified(cfg, w, r, move)
  {
    DrawnFree(cfg, w, r, Apply(w.db, r, move.effect), move.request);
  }

  lemma RotateOk(cfg: Config, db: Db, r: ReqId, q: Request)
    requires RequestOk(cfg, db, r, q) && q.pc.Minted?
    requires forall i :: i in db.log.rotatedBy && i in db.tokens ==> db.tokens[i].revokedAt.Some?
    ensures var move := MintedMove(db, q, q.pc.id, q.pc.row, q.pc.next);
            var b := Apply(db, r, move.effect);
            && RequestOk(cfg, b, r, move.request) && Evolves(db, b)
            && forall s :: HoldsStays(db, b, s)
  {
  }

  lemma RotateJustified(cfg: Config, w: World, r: ReqId)
    requires Requests(cfg, w) && r in w.requests && w.requests[r].pc.Minted?
    requires Books(w.db.supply, w.db.tokens, w.db.log.chain, w.db.log.rotatedBy)
    ensures var q := w.requests[r]; Justified(cfg, w, r, MintedMove(w.db, q, q.pc.id, q.pc.row, q.pc.next))
  {
    var q := w.requests[r];
    assert RequestOk(cfg, w.db, r, q);
    RotateOk(cfg, w.db, r, q);
    var move := MintedMove(w.db, q, q.pc.id, q.pc.row, q.pc.next);
    DrawnFree(cfg, w, r, Apply(w.db, r, move.effect), move.request);
  }

  lemma CreateOk(cfg: Config, db: Db, r: ReqId, q: Request)
    requires RequestOk(cfg, db, r, q) && q.pc.Creating?
    ensures var move := CreatingMove(db, q, q.pc.from, q.pc.next);
            RequestOk(cfg, Apply(db, r, move.effect), r, move.request) && Drawn(move.request).None?
  {
  }

  lemma CreateEvolves(cfg: Config, db: Db, r: ReqId, q: Request)
    requires RequestOk(cfg, db, r, q) && q.pc.Creating?
    ensures Evolves(db, Apply(db, r, CreatingMove(db, q, q.pc.from, q.pc.next).effect))
  {
  }

  lemma CreateHolds(cfg: Config, db: Db, r: ReqId, q: Request, s: ReqId)
    requires RequestOk(cfg, db, r, q) && q.pc.Creating? && s != r
    ensures HoldsStays(db, Apply(db, r, CreatingMove(db, q, q.pc.from, q.pc.next).effect), s)
  {
  }

  lemma CreateJustified(cfg: Config, w: World, r: ReqId)
    requires Requests(cfg, w) && r in w.requests && w.requests[r].pc.Creating?
    ensures var q := w.requests[r]; Justified(cfg, w, r, CreatingMove(w.db, q, q.pc.from, q.pc.next))
  {
    var q := w.requests[r];
    assert RequestOk(cfg, w.db, r, q);
    var move := CreatingMove(w.db, q, q.pc.from, q.pc.next);
    CreateOk(cfg, w.db, r, q);
    CreateEvolves(cfg, w.db, r, q);
    forall s | s in w.requests && s != r ensures HoldsStays(w.db, Apply(w.db, r, move.effect), s) {
      CreateHolds(cfg, w.db, r, q, s);
    }
    DrawnFree(cfg, w, r, Apply(w.db, r, move.effect), move.request);
  }

  lemma ConsumeOk(cfg: Config, db: Db, r: ReqId, q: Request)
    requires RequestOk(cfg, db, r, q) && q.pc.CodeChecked?
    requires forall c :: c in db.log.redeemedBy && c in db.codes ==> db.codes[c].consumedAt.Some?
    requires forall i :: i in db.log.chain && db.log.chain[i].code.Some? ==>
               db.log.chain[i].code.value in db.log.redeemedBy
    ensures var move := CodeCheckedMove(db, q, q.pc.code, q.pc.record);
            var b := Apply(db, r, move.effect);
            && RequestOk(cfg, b, r, move.request) && Evolves(db, b)
            && forall s :: HoldsStays(db, b, s)
  {
  }

  lemma ConsumeJustified(cfg: Config, w: World, r: ReqId)
    requires Requests(cfg, w) && r in w.requests && w.requests[r].pc.CodeChecked?
    requires CodeBooks(w.db.supply, w.db.codes, w.db.log.issued, w.db.log.redeemedBy) && Origins(w.db.tokens, w.db.log)
    ensures var q := w.requests[r]; Justified(cfg, w, r, CodeCheckedMove(w.db, q, q.pc.code, q.pc.record))
  {
    var q := w.requests[r];
    assert RequestOk(cfg, w.db, r, q);
    ConsumeOk(cfg, w.db, r, q);
    var move := CodeCheckedMove(w.db, q, q.pc.code, q.pc.record);
    DrawnFree(cfg, w, r, Apply(w.db, r, move.effect), move.request);
  }

  /** Every step that neither inserts nor consumes leads to a state it can justify. */
  lemma QuietOk(cfg: Config, db: Db, r: ReqId, q: Request, answer: Answer)
    requires RequestOk(cfg, db, r, q) && forall i :: i in db.log.chain ==>
               i < db.supply && db.log.chain[i].first < db.supply
    requires !q.pc.Start? && !q.pc.Minted? && !q.pc.Creating? && !q.pc.CodeChecked?
    ensures var move := Advance(cfg, db, q, answer);
            && (move.effect.Nothing? || move.effect.Draw? || move.effect.Revoke? || move.effect.RevokeAll?)
            && RequestOk(cfg, Apply(db, r, move.effect), r, move.request)
            && (Drawn(move.request).Some? ==> move.effect.Draw? && Drawn(move.request) == Some(db.supply))
  {
    if q.pc.Found? || q.pc.Authenticated? || q.pc.Live? || q.pc.LostRace? {
      TokenStepOk(cfg, db, r, q, answer);
    } else {
      OtherStepOk(cfg, db, r, q, answer);
    }
  }

  lemma TokenStepOk(cfg: Config, db: Db, r: ReqId, q: Request, answer: Answer)
    requires RequestOk(cfg, db, r, q) && forall i :: i in db.log.chain ==>
               i < db.supply && db.log.chain[i].first < db.supply
    requires q.pc.Found? || q.pc.Authenticated? || q.pc.Live? || q.pc.LostRace?
    ensures var move := Advance(cfg, db, q, answer);
            && (move.effect.Nothing? || move.effect.Draw?)
            && RequestOk(cfg, Apply(db, r, move.effect), r, move.request)
            && (Drawn(move.request).Some? ==> move.effect.Draw? && Drawn(move.request) == Some(db.supply))
  {
  }

  lemma OtherStepOk(cfg: Config, db: Db, r: ReqId, q: Request, answer: Answer)
    requires RequestOk(cfg, db, r, q) && forall i :: i in db.log.chain ==>
               i < db.supply && db.log.chain[i].first < db.supply
    requires q.pc.MustRevoke? || q.pc.MustRevokeAll? || q.pc.CodeFound? || q.pc.CodeRedeemed? || q.pc.Done?
    ensures var move := Advance(cfg, db, q, answer);
            && (move.effect.Nothing? || move.effect.Draw? || move.effect.Revoke? || move.effect.RevokeAll?)
            && RequestOk(cfg, Apply(db, r, move.effect), r, move.request)
            && (Drawn(move.request).Some? ==> move.effect.Draw? && Drawn(move.request) == Some(db.supply))
  {
  }

  predicate Writes(pc: Pc) {
    pc.Minted? || pc.Creating? || pc.CodeChecked?
  }

  lemma AdvanceOfWrite(cfg: Config, db: Db, q: Request, answer: Answer)
    requires Writes(q.pc)
    ensures Advance(cfg, db, q, answer) ==
            if q.pc.Minted? then MintedMove(db, q, q.pc.id, q.pc.row, q.pc.next)
            else if q.pc.Creating? then CreatingMove(db, q, q.pc.from, q.pc.next)
            else CodeCheckedMove(db, q, q.pc.code, q.pc.record)
  {
  }

  lemma WriteJustified(cfg: Config, w: World, r: ReqId, answer: Answer)
    requires Requests(cfg, w) && r in w.requests && Writes(w.requests[r].pc)
    requires Books(w.db.supply, w.db.tokens, w.db.log.chain, w.db.log.rotatedBy)
    requires CodeBooks(w.db.supply, w.db.codes, w.db.log.issued, w.db.log.redeemedBy) && Origins(w.db.tokens, w.db.log)
    ensures Justified(cfg, w, r, Advance(cfg, w.db, w.requests[r], answer))
  {
    var q := w.requests[r];
    AdvanceOfWrite(cfg, w.db, q, answer);
    if q.pc.Minted? {
      RotateJustified(cfg, w, r);
    } else if q.pc.Creating? {
      CreateJustified(cfg, w, r);
    } else {
      ConsumeJustified(cfg, w, r);
    }
  }

  lemma ReadJustified(cfg: Config, w: World, r: ReqId, answer: Answer)
    requires Inv(cfg, w) && r in w.requests && !Writes(w.requests[r].pc)
    ensures Justified(cfg, w, r, Advance(cfg, w.db, w.requests[r], answer))
  {
    var q := w.requests[r];
    if q.pc.Start? {
      StartOk(cfg, w.db, r, q, answer);
    } else {
      QuietOk(cfg, w.db, r, q, answer);
    }
    QuietJustified(cfg, w, r, Advance(cfg, w.db, q, answer));
  }

  lemma AdvanceJustified(cfg: Config, w: World, r: ReqId, answer: Answer)
    requires Inv(cfg, w) && r in w.requests
    ensures Justified(cfg, w, r, Advance(cfg, w.db, w.requests[r], answer))
  {
    if Writes(w.requests[r].pc) {
      WriteJustified(cfg, w, r, answer);
    } else {
      ReadJustified(cfg, w, r, answer);
    }
  }

  lemma JustifiedKeeps(cfg: Config, w: World, r: ReqId, move: Move)
    requires Requests(cfg, w) && r in w.requests && Justified(cfg, w, r, move)
    ensures Requests(cfg, World(Apply(w.db, r, move.effect), w.requests[r := move.request]))
  {
    RequestsKeep(cfg, w, Apply(w.db, r, move.effect), r, move.request);
  }

  lemma TurnKeeps(cfg: Config, w: World, r: ReqId, answer: Answer)
    requires Inv(cfg, w) && r in w.requests
    ensures Inv(cfg, Step(cfg, w, Turn(r, answer)))
  {
    AdvanceJustified(cfg, w, r, answer);
    JustifiedKeeps(cfg, w, r, Advance(cfg, w.db, w.requests[r], answer));
    TurnSound(cfg, w, r, answer);
  }

  lemma TurnSound(cfg: Config, w: World, r: ReqId, answer: Answer)
    requires Inv(cfg, w) && r in w.requests
    ensures Sound(cfg, Apply(w.db, r, Advance(cfg, w.db, w.requests[r], answer).effect))
  {
    assert RequestOk(cfg, w.db, r, w.requests[r]);
    AdvanceSound(cfg, w.db, r, w.requests[r], answer);
  }

  lemma OutsideEvolves(cfg: Config, db: Db, e: Event)
    requires Books(db.supply, db.tokens, db.log.chain, db.log.rotatedBy)
    requires CodeBooks(db.supply, db.codes, db.log.issued, db.log.redeemedBy)
    ensures Evolves(db, Outside(cfg, db, e))
  {
    match e
    case RevokeUser(userId) => RevokedAllEvolves(db, userId);
    case PurgeTokens(userId) => TokensEvolve(db, Without(db.tokens, OwnedBy(userId)));
    case PruneTokens(cutoff) => TokensEvolve(db, Without(db.tokens, ExpiredBefore(cutoff)));
    case IssueCode(userId, serviceId, redirectUri, challenge) =>
      CodeEvolves(db, NewCode(cfg, db, userId, serviceId, redirectUri, challenge));
    case _ => OtherOutsideEvolves(cfg, db, e);
  }

  lemma OtherOutsideEvolves(cfg: Config, db: Db, e: Event)
    requires !e.RevokeUser? && !e.PurgeTokens? && !e.PruneTokens? && !e.IssueCode?
    ensures Evolves(db, Outside(cfg, db, e))
  {
  }

  lemma CodeEvolves(db: Db, code: Codes.Code)
    requires forall c :: c in db.log.issued ==> c < db.supply
    ensures Evolves(db, db.(codes := db.codes[db.supply := code],
                            supply := db.supply + 1,
                            log := db.log.(issued := db.log.issued[db.supply := code])))
  {
  }

  lemma RevokedAllEvolves(db: Db, userId: Id)
    ensures Evolves(db, db.(tokens := RevokedAll(db.tokens, userId, db.now)))
  {
    TokensEvolve(db, RevokedAll(db.tokens, userId, db.now));
  }

  lemma TokensEvolve(db: Db, after: TokenTable)
    requires forall i :: i in after ==> i in db.tokens && SameRow(db.tokens[i], after[i])
    ensures Evolves(db, db.(tokens := after))
  {
  }

  lemma OutsideRequests(cfg: Config, w: World, e: Event)
    requires Requests(cfg, w) && Evolves(w.db, Outside(cfg, w.db, e))
    ensures Requests(cfg, w.(db := Outside(cfg, w.db, e)))
  {
    var b := Outside(cfg, w.db, e);
    forall s | s in w.requests ensures RequestOk(cfg, b, s, w.requests[s]) {
      assert RequestOk(cfg, w.db, s, w.requests[s]);
      RequestKeeps(cfg, w.db, b, s, w.requests[s]);
    }
  }

  lemma StepKeeps(cfg: Config, w: World, e: Event)
    requires Inv(cfg, w)
    ensures Inv(cfg, Step(cfg, w, e))
  {
    match e
    case Arrive(r, input) =>
    case Turn(r, answer) =>
      if r in w.requests {
        TurnKeeps(cfg, w, r, answer);
      }
    case _ => OutsideStepKeeps(cfg, w, e);
  }

  lemma OutsideStepKeeps(cfg: Config, w: World, e: Event)
    requires Inv(cfg, w)
    ensures Inv(cfg, w.(db := Outside(cfg, w.db, e)))
  {
    OutsideKeeps(cfg, w.db, e);
    OutsideEvolves(cfg, w.db, e);
    OutsideRequests(cfg, w, e);
  }

  /** The invariant holds in every state any interleaving reaches. */
  lemma {:induction false} RunKeeps(cfg: Config, w: World, events: seq<Event>)
    requires Inv(cfg, w)
    ensures Inv(cfg, Run(cfg, w, events))
    decreases events
  {
    if events != [] {
      StepKeeps(cfg, w, events[0]);
      RunKeeps(cfg, Step(cfg, w, events[0]), events[1..]);
    }
  }

  // ----- what a step can do to the token table

  /** Only fresh ids are inserted, and only active tokens are rotated. */
  ghost predicate Regular(db: Db, effect: Effect) {
    match effect
    case Create(next, from) =>
      && Untouched(next.id, db.log.chain)
      && (from.Some? ==> forall i :: i in db.log.chain ==> db.log.chain[i].code != from)
    case Rotate(id, next) =>
      && Untouched(next.id, db.log.chain)
      && Rotatable(db.tokens, id) && id in db.log.chain
      && next.userId == db.tokens[id].userId
    case _ => true
  }

  lemma AdvanceRegular(cfg: Config, db: Db, r: ReqId, q: Request, answer: Answer)
    requires RequestOk(cfg, db, r, q)
    ensures Regular(db, Advance(cfg, db, q, answer).effect)
  {
  }

  /** A regular write of one request, or a thinning of the rows. */
  ghost predicate Lawful(a: Db, b: Db) {
    || (Thinned(a.tokens, b.tokens, a.now) && b.log.chain == a.log.chain && b.log.rotatedBy == a.log.rotatedBy)
    || (exists r, effect {:trigger Apply(a, r, effect)} :: Regular(a, effect) && b == Apply(a, r, effect))
  }

  lemma StepIsLawful(cfg: Config, w: World, e: Event)
    requires Inv(cfg, w)
    ensures Lawful(w.db, Step(cfg, w, e).db)
  {
    if e.Turn? && e.r in w.requests {
      var effect := Advance(cfg, w.db, w.requests[e.r], e.answer).effect;
      assert RequestOk(cfg, w.db, e.r, w.requests[e.r]);
      AdvanceRegular(cfg, w.db, e.r, w.requests[e.r], e.answer);
      assert Step(cfg, w, e).db == Apply(w.db, e.r, effect);
    } else if !e.Turn? && !e.Arrive? {
      OutsideIsLawful(cfg, w.db, e);
    }
  }

  lemma OutsideIsLawful(cfg: Config, db: Db, e: Event)
    requires Lifetimes(cfg, db.now, db.tokens)
    ensures Lawful(db, Outside(cfg, db, e))
  {
  }
}
