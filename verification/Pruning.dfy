/**
  The prune job deletes rows that expired more than the retention window ago. Inside that
  window nobody can tell: the run with its prune steps and the run without them answer alike.
 */
module Pruning {
  import opened Base
  import opened Tables
  import opened RefreshTokens
  import Codes = AuthCodes
  import opened Grants
  import opened GrantInvariant

  predicate InWindow(cfg: Config, now: Time, expiresAt: Time) {
    now <= expiresAt + cfg.retention
  }

  predicate IsPrune(e: Event) {
    e.PruneTokens? || e.PruneCodes?
  }

  function WithoutPrunes(events: seq<Event>): seq<Event> {
    if events == [] then []
    else (if IsPrune(events[0]) then [] else [events[0]]) + WithoutPrunes(events[1..])
  }

  // ----- presenting a token or a code in time

  predicate TokensInWindow(cfg: Config, db: Db, hash: Digest) {
    forall i :: i in db.tokens && db.tokens[i].tokenHash == hash ==> InWindow(cfg, db.now, db.tokens[i].expiresAt)
  }

  /** The row this step looks up or conditionally updates, if there is one, is not beyond its window. */
  predicate Timely(cfg: Config, w: World, e: Event) {
    e.Turn? && e.r in w.requests ==>
      var q := w.requests[e.r];
      match q.pc
      case Start =>
        (match q.input
         case RefreshInput(secret, _) => TokensInWindow(cfg, w.db, HashToken(secret))
         case RevokeInput(secret, _) => TokensInWindow(cfg, w.db, HashToken(secret))
         case ExchangeInput(code, _, _, _, _) =>
           forall c :: c in w.db.codes && w.db.codes[c].codeHash == HashToken(code) ==>
             InWindow(cfg, w.db.now, w.db.codes[c].expiresAt)
         case IssueInput(_, _) => true)
      case Minted(id, _, _) => id in w.db.tokens ==> InWindow(cfg, w.db.now, w.db.tokens[id].expiresAt)
      case LostRace(_, row) => TokensInWindow(cfg, w.db, row.tokenHash)
      case CodeChecked(code, _) => code in w.db.codes ==> InWindow(cfg, w.db.now, w.db.codes[code].expiresAt)
      case _ => true
  }

  ghost predicate TimelyRun(cfg: Config, w: World, events: seq<Event>)
    decreases events
  {
    events != [] ==>
      && Timely(cfg, w, events[0])
      && TimelyRun(cfg, if IsPrune(events[0]) then w else Step(cfg, w, events[0]), events[1..])
  }

  // ----- the simulation

  /** `pruned` lacks some rows of `full`, all of them beyond their window. */
  ghost predicate TokensSim(cfg: Config, now: Time, full: TokenTable, pruned: TokenTable) {
    && (forall i :: i in pruned ==> i in full && pruned[i] == full[i])
    && (forall i :: i in full && i !in pruned ==> !InWindow(cfg, now, full[i].expiresAt))
  }

  ghost predicate CodesSim(cfg: Config, now: Time, full: Codes.CodeTable, pruned: Codes.CodeTable) {
    && (forall c :: c in pruned ==> c in full && pruned[c] == full[c])
    && (forall c :: c in full && c !in pruned ==> !InWindow(cfg, now, full[c].expiresAt))
  }

  ghost predicate DbSim(cfg: Config, full: Db, pruned: Db) {
    && full.now == pruned.now && full.supply == pruned.supply && full.log == pruned.log
    && TokensSim(cfg, full.now, full.tokens, pruned.tokens)
    && CodesSim(cfg, full.now, full.codes, pruned.codes)
  }

  /** The requests, and so every response, are the same; the tables agree inside the window. */
  ghost predicate Sim(cfg: Config, full: World, pruned: World) {
    full.requests == pruned.requests && DbSim(cfg, full.db, pruned.db)
  }

  /** Ids and secrets of rows match, so a lookup has one possible answer. */
  ghost predicate OwnHashes(db: Db) {
    && (forall i :: i in db.tokens ==> i in db.log.chain && db.tokens[i].tokenHash == HashToken(i))
    && (forall c :: c in db.codes ==> db.codes[c].codeHash == HashToken(c))
  }

  /** A timely step makes the same move in both runs. */
  lemma SameMove(cfg: Config, full: World, pruned: World, r: ReqId, answer: Answer)
    requires Sim(cfg, full, pruned) && OwnHashes(full.db) && r in full.requests
    requires RequestOk(cfg, full.db, r, full.requests[r])
    requires Timely(cfg, full, Turn(r, answer))
    ensures Advance(cfg, full.db, full.requests[r], answer) == Advance(cfg, pruned.db, full.requests[r], answer)
  {
  }

  /** The write of a timely step keeps the tables alike. */
  lemma SameWrite(cfg: Config, full: Db, pruned: Db, r: ReqId, effect: Effect)
    requires DbSim(cfg, full, pruned) && Regular(full, effect) && OwnHashes(full)
    requires effect.Rotate? ==> effect.id in pruned.tokens
    requires effect.Consume? ==> effect.code in pruned.codes
    ensures DbSim(cfg, Apply(full, r, effect), Apply(pruned, r, effect))
  {
  }

  /** A prune removes only rows beyond their window. */
  lemma PruneSim(cfg: Config, full: Db, pruned: Db, e: Event)
    requires DbSim(cfg, full, pruned) && IsPrune(e)
    ensures DbSim(cfg, full, Outside(cfg, pruned, e))
  {
  }

  lemma OutsideSim(cfg: Config, full: Db, pruned: Db, e: Event)
    requires DbSim(cfg, full, pruned) && !IsPrune(e)
    ensures DbSim(cfg, Outside(cfg, full, e), Outside(cfg, pruned, e))
  {
  }

  lemma KnownOk(cfg: Config, w: World, r: ReqId)
    requires Inv(cfg, w)
    ensures OwnHashes(w.db) && (r in w.requests ==> RequestOk(cfg, w.db, r, w.requests[r]))
  {
  }

  lemma TurnSim(cfg: Config, full: World, pruned: World, r: ReqId, answer: Answer)
    requires OwnHashes(full.db) && Sim(cfg, full, pruned) && Timely(cfg, full, Turn(r, answer))
    requires r in full.requests && RequestOk(cfg, full.db, r, full.requests[r])
    ensures Sim(cfg, Step(cfg, full, Turn(r, answer)), Step(cfg, pruned, Turn(r, answer)))
  {
    var q := full.requests[r];
    SameMove(cfg, full, pruned, r, answer);
    AdvanceRegular(cfg, full.db, r, q, answer);
    SameWrite(cfg, full.db, pruned.db, r, Advance(cfg, full.db, q, answer).effect);
  }

  lemma StepSim(cfg: Config, full: World, pruned: World, e: Event)
    requires Inv(cfg, full) && Sim(cfg, full, pruned) && Timely(cfg, full, e) && !IsPrune(e)
    ensures Sim(cfg, Step(cfg, full, e), Step(cfg, pruned, e))
  {
    if e.Turn? && e.r in full.requests {
      KnownOk(cfg, full, e.r);
      TurnSim(cfg, full, pruned, e.r, e.answer);
    } else if !e.Turn? {
      OutsideSim(cfg, full.db, pruned.db, e);
    }
  }

  /**
    A run with prune steps against the same run without them: as long as every token and
    code is presented no later than its expiry plus the retention window, every request is
    in the same state with the same response, and the tables differ only in rows beyond it.
   */
  lemma {:induction false} PruningIsInvisible(cfg: Config, full: World, pruned: World, events: seq<Event>)
    requires Inv(cfg, full) && Sim(cfg, full, pruned) && TimelyRun(cfg, full, events)
    ensures Sim(cfg, Run(cfg, full, WithoutPrunes(events)), Run(cfg, pruned, events))
    decreases events
  {
    if events != [] {
      var e, rest := events[0], events[1..];
      if IsPrune(e) {
        PruneSim(cfg, full.db, pruned.db, e);
        PruningIsInvisible(cfg, full, Step(cfg, pruned, e), rest);
        assert WithoutPrunes(events) == WithoutPrunes(rest);
      } else {
        StepSim(cfg, full, pruned, e);
        StepKeeps(cfg, full, e);
        PruningIsInvisible(cfg, Step(cfg, full, e), Step(cfg, pruned, e), rest);
        assert WithoutPrunes(events) == [e] + WithoutPrunes(rest);
        assert ([e] + WithoutPrunes(rest))[1..] == WithoutPrunes(rest);
      }
    }
  }

  /** With one lifetime for all tokens, a prune that takes a token takes its predecessors with it. */
  lemma PruneTakesTheOldEnd(cfg: Config, w: World, cutoff: int, i: Id)
    requires Inv(cfg, w) && i in w.db.tokens && w.db.tokens[i].replacedBy.Some?
    requires w.db.tokens[i].replacedBy.value !in Without(w.db.tokens, ExpiredBefore(cutoff))
    ensures i !in Without(w.db.tokens, ExpiredBefore(cutoff))
  {
    assert Linked(w.db.tokens, w.db.log.chain, w.db.log.rotatedBy, i, w.db.tokens[i].replacedBy.value);
  }
}
