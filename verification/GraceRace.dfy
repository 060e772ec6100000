/**
  Many requests presenting one active refresh token at once: a second tab, a retry. Within
  the grace period of the winning rotation the losers are turned away and nobody is revoked.
 */
module GraceRace {
  import opened Base
  import opened RefreshTokens
  import opened Grants
  import opened GrantInvariant

  /** Once the token is rotated, the clock is still within the grace period of that rotation. */
  ghost predicate InGrace(cfg: Config, w: World, tok: Id) {
    tok in w.db.tokens && w.db.tokens[tok].revokedAt.Some? ==>
      w.db.now < w.db.tokens[tok].revokedAt.value + cfg.reuseGrace
  }

  /** The row is there afterwards, and as it was. */
  predicate LeftAlone(before: TokenTable, after: TokenTable, i: Id) {
    i in before ==> i in after && after[i] == before[i]
  }

  /** A racer asks for a refresh with the raced token. */
  predicate Presents(input: Input, tok: Id) {
    input.RefreshInput? && input.secret == tok
  }

  /**
    Whoever is not racing leaves the raced token alone, and its successor once there is one.
    A racer may arrive at any time.
   */
  ghost predicate CalmStep(cfg: Config, w: World, e: Event, racers: set<ReqId>, tok: Id) {
    var after := Step(cfg, w, e).db.tokens;
    || (e.Turn? && e.r in racers)
    || (&& (e.Arrive? && e.r in racers && e.r !in w.requests ==> Presents(e.input, tok))
        && LeftAlone(w.db.tokens, after, tok)
        && (tok in w.db.tokens && w.db.tokens[tok].replacedBy.Some? ==>
              LeftAlone(w.db.tokens, after, w.db.tokens[tok].replacedBy.value)))
  }

  /** Nobody but the racers touches the two tokens, and the race ends within the grace period. */
  ghost predicate Calm(cfg: Config, w: World, events: seq<Event>, racers: set<ReqId>, tok: Id)
    decreases events
  {
    && InGrace(cfg, w, tok)
    && (events != [] ==>
          && CalmStep(cfg, w, events[0], racers, tok)
          && Calm(cfg, Step(cfg, w, events[0]), events[1..], racers, tok))
  }

  /** The step revokes nothing: at most it rotates the raced token, and no other row changes. */
  predicate OnlyRotates(before: TokenTable, after: TokenTable, tok: Id) {
    && (forall i :: i in before && i != tok ==> i in after && after[i] == before[i])
    && (tok in before ==>
          && tok in after
          && (after[tok] == before[tok] || (Active(before[tok]) && after[tok].replacedBy.Some?)))
  }

  /** No step any racer takes in the run revokes anything. */
  ghost predicate RacersOnlyRotate(cfg: Config, w: World, events: seq<Event>, racers: set<ReqId>, tok: Id)
    decreases events
  {
    events != [] ==>
      var v := Step(cfg, w, events[0]);
      && (events[0].Turn? && events[0].r in racers ==> OnlyRotates(w.db.tokens, v.db.tokens, tok))
      && RacersOnlyRotate(cfg, v, events[1..], racers, tok)
  }

  /** Everything the racers ask is answered well: their client authenticates, the user may sign in. */
  ghost predicate Favoured(w: World, e: Event, racers: set<ReqId>, row: Token) {
    e.Turn? && e.r in racers && e.r in w.requests && w.requests[e.r].input.RefreshInput? ==>
      && w.db.now < row.expiresAt
      && e.answer.subjectOk
      && ServiceById(e.answer, row.serviceId).Some?
      && TokenClientError(e.answer.service.value, w.requests[e.r].input.client, InvalidGrant).None?
  }

  ghost predicate FavouredRun(cfg: Config, w: World, events: seq<Event>, racers: set<ReqId>, row: Token)
    decreases events
  {
    events != [] ==>
      && Favoured(w, events[0], racers, row)
      && FavouredRun(cfg, Step(cfg, w, events[0]), events[1..], racers, row)
  }

  // ----- what every state of the race looks like

  /** The raced token: as it was, or rotated once into a token that is still active. */
  ghost predicate Raced(db: Db, tok: Id, row: Token) {
    && tok in db.tokens
    && db.tokens[tok].(revokedAt := None, replacedBy := None) == row
    && (db.tokens[tok].revokedAt.Some? <==> db.tokens[tok].replacedBy.Some?)
    && (db.tokens[tok].replacedBy.Some? ==>
          var n := db.tokens[tok].replacedBy.value;
          n in db.tokens && Active(db.tokens[n]) && db.tokens[n].userId == row.userId)
  }

  ghost predicate RacerOk(db: Db, q: Request, tok: Id, row: Token, favoured: bool)
    requires tok in db.tokens
  {
    var current := db.tokens[tok];
    && Presents(q.input, tok)
    && match q.pc
       case Start => true
       case Found(id, seen) => id == tok && (seen == row || seen == current)
       case Authenticated(id, seen) => id == tok && (seen == row || seen == current)
       case Live(id, seen) => id == tok && seen == row
       case Minted(id, seen, _) => id == tok && seen == row
       case LostRace(id, seen) => id == tok && seen == row && current.replacedBy.Some?
       case Done(Pair(n)) => current.replacedBy == Some(n)
       case Done(Refused(error)) =>
         && error != RefreshTokenReuse
         && (favoured ==> error == InvalidRefreshToken && current.replacedBy.Some?)
       case _ => false
  }

  ghost predicate RaceOk(w: World, racers: set<ReqId>, tok: Id, row: Token, favoured: bool) {
    && Raced(w.db, tok, row)
    && (forall r :: r in racers && r in w.requests ==> RacerOk(w.db, w.requests[r], tok, row, favoured))
    && (w.db.tokens[tok].replacedBy.Some? ==>
          && tok in w.db.log.rotatedBy && w.db.log.rotatedBy[tok] in racers && w.db.log.rotatedBy[tok] in w.requests
          && w.requests[w.db.log.rotatedBy[tok]].pc == Done(Pair(w.db.tokens[tok].replacedBy.value)))
  }

  // ----- every step of the race keeps it

  /** What the table of tokens says of the secret `tok` when rows carry the secret of their id. */
  lemma OnlyItsOwnHash(tokens: TokenTable, tok: Id)
    requires forall i :: i in tokens ==> tokens[i].tokenHash == HashToken(i)
    requires tok in tokens
    ensures TokenWithHash(tokens, HashToken(tok)) == Some(tok)
  {
  }

  /** What a racer's move must come to: right for its new state, and a write only when it rotates the token. */
  ghost predicate MovesWell(w: World, r: ReqId, move: Move, tok: Id, row: Token, favoured: bool) {
    var after := Apply(w.db, r, move.effect);
    && tok in w.db.tokens && r in w.requests
    && (w.requests[r].pc.Done? ==> move.request == w.requests[r])
    && (move.effect.Nothing? || move.effect.Draw?
        || (move.effect.Rotate? && move.effect.id == tok && Active(w.db.tokens[tok])
            && move.request.pc == Done(Pair(move.effect.next.id))
            && tok in after.log.rotatedBy && after.log.rotatedBy[tok] == r))
    && Raced(after, tok, row)
    && OnlyRotates(w.db.tokens, after.tokens, tok)
    && RacerOk(after, move.request, tok, row, favoured)
  }

  /** What the move of a racer relies on. */
  ghost predicate Moving(cfg: Config, w: World, r: ReqId, tok: Id, row: Token, favoured: bool) {
    && r in w.requests && RequestOk(cfg, w.db, r, w.requests[r])
    && (forall i :: i in w.db.tokens ==> i in w.db.log.chain && w.db.tokens[i].tokenHash == HashToken(i))
    && Raced(w.db, tok, row) && RacerOk(w.db, w.requests[r], tok, row, favoured)
    && (w.db.tokens[tok].revokedAt.Some? ==> w.db.tokens[tok].revokedAt.value <= w.db.now)
    && InGrace(cfg, w, tok) && row.revokedAt.None? && row.replacedBy.None?
  }

  lemma RacerMoves(cfg: Config, w: World, r: ReqId, answer: Answer, tok: Id, row: Token, favoured: bool)
    requires Moving(cfg, w, r, tok, row, favoured)
    requires favoured ==> Favoured(w, Turn(r, answer), {r}, row)
    ensures MovesWell(w, r, Advance(cfg, w.db, w.requests[r], answer), tok, row, favoured)
  {
    if w.requests[r].pc.Minted? {
      RacerRotates(cfg, w, r, answer, tok, row, favoured);
    } else if w.requests[r].pc.Start? || w.requests[r].pc.LostRace? {
      RacerLooks(cfg, w, r, answer, tok, row, favoured);
    } else {
      RacerReads(cfg, w, r, answer, tok, row, favoured);
    }
  }

  lemma RacerRotates(cfg: Config, w: World, r: ReqId, answer: Answer, tok: Id, row: Token, favoured: bool)
    requires Moving(cfg, w, r, tok, row, favoured) && w.requests[r].pc.Minted?
    ensures MovesWell(w, r, Advance(cfg, w.db, w.requests[r], answer), tok, row, favoured)
  {
  }

  lemma RacerReads(cfg: Config, w: World, r: ReqId, answer: Answer, tok: Id, row: Token, favoured: bool)
    requires Moving(cfg, w, r, tok, row, favoured)
    requires !w.requests[r].pc.Minted? && !w.requests[r].pc.Start? && !w.requests[r].pc.LostRace?
    requires favoured ==> Favoured(w, Turn(r, answer), {r}, row)
    ensures MovesWell(w, r, Advance(cfg, w.db, w.requests[r], answer), tok, row, favoured)
  {
    if w.requests[r].pc.Found? || w.requests[r].pc.Authenticated? {
      RacerIsChecked(cfg, w, r, answer, tok, row, favoured);
    } else {
      RacerDraws(cfg, w, r, answer, tok, row, favoured);
    }
    UnwrittenIsWell(w, r, Advance(cfg, w.db, w.requests[r], answer), tok, row, favoured);
  }

  /** Without a write it is only the request's own state that matters. */
  lemma UnwrittenIsWell(w: World, r: ReqId, move: Move, tok: Id, row: Token, favoured: bool)
    requires r in w.requests && Raced(w.db, tok, row) && (move.effect.Nothing? || move.effect.Draw?)
    requires RacerOk(w.db, move.request, tok, row, favoured)
    requires w.requests[r].pc.Done? ==> move.request == w.requests[r]
    ensures MovesWell(w, r, move, tok, row, favoured)
  {
  }

  lemma RacerIsChecked(cfg: Config, w: World, r: ReqId, answer: Answer, tok: Id, row: Token, favoured: bool)
    requires Moving(cfg, w, r, tok, row, favoured) && (w.requests[r].pc.Found? || w.requests[r].pc.Authenticated?)
    requires favoured ==> Favoured(w, Turn(r, answer), {r}, row)
    ensures var move := Advance(cfg, w.db, w.requests[r], answer);
            (move.effect.Nothing? || move.effect.Draw?) && RacerOk(w.db, move.request, tok, row, favoured)
  {
  }

  lemma RacerDraws(cfg: Config, w: World, r: ReqId, answer: Answer, tok: Id, row: Token, favoured: bool)
    requires Moving(cfg, w, r, tok, row, favoured) && (w.requests[r].pc.Live? || w.requests[r].pc.Done?)
    requires favoured ==> Favoured(w, Turn(r, answer), {r}, row)
    ensures var move := Advance(cfg, w.db, w.requests[r], answer);
            && (move.effect.Nothing? || move.effect.Draw?) && RacerOk(w.db, move.request, tok, row, favoured)
            && (w.requests[r].pc.Done? ==> move.request == w.requests[r])
  {
  }

  lemma RacerLooks(cfg: Config, w: World, r: ReqId, answer: Answer, tok: Id, row: Token, favoured: bool)
    requires Moving(cfg, w, r, tok, row, favoured) && (w.requests[r].pc.Start? || w.requests[r].pc.LostRace?)
    ensures MovesWell(w, r, Advance(cfg, w.db, w.requests[r], answer), tok, row, favoured)
  {
    OnlyItsOwnHash(w.db.tokens, tok);
  }

  /** Racers other than the one that moves still know what they knew. */
  lemma OtherRacersKeep(before: Db, after: Db, q: Request, tok: Id, row: Token, favoured: bool)
    requires Raced(before, tok, row) && Raced(after, tok, row)
    requires before.tokens[tok].replacedBy.Some? ==> after.tokens[tok] == before.tokens[tok]
    requires RacerOk(before, q, tok, row, favoured)
    ensures RacerOk(after, q, tok, row, favoured)
  {
  }

  /** After a move that went well the race is as it should be. */
  lemma RacerMoved(w: World, racers: set<ReqId>, r: ReqId, move: Move, tok: Id, row: Token, favoured: bool)
    requires RaceOk(w, racers, tok, row, favoured) && r in racers && r in w.requests
    requires MovesWell(w, r, move, tok, row, favoured)
    ensures RaceOk(World(Apply(w.db, r, move.effect), w.requests[r := move.request]), racers, tok, row, favoured)
  {
    var after := Apply(w.db, r, move.effect);
    forall s | s in racers && s in w.requests && s != r ensures RacerOk(after, w.requests[s], tok, row, favoured) {
      OtherRacersKeep(w.db, after, w.requests[s], tok, row, favoured);
    }
  }

  lemma InvMoves(cfg: Config, w: World, r: ReqId, tok: Id, row: Token, favoured: bool)
    requires Inv(cfg, w) && r in w.requests && Raced(w.db, tok, row)
    requires RacerOk(w.db, w.requests[r], tok, row, favoured)
    requires InGrace(cfg, w, tok) && row.revokedAt.None? && row.replacedBy.None?
    ensures Moving(cfg, w, r, tok, row, favoured)
  {
    assert RequestOk(cfg, w.db, r, w.requests[r]);
  }

  lemma RacerKeeps(cfg: Config, w: World, racers: set<ReqId>, e: Event, tok: Id, row: Token, favoured: bool)
    requires Inv(cfg, w) && RaceOk(w, racers, tok, row, favoured)
    requires InGrace(cfg, w, tok) && row.revokedAt.None? && row.replacedBy.None?
    requires favoured ==> Favoured(w, e, racers, row)
    requires e.Turn? && e.r in racers && e.r in w.requests
    ensures RaceOk(Step(cfg, w, e), racers, tok, row, favoured)
    ensures OnlyRotates(w.db.tokens, Step(cfg, w, e).db.tokens, tok)
  {
    InvMoves(cfg, w, e.r, tok, row, favoured);
    assert Favoured(w, e, racers, row) ==> Favoured(w, Turn(e.r, e.answer), {e.r}, row);
    RacerMoves(cfg, w, e.r, e.answer, tok, row, favoured);
    RacerMoved(w, racers, e.r, Advance(cfg, w.db, w.requests[e.r], e.answer), tok, row, favoured);
  }

  lemma CalmKeeps(cfg: Config, w: World, racers: set<ReqId>, e: Event, tok: Id, row: Token, favoured: bool)
    requires Inv(cfg, w) && RaceOk(w, racers, tok, row, favoured)
    requires !(e.Turn? && e.r in racers) && CalmStep(cfg, w, e, racers, tok)
    ensures RaceOk(Step(cfg, w, e), racers, tok, row, favoured)
  {
    var v := Step(cfg, w, e);
    assert v.db.tokens[tok] == w.db.tokens[tok];
    forall s | s in racers && s in v.requests ensures RacerOk(v.db, v.requests[s], tok, row, favoured) {
      if s in w.requests {
        assert v.requests[s] == w.requests[s];
        OtherRacersKeep(w.db, v.db, w.requests[s], tok, row, favoured);
      }
    }
    if w.db.tokens[tok].replacedBy.Some? {
      WinnerStays(cfg, w, e, tok);
    }
  }

  lemma WinnerStays(cfg: Config, w: World, e: Event, tok: Id)
    requires Inv(cfg, w) && tok in w.db.tokens && tok in Step(cfg, w, e).db.tokens
    requires Step(cfg, w, e).db.tokens[tok] == w.db.tokens[tok]
    requires w.db.tokens[tok].revokedAt.Some? && tok in w.db.log.rotatedBy
    ensures var after := Step(cfg, w, e).db.log.rotatedBy; tok in after && after[tok] == w.db.log.rotatedBy[tok]
  {
    StepIsLawful(cfg, w, e);
    RotationStays(w.db, Step(cfg, w, e).db, tok);
  }

  /** A rotated token's winner stays on record. */
  lemma RotationStays(a: Db, b: Db, tok: Id)
    requires Lawful(a, b) && tok in a.tokens && tok in b.tokens && a.tokens[tok] == b.tokens[tok]
    requires a.tokens[tok].revokedAt.Some? && tok in a.log.rotatedBy
    ensures tok in b.log.rotatedBy && b.log.rotatedBy[tok] == a.log.rotatedBy[tok]
  {
  }

  lemma {:induction false} RaceKeeps(cfg: Config, w: World, racers: set<ReqId>, events: seq<Event>, tok: Id, row: Token,
                                     favoured: bool)
    requires Inv(cfg, w) && RaceOk(w, racers, tok, row, favoured)
    requires row.revokedAt.None? && row.replacedBy.None?
    requires Calm(cfg, w, events, racers, tok)
    requires favoured ==> FavouredRun(cfg, w, events, racers, row)
    ensures Inv(cfg, Run(cfg, w, events))
    ensures RaceOk(Run(cfg, w, events), racers, tok, row, favoured)
    ensures RacersOnlyRotate(cfg, w, events, racers, tok)
    decreases events
  {
    if events != [] {
      var e := events[0];
      if e.Turn? && e.r in racers && e.r !in w.requests {
        assert Step(cfg, w, e) == w;
      } else if e.Turn? && e.r in racers {
        RacerKeeps(cfg, w, racers, e, tok, row, favoured);
      } else {
        CalmKeeps(cfg, w, racers, e, tok, row, favoured);
      }
      StepKeeps(cfg, w, e);
      RaceKeeps(cfg, Step(cfg, w, e), racers, events[1..], tok, row, favoured);
    }
  }

  /** The token is active, and the racers that are here already have just arrived, all presenting it. */
  ghost predicate AtStart(w: World, racers: set<ReqId>, tok: Id) {
    && tok in w.db.tokens && Active(w.db.tokens[tok])
    && forall r :: r in racers && r in w.requests ==> w.requests[r].pc.Start? && Presents(w.requests[r].input, tok)
  }

  lemma RaceStarts(cfg: Config, w: World, racers: set<ReqId>, tok: Id, favoured: bool)
    requires Inv(cfg, w) && AtStart(w, racers, tok)
    ensures var row := w.db.tokens[tok];
            && row.replacedBy.None?
            && RaceOk(w, racers, tok, row, favoured)
  {
    var row := w.db.tokens[tok];
    assert row.replacedBy.Some? ==>
        Linked(w.db.tokens, w.db.log.chain, w.db.log.rotatedBy, tok, row.replacedBy.value);
    assert row.(revokedAt := None, replacedBy := None) == row;
  }

  predicate HasPair(q: Request) {
    q.pc.Done? && q.pc.outcome.Pair?
  }

  /** The racer is not on its way to revoking the family and has not done so. */
  predicate Quiet(q: Request) {
    !q.pc.MustRevokeAll? && q.pc != Done(Refused(RefreshTokenReuse))
  }

  /** The racer is the recorded winner, and the token it received is active. */
  ghost predicate Won(db: Db, q: Request, r: ReqId, tok: Id)
    requires HasPair(q)
  {
    && tok in db.log.rotatedBy && db.log.rotatedBy[tok] == r
    && q.pc.outcome.tokenId in db.tokens && Active(db.tokens[q.pc.outcome.tokenId])
  }

  lemma RacerEnds(cfg: Config, end: World, racers: set<ReqId>, r: ReqId, tok: Id, row: Token, favoured: bool)
    requires Requests(cfg, end) && RaceOk(end, racers, tok, row, favoured) && r in racers && r in end.requests
    ensures Quiet(end.requests[r])
    ensures HasPair(end.requests[r]) ==> Won(end.db, end.requests[r], r, tok)
    ensures end.requests[r].pc.Done? && !HasPair(end.requests[r]) ==> end.requests[r].pc.outcome.Refused?
    ensures favoured && end.requests[r].pc.Done? ==> RotatedByRacer(end, racers, tok)
  {
  }

  ghost predicate RotatedByRacer(end: World, racers: set<ReqId>, tok: Id) {
    && tok in end.db.log.rotatedBy
    && end.db.log.rotatedBy[tok] in racers && end.db.log.rotatedBy[tok] in end.requests
    && HasPair(end.requests[end.db.log.rotatedBy[tok]])
  }

  /**
    Whatever the answers the racers get, and whatever else runs meanwhile: at most one of
    them receives a pair, since all that do are the one recorded winner; no step of theirs
    revokes anything; and the token the winner received is still active at the end.
   */
  lemma LosersAreRefusedQuietly(cfg: Config, w: World, racers: set<ReqId>, tok: Id, events: seq<Event>)
    requires Inv(cfg, w) && AtStart(w, racers, tok)
    requires Calm(cfg, w, events, racers, tok)
    ensures var end := Run(cfg, w, events);
            && (forall r :: r in racers && r in end.requests ==> Quiet(end.requests[r]))
            && (forall r :: r in racers && r in end.requests && HasPair(end.requests[r]) ==>
                  Won(end.db, end.requests[r], r, tok))
            && RacersOnlyRotate(cfg, w, events, racers, tok)
  {
    RaceStarts(cfg, w, racers, tok, false);
    var row := w.db.tokens[tok];
    RaceKeeps(cfg, w, racers, events, tok, row, false);
    var end := Run(cfg, w, events);
    forall r | r in racers && r in end.requests
      ensures Quiet(end.requests[r])
      ensures HasPair(end.requests[r]) ==> Won(end.db, end.requests[r], r, tok)
    {
      RacerEnds(cfg, end, racers, r, tok, row, false);
    }
  }

  /** The winner of a race in which `some` racer was answered well and is done. */
  lemma WinnerOf(cfg: Config, end: World, racers: set<ReqId>, tok: Id, row: Token)
    requires Requests(cfg, end) && RaceOk(end, racers, tok, row, true) && racers != {}
    requires forall r :: r in racers ==> r in end.requests && end.requests[r].pc.Done?
    ensures RotatedByRacer(end, racers, tok)
    ensures forall r :: r in racers ==> Quiet(end.requests[r])
    ensures forall r :: r in racers && r != end.db.log.rotatedBy[tok] ==>
              end.requests[r].pc == Done(Refused(InvalidRefreshToken))
    ensures forall r :: r in racers && HasPair(end.requests[r]) ==> Won(end.db, end.requests[r], r, tok)
  {
  }

  /** When every racer is answered well and all have come and are done, exactly one has a pair, and it works. */
  lemma ExactlyOneWins(cfg: Config, w: World, racers: set<ReqId>, tok: Id, events: seq<Event>) returns (winner: ReqId)
    requires Inv(cfg, w) && AtStart(w, racers, tok) && racers != {}
    requires Calm(cfg, w, events, racers, tok)
    requires FavouredRun(cfg, w, events, racers, w.db.tokens[tok])
    requires var end := Run(cfg, w, events); forall r :: r in racers ==> r in end.requests && end.requests[r].pc.Done?
    ensures var end := Run(cfg, w, events);
            && winner in racers && winner in end.requests
            && HasPair(end.requests[winner]) && Won(end.db, end.requests[winner], winner, tok)
            && RacersOnlyRotate(cfg, w, events, racers, tok)
            && forall r :: r in racers && r != winner ==>
                 r in end.requests && end.requests[r].pc == Done(Refused(InvalidRefreshToken))
  {
    RaceStarts(cfg, w, racers, tok, true);
    var row := w.db.tokens[tok];
    RaceKeeps(cfg, w, racers, events, tok, row, true);
    WinnerOf(cfg, Run(cfg, w, events), racers, tok, row);
    winner := Run(cfg, w, events).db.log.rotatedBy[tok];
  }
}
