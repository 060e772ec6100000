/** What a family revocation and a code redemption settle, for every later interleaving. */
module FamilyRevocation {
  import opened Base
  import opened RefreshTokens
  import Codes = AuthCodes
  import opened Grants
  import opened GrantInvariant

  // ----- revokeAllForUser

  /** Of the chains in `before`, no token of the user is active. */
  ghost predicate Fenced(db: Db, userId: Id, before: map<Id, Chain>) {
    && (forall j :: j in before ==> j in db.log.chain && db.log.chain[j] == before[j])
    && (forall i, j {:trigger db.log.chain[i], before[j]} ::
          i in db.tokens && i in db.log.chain && j in before
          && db.tokens[i].userId == userId && db.log.chain[i] == before[j]
          ==> db.tokens[i].revokedAt.Some?)
  }

  /** The tokens in `family` are the user's and revoked, wherever they are still present. */
  ghost predicate Retired(db: Db, userId: Id, family: set<Id>) {
    forall i :: i in family ==>
      && i in db.log.chain
      && (i in db.tokens ==> db.tokens[i].userId == userId && db.tokens[i].revokedAt.Some?)
  }

  lemma LawfulKeepsFence(a: Db, b: Db, userId: Id, before: map<Id, Chain>)
    requires Lawful(a, b) && Fenced(a, userId, before)
    ensures Fenced(b, userId, before)
  {
    if !(Thinned(a.tokens, b.tokens, a.now) && b.log.chain == a.log.chain && b.log.rotatedBy == a.log.rotatedBy) {
      var r, effect :| Regular(a, effect) && b == Apply(a, r, effect);
      WriteKeepsFence(a, r, effect, userId, before);
    }
  }

  lemma WriteKeepsFence(a: Db, r: ReqId, effect: Effect, userId: Id, before: map<Id, Chain>)
    requires Regular(a, effect) && Fenced(a, userId, before)
    ensures Fenced(Apply(a, r, effect), userId, before)
  {
  }

  lemma LawfulKeepsRetired(a: Db, b: Db, userId: Id, family: set<Id>)
    requires Lawful(a, b) && Retired(a, userId, family)
    ensures Retired(b, userId, family)
    ensures forall i :: i in family && i in b.log.rotatedBy ==>
              i in a.log.rotatedBy && b.log.rotatedBy[i] == a.log.rotatedBy[i]
  {
    if !(Thinned(a.tokens, b.tokens, a.now) && b.log.chain == a.log.chain && b.log.rotatedBy == a.log.rotatedBy) {
      var r, effect :| Regular(a, effect) && b == Apply(a, r, effect);
      WriteKeepsRetired(a, r, effect, userId, family);
    }
  }

  lemma WriteKeepsRetired(a: Db, r: ReqId, effect: Effect, userId: Id, family: set<Id>)
    requires Regular(a, effect) && Retired(a, userId, family)
    ensures var b := Apply(a, r, effect);
            && Retired(b, userId, family)
            && forall i :: i in family && i in b.log.rotatedBy ==>
                 i in a.log.rotatedBy && b.log.rotatedBy[i] == a.log.rotatedBy[i]
  {
  }

  lemma {:induction false} RunKeepsFence(cfg: Config, w: World, events: seq<Event>, userId: Id, before: map<Id, Chain>,
                                         family: set<Id>)
    requires Inv(cfg, w) && Fenced(w.db, userId, before) && Retired(w.db, userId, family)
    ensures var later := Run(cfg, w, events).db;
            && Fenced(later, userId, before) && Retired(later, userId, family)
            && forall i :: i in family && i in later.log.rotatedBy ==>
                 i in w.db.log.rotatedBy && later.log.rotatedBy[i] == w.db.log.rotatedBy[i]
    decreases events
  {
    if events != [] {
      var v := Step(cfg, w, events[0]);
      StepIsLawful(cfg, w, events[0]);
      LawfulKeepsFence(w.db, v.db, userId, before);
      LawfulKeepsRetired(w.db, v.db, userId, family);
      StepKeeps(cfg, w, events[0]);
      RunKeepsFence(cfg, v, events[1..], userId, before, family);
    }
  }

  /** The user's tokens a table holds. */
  function Family(tokens: TokenTable, userId: Id): set<Id> {
    set i | i in tokens && tokens[i].userId == userId
  }

  /** Every revokeAllForUser step, by a request or by a password reset or change. */
  ghost predicate RevokesFamily(w: World, e: Event, userId: Id) {
    || e == RevokeUser(userId)
    || (e.Turn? && e.r in w.requests && w.requests[e.r].pc.MustRevokeAll? && w.requests[e.r].pc.userId == userId)
  }

  lemma RevokedNow(cfg: Config, w: World, e: Event, userId: Id)
    requires RevokesFamily(w, e, userId)
    ensures Step(cfg, w, e).db == w.db.(tokens := RevokedAll(w.db.tokens, userId, w.db.now))
  {
  }

  lemma FenceRaised(db: Db, userId: Id)
    requires forall i :: i in db.tokens ==> i in db.log.chain
    requires forall i :: i in db.tokens && db.tokens[i].userId == userId ==> db.tokens[i].revokedAt.Some?
    ensures Fenced(db, userId, db.log.chain) && Retired(db, userId, Family(db.tokens, userId))
  {
  }

  /**
    After a revokeAllForUser step, whatever was in flight: the user's tokens of that moment
    never rotate any more and stay revoked, and a token of the user that is active later
    belongs to a chain none of whose tokens existed at that moment.
   */
  lemma FamilyRevocationIsComplete(cfg: Config, w: World, e: Event, userId: Id, events: seq<Event>)
    requires Inv(cfg, w) && RevokesFamily(w, e, userId)
    ensures var at := Step(cfg, w, e).db;
            var later := Run(cfg, Step(cfg, w, e), events).db;
            && (forall i :: i in Family(at.tokens, userId) && i in later.tokens ==> later.tokens[i].revokedAt.Some?)
            && (forall i :: i in Family(at.tokens, userId) && i in later.log.rotatedBy ==>
                  i in at.log.rotatedBy && later.log.rotatedBy[i] == at.log.rotatedBy[i])
            && (forall i, j {:trigger later.tokens[i], at.log.chain[j]} ::
                  i in later.tokens && Active(later.tokens[i]) && later.tokens[i].userId == userId
                  && i in later.log.chain && j in at.log.chain
                  ==> later.log.chain[i] != at.log.chain[j])
  {
    var v := Step(cfg, w, e);
    StepKeeps(cfg, w, e);
    RevokedNow(cfg, w, e, userId);
    FenceRaised(v.db, userId);
    RunKeepsFence(cfg, v, events, userId, v.db.log.chain, Family(v.db.tokens, userId));
  }

  // ----- authorization codes

  /** What every request of every run knows is so. */
  lemma KnownInRuns(cfg: Config, start: Time, events: seq<Event>, r: ReqId)
    requires r in Run(cfg, Init(start), events).requests
    ensures var w := Run(cfg, Init(start), events);
            && RequestOk(cfg, w.db, r, w.requests[r])
            && forall c :: c in w.db.log.issued ==> w.db.log.issued[c].codeHash == HashToken(c)
  {
    InitInv(cfg, start);
    RunKeeps(cfg, Init(start), events);
  }

  /** A code yields at most one token pair, over all requests that ever present it. */
  lemma OnePairPerCode(cfg: Config, start: Time, events: seq<Event>, r: ReqId, s: ReqId)
    requires var requests := Run(cfg, Init(start), events).requests;
             && r in requests && s in requests
             && requests[r].input.ExchangeInput? && requests[s].input.ExchangeInput?
             && requests[r].input.code == requests[s].input.code
             && requests[r].pc.Done? && requests[r].pc.outcome.Pair?
             && requests[s].pc.Done? && requests[s].pc.outcome.Pair?
    ensures r == s
  {
    KnownInRuns(cfg, start, events, r);
    KnownInRuns(cfg, start, events, s);
  }

  /**
    A pair is only ever handed out for an issued code, to a request naming the code's
    client, redirect URI and secret, and presenting the verifier behind its S256 challenge.
   */
  lemma PairMeetsEveryCondition(cfg: Config, start: Time, events: seq<Event>, r: ReqId)
    requires var requests := Run(cfg, Init(start), events).requests;
             && r in requests && requests[r].input.ExchangeInput?
             && requests[r].pc.Done? && requests[r].pc.outcome.Pair?
    ensures var w := Run(cfg, Init(start), events);
            var q := w.requests[r];
            && q.input.code in w.db.log.issued
            && q.service.Some?
            && var code := w.db.log.issued[q.input.code];
            var service := q.service.value;
            && service.id == code.serviceId && service.clientId == q.input.clientId
            && (!service.isPublic ==>
                  && service.secretHash.Some? && q.input.clientSecret.Some?
                  && HashToken(q.input.clientSecret.value) == service.secretHash.value)
            && q.input.redirectUri == code.redirectUri
            && code.challenge == Codes.S256(q.input.verifier)
  {
    KnownInRuns(cfg, start, events, r);
  }

  /** A chain came of the code, and every token of it that is left is revoked. */
  ghost predicate CodeDead(db: Db, code: Id, first: Id) {
    && first in db.log.chain && db.log.chain[first].code == Some(code)
    && forall i :: i in db.tokens && i in db.log.chain && db.log.chain[i].code == Some(code) ==>
         db.tokens[i].revokedAt.Some?
  }

  lemma LawfulKeepsCodeDead(a: Db, b: Db, code: Id, first: Id)
    requires Lawful(a, b) && CodeDead(a, code, first)
    ensures CodeDead(b, code, first)
  {
    if !(Thinned(a.tokens, b.tokens, a.now) && b.log.chain == a.log.chain) {
      var r, effect :| Regular(a, effect) && b == Apply(a, r, effect);
      WriteKeepsCodeDead(a, r, effect, code, first);
    }
  }

  lemma WriteKeepsCodeDead(a: Db, r: ReqId, effect: Effect, code: Id, first: Id)
    requires Regular(a, effect) && CodeDead(a, code, first)
    ensures CodeDead(Apply(a, r, effect), code, first)
  {
  }

  lemma {:induction false} RunKeepsCodeDead(cfg: Config, w: World, events: seq<Event>, code: Id, first: Id)
    requires Inv(cfg, w) && CodeDead(w.db, code, first)
    ensures CodeDead(Run(cfg, w, events).db, code, first)
    decreases events
  {
    if events != [] {
      StepIsLawful(cfg, w, events[0]);
      LawfulKeepsCodeDead(w.db, Step(cfg, w, events[0]).db, code, first);
      StepKeeps(cfg, w, events[0]);
      RunKeepsCodeDead(cfg, Step(cfg, w, events[0]), events[1..], code, first);
    }
  }

  /**
    A replay of a code by its client, whose revocation step comes after the winner's token
    was created, leaves every refresh token that descends from the code revoked for good.
   */
  lemma ReplayRevokesDescendants(cfg: Config, w: World, r: ReqId, answer: Answer, first: Id, events: seq<Event>)
    requires Inv(cfg, w) && r in w.requests
    requires w.requests[r].input.ExchangeInput? && w.requests[r].pc.MustRevokeAll? && w.requests[r].subject.Some?
    requires first in w.db.log.chain && w.db.log.chain[first].code == w.requests[r].subject
    ensures var later := Run(cfg, Step(cfg, w, Turn(r, answer)), events).db;
            forall i :: i in later.tokens && i in later.log.chain
                        && later.log.chain[i].code == w.requests[r].subject
                        ==> later.tokens[i].revokedAt.Some?
  {
    CodeDies(cfg, w, r, answer, first);
    StepKeeps(cfg, w, Turn(r, answer));
    RunKeepsCodeDead(cfg, Step(cfg, w, Turn(r, answer)), events, w.requests[r].subject.value, first);
  }

  lemma CodeDies(cfg: Config, w: World, r: ReqId, answer: Answer, first: Id)
    requires Origins(w.db.tokens, w.db.log) && r in w.requests && RequestOk(cfg, w.db, r, w.requests[r])
    requires w.requests[r].input.ExchangeInput? && w.requests[r].pc.MustRevokeAll? && w.requests[r].subject.Some?
    requires first in w.db.log.chain && w.db.log.chain[first].code == w.requests[r].subject
    ensures CodeDead(Step(cfg, w, Turn(r, answer)).db, w.requests[r].subject.value, first)
  {
    var v := Step(cfg, w, Turn(r, answer));
    assert v.db == w.db.(tokens := RevokedAll(w.db.tokens, w.requests[r].pc.userId, w.db.now));
  }
}
