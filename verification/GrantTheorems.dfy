/** What holds in every run of the grant endpoints, whatever the interleaving. */
module GrantTheorems {
  import opened Base
  import opened RefreshTokens
  import opened Grants
  import opened GrantInvariant

  /** `to` is reached from `from` over `steps` replacedBy links. */
  ghost predicate Reaches(tokens: TokenTable, from: Id, to: Id, steps: nat)
    decreases steps
  {
    && from in tokens
    && if steps == 0 then from == to
       else tokens[from].replacedBy.Some? && Reaches(tokens, tokens[from].replacedBy.value, to, steps - 1)
  }

  // ----- chains

  /** Links only lead to later tokens, all of one chain. */
  lemma {:induction false} LinksGoForward(cfg: Config, w: World, from: Id, to: Id, steps: nat)
    requires Inv(cfg, w) && Reaches(w.db.tokens, from, to, steps)
    ensures steps > 0 ==> from < to
    ensures from in w.db.log.chain && to in w.db.log.chain && w.db.log.chain[from] == w.db.log.chain[to]
    decreases steps
  {
    if steps > 0 {
      var next := w.db.tokens[from].replacedBy.value;
      assert Linked(w.db.tokens, w.db.log.chain, w.db.log.rotatedBy, from, next);
      LinksGoForward(cfg, w, next, to, steps - 1);
    }
  }

  lemma {:induction false} ReachesLast(tokens: TokenTable, from: Id, to: Id, steps: nat) returns (last: Id)
    requires steps > 0 && Reaches(tokens, from, to, steps)
    ensures Reaches(tokens, from, last, steps - 1)
    ensures last in tokens && tokens[last].replacedBy == Some(to)
    decreases steps
  {
    if steps == 1 {
      last := from;
    } else {
      last := ReachesLast(tokens, tokens[from].replacedBy.value, to, steps - 1);
    }
  }

  /** Two chains that share a token are one chain: one start lies on the way from the other. */
  lemma {:induction false} ChainsNeverMerge(cfg: Config, w: World, a: Id, b: Id, to: Id, m: nat, n: nat)
    requires Inv(cfg, w) && m <= n
    requires Reaches(w.db.tokens, a, to, m) && Reaches(w.db.tokens, b, to, n)
    ensures Reaches(w.db.tokens, b, a, n - m)
    decreases m
  {
    if m > 0 {
      var x := ReachesLast(w.db.tokens, a, to, m);
      var y := ReachesLast(w.db.tokens, b, to, n);
      assert w.db.tokens[x].replacedBy == w.db.tokens[y].replacedBy;
      ChainsNeverMerge(cfg, w, a, b, x, m - 1, n - 1);
    }
  }

  /** Everything said of chains, in every state any interleaving of any requests reaches. */
  lemma ChainsInEveryRun(cfg: Config, start: Time, events: seq<Event>)
    ensures var tokens := Run(cfg, Init(start), events).db.tokens;
            // replaced tokens are revoked, and their successor is there
            && (forall i :: i in tokens && tokens[i].replacedBy.Some? ==>
                  tokens[i].revokedAt.Some? && tokens[i].replacedBy.value in tokens)
            // no two tokens share a successor
            && (forall i, j {:trigger tokens[i].replacedBy, tokens[j].replacedBy} ::
                  i in tokens && j in tokens && tokens[i].replacedBy.Some?
                  && tokens[i].replacedBy == tokens[j].replacedBy
                  ==> i == j)
            // no cycles
            && (forall i, steps :: steps > 0 ==> !Reaches(tokens, i, i, steps))
            // connected tokens are never both active
            && (forall i, j, steps :: Reaches(tokens, i, j, steps) && Active(tokens[i]) ==> i == j)
  {
    InitInv(cfg, start);
    RunKeeps(cfg, Init(start), events);
    var w := Run(cfg, Init(start), events);
    forall i | i in w.db.tokens && w.db.tokens[i].replacedBy.Some?
      ensures w.db.tokens[i].revokedAt.Some? && w.db.tokens[i].replacedBy.value in w.db.tokens
    {
      assert Linked(w.db.tokens, w.db.log.chain, w.db.log.rotatedBy, i, w.db.tokens[i].replacedBy.value);
    }
    forall i, steps: nat | steps > 0 ensures !Reaches(w.db.tokens, i, i, steps) {
      if Reaches(w.db.tokens, i, i, steps) {
        LinksGoForward(cfg, w, i, i, steps);
      }
    }
  }

  /**
    A chain is every token that came, over any number of rotations, from one created token.
    It never has two active tokens, even after its older rows were deleted.
   */
  lemma OneActiveTokenPerChain(cfg: Config, start: Time, events: seq<Event>, i: Id, j: Id)
    requires var db := Run(cfg, Init(start), events).db;
             && i in db.tokens && j in db.tokens && Active(db.tokens[i]) && Active(db.tokens[j])
             && i in db.log.chain && j in db.log.chain && db.log.chain[i] == db.log.chain[j]
    ensures i == j
  {
    InitInv(cfg, start);
    RunKeeps(cfg, Init(start), events);
  }

  /** A refresh token yields at most one new pair, over all requests that ever present it. */
  lemma OnePairPerRefreshToken(cfg: Config, start: Time, events: seq<Event>, r: ReqId, s: ReqId)
    requires var requests := Run(cfg, Init(start), events).requests;
             && r in requests && s in requests
             && requests[r].input.RefreshInput? && requests[s].input.RefreshInput?
             && requests[r].input.secret == requests[s].input.secret
             && requests[r].pc.Done? && requests[r].pc.outcome.Pair?
             && requests[s].pc.Done? && requests[s].pc.outcome.Pair?
    ensures r == s
  {
    InitInv(cfg, start);
    RunKeeps(cfg, Init(start), events);
    SamePair(cfg, Run(cfg, Init(start), events), r, s);
  }

  lemma SamePair(cfg: Config, w: World, r: ReqId, s: ReqId)
    requires Inv(cfg, w) && r in w.requests && s in w.requests
    requires var q, p := w.requests[r], w.requests[s];
             && q.input.RefreshInput? && p.input.RefreshInput? && q.input.secret == p.input.secret
             && q.pc.Done? && q.pc.outcome.Pair? && p.pc.Done? && p.pc.outcome.Pair?
    ensures r == s
  {
  }

  // ----- revocation is final

  /** From one state to a later one: revocation is not undone, and a link once made or ruled out stays so. */
  ghost predicate Final(before: TokenTable, after: TokenTable) {
    forall i :: i in before && i in after && before[i].revokedAt.Some? ==>
      after[i].revokedAt.Some? && after[i].replacedBy == before[i].replacedBy
  }

  lemma LawfulIsFinal(a: Db, b: Db)
    requires Lawful(a, b) && Books(a.supply, a.tokens, a.log.chain, a.log.rotatedBy)
    ensures Final(a.tokens, b.tokens)
    ensures forall i :: i in a.log.chain && i in b.tokens ==> i in a.tokens
    ensures forall i :: i in a.log.chain ==> i in b.log.chain
  {
    if !(Thinned(a.tokens, b.tokens, a.now) && b.log.chain == a.log.chain) {
      var r, effect :| Regular(a, effect) && b == Apply(a, r, effect);
      WriteIsFinal(a, r, effect);
    }
  }

  lemma WriteIsFinal(a: Db, r: ReqId, effect: Effect)
    requires Regular(a, effect) && Books(a.supply, a.tokens, a.log.chain, a.log.rotatedBy)
    ensures var b := Apply(a, r, effect);
            && Final(a.tokens, b.tokens)
            && (forall i :: i in a.log.chain && i in b.tokens ==> i in a.tokens)
            && (forall i :: i in a.log.chain ==> i in b.log.chain)
  {
  }

  lemma {:induction false} RevocationIsFinal(cfg: Config, w: World, events: seq<Event>)
    requires Inv(cfg, w)
    ensures Final(w.db.tokens, Run(cfg, w, events).db.tokens)
    ensures forall i :: i in w.db.log.chain && i in Run(cfg, w, events).db.tokens ==> i in w.db.tokens
    decreases events
  {
    if events != [] {
      var v := Step(cfg, w, events[0]);
      StepKeeps(cfg, w, events[0]);
      StepIsLawful(cfg, w, events[0]);
      LawfulIsFinal(w.db, v.db);
      RevocationIsFinal(cfg, v, events[1..]);
      forall i | i in w.db.tokens && i in Run(cfg, v, events[1..]).db.tokens ensures i in v.db.tokens {
        assert i in w.db.log.chain;
      }
    }
  }
}
