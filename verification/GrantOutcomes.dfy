/** What a request to the token endpoint comes to when no other request runs meanwhile. */
module GrantOutcomes {
  import opened Base
  import opened RefreshTokens
  import Codes = AuthCodes
  import opened Grants
  import opened GrantInvariant

  ghost function Turns(cfg: Config, w: World, r: ReqId, answer: Answer, n: nat): World
    decreases n
  {
    if n == 0 then w else Turns(cfg, Step(cfg, w, Turn(r, answer)), r, answer, n - 1)
  }

  /** No request takes more turns than this. */
  const ENOUGH := 7

  /** The request arrives and runs to its end, alone. */
  ghost function Alone(cfg: Config, w: World, r: ReqId, input: Input, answer: Answer): World {
    Turns(cfg, Step(cfg, w, Arrive(r, input)), r, answer, ENOUGH)
  }

  lemma {:induction false} DoneStays(cfg: Config, w: World, r: ReqId, answer: Answer, n: nat)
    requires r in w.requests && w.requests[r].pc.Done?
    ensures Turns(cfg, w, r, answer, n) == w
  {
    if n > 0 {
      var v := Step(cfg, w, Turn(r, answer));
      assert v.requests == w.requests;
      DoneStays(cfg, v, r, answer, n - 1);
    }
  }

  lemma OneTurn(cfg: Config, w: World, r: ReqId, answer: Answer, n: nat)
    requires n > 0
    ensures Turns(cfg, w, r, answer, n) == Turns(cfg, Step(cfg, w, Turn(r, answer)), r, answer, n - 1)
  {
  }

  /** Ids are secrets: the token, or the code, that a secret finds. */
  lemma Lookups(cfg: Config, w: World, secret: Secret)
    requires Inv(cfg, w)
    ensures secret in w.db.tokens ==> TokenWithHash(w.db.tokens, HashToken(secret)) == Some(secret)
    ensures secret !in w.db.tokens ==> TokenWithHash(w.db.tokens, HashToken(secret)) == None
    ensures secret in w.db.codes ==> CodeWithHash(w.db.codes, HashToken(secret)) == Some(secret)
    ensures secret !in w.db.codes ==> CodeWithHash(w.db.codes, HashToken(secret)) == None
  {
    if secret in w.db.tokens {
      assert w.db.tokens[secret].tokenHash == HashToken(secret);
    }
    if secret in w.db.codes {
      assert w.db.codes[secret].codeHash == HashToken(secret);
    }
  }

  /** The next draw is new to the table. */
  predicate NewDraw(db: Db) {
    db.supply !in db.tokens && forall i :: i in db.tokens ==> db.tokens[i].tokenHash != HashToken(db.supply)
  }

  lemma DrawsAreNew(cfg: Config, w: World)
    requires Inv(cfg, w)
    ensures NewDraw(w.db)
  {
  }

  ghost predicate EndsAs(v: World, r: ReqId, outcome: Outcome) {
    r in v.requests && v.requests[r].pc == Done(outcome)
  }

  /** The table with every token of the user stamped as revoked now, and no other row changed. */
  predicate FamilyStamped(before: TokenTable, after: TokenTable, userId: Id, now: Time) {
    && after.Keys == before.Keys
    && forall i :: i in before ==>
         after[i] == if before[i].userId == userId then before[i].(revokedAt := Some(now)) else before[i]
  }

  // ----- the client

  /** The service that owns the token or code, as the other tables know it. */
  function Owner(answer: Answer, serviceId: Id): Option<Service> {
    if answer.service.Some? && answer.service.value.id == serviceId then answer.service else None
  }

  /** A public client need not say who it is; any other says so and presents the secret behind the stored hash. */
  predicate Admitted(service: Service, client: Client) {
    && (client.id.None? || client.id.value == service.clientId)
    && (service.isPublic
        || (&& client.id.Some? && service.secretHash.Some? && client.secret.Some?
            && HashToken(client.secret.value) == service.secretHash.value))
  }

  /** Another client, however well it authenticates as itself, is told something else than one without its secret. */
  function Rebuff(service: Service, client: Client, wrongClient: Error): Error {
    if client.id.Some? && client.id.value != service.clientId then wrongClient else InvalidClient
  }

  lemma ClientErrorIs(service: Service, client: Client, wrongClient: Error)
    ensures TokenClientError(service, client, wrongClient) ==
            if Admitted(service, client) then None else Some(Rebuff(service, client, wrongClient))
  {
  }

  // ----- refreshing

  /** A token that is not there is refused as invalid, and nothing changes. */
  lemma UnknownTokenChangesNothing(cfg: Config, w: World, r: ReqId, secret: Secret, client: Client, answer: Answer)
    requires Inv(cfg, w) && r !in w.requests && secret !in w.db.tokens
    ensures var v := Alone(cfg, w, r, RefreshInput(secret, client), answer);
            v.db == w.db && EndsAs(v, r, Refused(InvalidRefreshToken))
  {
    var w0 := Step(cfg, w, Arrive(r, RefreshInput(secret, client)));
    Lookups(cfg, w, secret);
    OneTurn(cfg, w0, r, answer, ENOUGH);
    DoneStays(cfg, Step(cfg, w0, Turn(r, answer)), r, answer, ENOUGH - 1);
  }

  /** The client is asked for before anything else: with the wrong one even a replay revokes nothing. */
  lemma WrongClientChangesNothing(cfg: Config, w: World, r: ReqId, secret: Secret, client: Client, answer: Answer)
    requires Inv(cfg, w) && r !in w.requests && secret in w.db.tokens
    requires var service := Owner(answer, w.db.tokens[secret].serviceId);
             service.Some? ==> !Admitted(service.value, client)
    ensures var v := Alone(cfg, w, r, RefreshInput(secret, client), answer);
            var service := Owner(answer, w.db.tokens[secret].serviceId);
            && v.db == w.db
            && EndsAs(v, r, Refused(if service.None? then InvalidRefreshToken
                                    else Rebuff(service.value, client, InvalidGrant)))
  {
    var service := Owner(answer, w.db.tokens[secret].serviceId);
    if service.Some? {
      ClientErrorIs(service.value, client, InvalidGrant);
    }
    var w0 := Step(cfg, w, Arrive(r, RefreshInput(secret, client)));
    Lookups(cfg, w, secret);
    OneTurn(cfg, w0, r, answer, ENOUGH);
    var w1 := Step(cfg, w0, Turn(r, answer));
    assert w1.requests[r].pc == Found(secret, w.db.tokens[secret]) && w1.db == w.db;
    OneTurn(cfg, w1, r, answer, ENOUGH - 1);
    DoneStays(cfg, Step(cfg, w1, Turn(r, answer)), r, answer, ENOUGH - 2);
  }

  /** The state in which the presented token has been found and its client authenticated. */
  lemma ReachesAuthenticated(cfg: Config, w: World, r: ReqId, secret: Secret, client: Client, answer: Answer)
    returns (v: World)
    requires Inv(cfg, w) && r !in w.requests && secret in w.db.tokens
    requires var service := Owner(answer, w.db.tokens[secret].serviceId);
             service.Some? && Admitted(service.value, client)
    ensures v.db == w.db && r in v.requests && v.requests[r].input == RefreshInput(secret, client)
    ensures v.requests[r].pc == Authenticated(secret, w.db.tokens[secret])
    ensures Alone(cfg, w, r, RefreshInput(secret, client), answer) == Turns(cfg, v, r, answer, ENOUGH - 2)
  {
    ClientErrorIs(answer.service.value, client, InvalidGrant);
    var w0 := Step(cfg, w, Arrive(r, RefreshInput(secret, client)));
    Lookups(cfg, w, secret);
    OneTurn(cfg, w0, r, answer, ENOUGH);
    var w1 := Step(cfg, w0, Turn(r, answer));
    assert w1.requests[r].pc == Found(secret, w.db.tokens[secret]) && w1.db == w.db;
    OneTurn(cfg, w1, r, answer, ENOUGH - 1);
    v := Step(cfg, w1, Turn(r, answer));
  }

  /** The row is replaced, and was revoked less than a grace period ago; a grace period of zero forgives nothing. */
  predicate Forgiven(cfg: Config, row: Token, now: Time) {
    && cfg.reuseGrace > 0 && row.replacedBy.Some?
    && row.revokedAt.Some? && now < row.revokedAt.value + cfg.reuseGrace
  }

  /** How a replay ends: within the grace period quietly, and otherwise as theft, with the whole family revoked. */
  ghost predicate Settled(cfg: Config, w: World, v: World, r: ReqId, row: Option<Token>, userId: Id) {
    if row.Some? && Forgiven(cfg, row.value, w.db.now)
    then EndsAs(v, r, Refused(InvalidRefreshToken)) && v.db == w.db
    else && EndsAs(v, r, Refused(RefreshTokenReuse)) && v.db == w.db.(tokens := v.db.tokens)
         && FamilyStamped(w.db.tokens, v.db.tokens, userId, w.db.now)
  }

  /**
    A revoked token, expired or not, is theft: the answer is reuse and every token of the
    user is revoked. Only within the grace period of a rotation the retry is refused and
    nothing changes.
   */
  lemma ReplayedTokenRevokesTheFamily(cfg: Config, w: World, r: ReqId, secret: Secret, client: Client, answer: Answer)
    requires Inv(cfg, w) && r !in w.requests && secret in w.db.tokens && w.db.tokens[secret].revokedAt.Some?
    requires var service := Owner(answer, w.db.tokens[secret].serviceId);
             service.Some? && Admitted(service.value, client)
    ensures Settled(cfg, w, Alone(cfg, w, r, RefreshInput(secret, client), answer), r, Some(w.db.tokens[secret]),
                    w.db.tokens[secret].userId)
  {
    var v := ReachesAuthenticated(cfg, w, r, secret, client, answer);
    if Forgiven(cfg, w.db.tokens[secret], w.db.now) {
      OneTurn(cfg, v, r, answer, ENOUGH - 2);
      DoneStays(cfg, Step(cfg, v, Turn(r, answer)), r, answer, ENOUGH - 3);
    } else {
      ReuseRevokes(cfg, v, r, answer);
    }
  }

  /**
    A request that lost the rotation to another looks at the row again, and settles in the
    same way by what it finds; a row that is gone forgives nothing.
   */
  lemma LostRaceIsSettled(cfg: Config, w: World, r: ReqId, answer: Answer)
    requires Inv(cfg, w) && r in w.requests && w.requests[r].pc.LostRace?
    ensures var id, row := w.requests[r].pc.id, w.requests[r].pc.row;
            Settled(cfg, w, Turns(cfg, w, r, answer, 2), r, if id in w.db.tokens then Some(w.db.tokens[id]) else None,
                    row.userId)
  {
    assert RequestOk(cfg, w.db, r, w.requests[r]);
    Lookups(cfg, w, w.requests[r].pc.id);
    LooksAgain(cfg, w, r, answer);
  }

  lemma LooksAgain(cfg: Config, w: World, r: ReqId, answer: Answer)
    requires r in w.requests && w.requests[r].pc.LostRace?
    requires var id, row := w.requests[r].pc.id, w.requests[r].pc.row;
             TokenWithHash(w.db.tokens, row.tokenHash) == if id in w.db.tokens then Some(id) else None
    ensures var id, row := w.requests[r].pc.id, w.requests[r].pc.row;
            Settled(cfg, w, Turns(cfg, w, r, answer, 2), r, if id in w.db.tokens then Some(w.db.tokens[id]) else None,
                    row.userId)
  {
    var v := Step(cfg, w, Turn(r, answer));
    OneTurn(cfg, w, r, answer, 2);
    OneTurn(cfg, v, r, answer, 1);
    if v.requests[r].pc.Done? {
      DoneStays(cfg, v, r, answer, 1);
    }
  }

  lemma ReuseRevokes(cfg: Config, v: World, r: ReqId, answer: Answer)
    requires r in v.requests && v.requests[r].pc.Authenticated?
    requires v.requests[r].pc.row.revokedAt.Some? && !Forgiven(cfg, v.requests[r].pc.row, v.db.now)
    ensures Settled(cfg, v, Turns(cfg, v, r, answer, ENOUGH - 2), r, Some(v.requests[r].pc.row),
                    v.requests[r].pc.row.userId)
  {
    OneTurn(cfg, v, r, answer, ENOUGH - 2);
    var v1 := Step(cfg, v, Turn(r, answer));
    OneTurn(cfg, v1, r, answer, ENOUGH - 3);
    DoneStays(cfg, Step(cfg, v1, Turn(r, answer)), r, answer, ENOUGH - 4);
  }

  /** How an active token fares: expired or without its subject it stays as it was, otherwise it rotates. */
  predicate Refreshed(cfg: Config, w: World, v: World, r: ReqId, secret: Secret, answer: Answer)
    requires secret in w.db.tokens
  {
    r in v.requests
    && var row, outcome := w.db.tokens[secret], v.requests[r].pc;
    if row.expiresAt <= w.db.now then outcome == Done(Refused(InvalidRefreshToken)) && v.db == w.db
    else if !answer.subjectOk then outcome == Done(Refused(SubjectRefused)) && v.db == w.db
    else
      var n := w.db.supply;
      var next := Token(row.userId, row.serviceId, HashToken(n), w.db.now + cfg.refreshTtl, None, None);
      && outcome == Done(Pair(n)) && n !in w.db.tokens
      && v.db.tokens == w.db.tokens[secret := row.(revokedAt := Some(w.db.now), replacedBy := Some(n))][n := next]
      && v.db.codes == w.db.codes
  }

  /** An active token gives a pair exactly when it has not expired and the subject checks pass. */
  lemma ActiveTokenRotates(cfg: Config, w: World, r: ReqId, secret: Secret, client: Client, answer: Answer)
    requires Inv(cfg, w) && r !in w.requests && secret in w.db.tokens && Active(w.db.tokens[secret])
    requires var service := Owner(answer, w.db.tokens[secret].serviceId);
             service.Some? && Admitted(service.value, client)
    ensures Refreshed(cfg, w, Alone(cfg, w, r, RefreshInput(secret, client), answer), r, secret, answer)
  {
    var v := ReachesAuthenticated(cfg, w, r, secret, client, answer);
    DrawsAreNew(cfg, w);
    Refreshes(cfg, w, v, r, answer, secret);
  }

  lemma Refreshes(cfg: Config, w: World, v: World, r: ReqId, answer: Answer, secret: Secret)
    requires NewDraw(w.db) && secret in w.db.tokens && Active(w.db.tokens[secret]) && secret in w.db.log.chain
    requires v.db == w.db && r in v.requests && v.requests[r].pc == Authenticated(secret, w.db.tokens[secret])
    ensures Refreshed(cfg, w, Turns(cfg, v, r, answer, ENOUGH - 2), r, secret, answer)
  {
    OneTurn(cfg, v, r, answer, ENOUGH - 2);
    var v1 := Step(cfg, v, Turn(r, answer));
    if w.db.tokens[secret].expiresAt <= w.db.now {
      DoneStays(cfg, v1, r, answer, ENOUGH - 3);
    } else {
      OneTurn(cfg, v1, r, answer, ENOUGH - 3);
      var v2 := Step(cfg, v1, Turn(r, answer));
      if !answer.subjectOk {
        DoneStays(cfg, v2, r, answer, ENOUGH - 4);
      } else {
        Rotates(cfg, w, v2, r, answer, secret);
      }
    }
  }

  lemma Rotates(cfg: Config, w: World, v: World, r: ReqId, answer: Answer, secret: Secret)
    requires NewDraw(w.db) && secret in w.db.tokens && Active(w.db.tokens[secret]) && r in v.requests
    requires secret in w.db.log.chain && v.db == w.db.(supply := w.db.supply + 1)
    requires v.requests[r].pc ==
             Minted(secret, w.db.tokens[secret],
                    NextToken(cfg, w.db, w.db.tokens[secret].userId, w.db.tokens[secret].serviceId))
    ensures var end := Turns(cfg, v, r, answer, ENOUGH - 4);
            var n := w.db.supply;
            && EndsAs(end, r, Pair(n)) && n !in w.db.tokens && end.db.codes == w.db.codes
            && end.db.tokens == Rotated(w.db.tokens, secret, v.requests[r].pc.next, w.db.now)
  {
    OneTurn(cfg, v, r, answer, ENOUGH - 4);
    DoneStays(cfg, Step(cfg, v, Turn(r, answer)), r, answer, ENOUGH - 5);
  }

  // ----- issuing

  /** The table with a fresh active token for the user and the service, good for one lifetime. */
  predicate OneIssued(cfg: Config, before: Db, after: Db, userId: Id, serviceId: Id) {
    var n := before.supply;
    && n !in before.tokens
    && after.tokens ==
         before.tokens[n := Token(userId, serviceId, HashToken(n), before.now + cfg.refreshTtl, None, None)]
  }

  /** A session or a password asks for a pair: it gets one exactly when the subject checks pass. */
  lemma IssueGivesOneToken(cfg: Config, w: World, r: ReqId, userId: Id, serviceId: Id, answer: Answer)
    requires Inv(cfg, w) && r !in w.requests
    ensures var v := Alone(cfg, w, r, IssueInput(userId, serviceId), answer);
            if answer.subjectOk
            then EndsAs(v, r, Pair(w.db.supply)) && OneIssued(cfg, w.db, v.db, userId, serviceId)
                 && v.db.codes == w.db.codes
            else EndsAs(v, r, Refused(SubjectRefused)) && v.db == w.db
  {
    DrawsAreNew(cfg, w);
    Issues(cfg, w, r, userId, serviceId, answer);
  }

  lemma Issues(cfg: Config, w: World, r: ReqId, userId: Id, serviceId: Id, answer: Answer)
    requires NewDraw(w.db) && r !in w.requests
    ensures var v := Alone(cfg, w, r, IssueInput(userId, serviceId), answer);
            if answer.subjectOk
            then EndsAs(v, r, Pair(w.db.supply)) && OneIssued(cfg, w.db, v.db, userId, serviceId)
                 && v.db.codes == w.db.codes
            else EndsAs(v, r, Refused(SubjectRefused)) && v.db == w.db
  {
    var w0 := Step(cfg, w, Arrive(r, IssueInput(userId, serviceId)));
    OneTurn(cfg, w0, r, answer, ENOUGH);
    var w1 := Step(cfg, w0, Turn(r, answer));
    if !answer.subjectOk {
      DoneStays(cfg, w1, r, answer, ENOUGH - 1);
    } else {
      Creates(cfg, w.db, w1, r, userId, serviceId, answer);
      OneTurn(cfg, w1, r, answer, ENOUGH - 1);
      DoneStays(cfg, Step(cfg, w1, Turn(r, answer)), r, answer, ENOUGH - 2);
    }
  }

  lemma Creates(cfg: Config, db: Db, v: World, r: ReqId, userId: Id, serviceId: Id, answer: Answer)
    requires NewDraw(db) && r in v.requests && v.db == db.(supply := db.supply + 1)
    requires v.requests[r].pc == Creating(None, NextToken(cfg, db, userId, serviceId))
    ensures var end := Step(cfg, v, Turn(r, answer));
            && EndsAs(end, r, Pair(db.supply)) && OneIssued(cfg, db, end.db, userId, serviceId)
            && end.db.codes == db.codes
  {
    assert Insertable(v.db.tokens, v.requests[r].pc.next);
  }

  // ----- revoking

  /** How a revocation ends: the wrong client changes nothing, any other ends with the token revoked. */
  ghost predicate TakenBack(w: World, v: World, r: ReqId, secret: Secret, client: Client, answer: Answer) {
    if secret !in w.db.tokens then EndsAs(v, r, Acknowledged) && v.db == w.db
    else
      var row, service := w.db.tokens[secret], Owner(answer, w.db.tokens[secret].serviceId);
      if service.Some? && !Admitted(service.value, client)
      then EndsAs(v, r, Refused(Rebuff(service.value, client, InvalidClient))) && v.db == w.db
      else EndsAs(v, r, Acknowledged)
           && v.db == w.db.(tokens := if row.revokedAt.Some? then w.db.tokens
                                      else w.db.tokens[secret := row.(revokedAt := Some(w.db.now))])
  }

  /** An unknown token is acknowledged; a known one of the right client is revoked, and no other row changes. */
  lemma RevocationTakesEffect(cfg: Config, w: World, r: ReqId, secret: Secret, client: Client, answer: Answer)
    requires Inv(cfg, w) && r !in w.requests
    ensures TakenBack(w, Alone(cfg, w, r, RevokeInput(secret, client), answer), r, secret, client, answer)
  {
    var w0 := Step(cfg, w, Arrive(r, RevokeInput(secret, client)));
    Lookups(cfg, w, secret);
    OneTurn(cfg, w0, r, answer, ENOUGH);
    var w1 := Step(cfg, w0, Turn(r, answer));
    if secret !in w.db.tokens {
      DoneStays(cfg, w1, r, answer, ENOUGH - 1);
    } else {
      assert w1.requests[r].pc == Found(secret, w.db.tokens[secret]) && w1.db == w.db;
      RevokesFound(cfg, w1, r, answer, secret);
    }
  }

  lemma RevokesFound(cfg: Config, w: World, r: ReqId, answer: Answer, secret: Secret)
    requires secret in w.db.tokens && r in w.requests && w.requests[r].pc == Found(secret, w.db.tokens[secret])
    requires w.requests[r].input.RevokeInput?
    ensures TakenBack(w, Turns(cfg, w, r, answer, ENOUGH - 1), r, secret, w.requests[r].input.client, answer)
  {
    var service := Owner(answer, w.db.tokens[secret].serviceId);
    if service.Some? {
      ClientErrorIs(service.value, w.requests[r].input.client, InvalidClient);
    }
    OneTurn(cfg, w, r, answer, ENOUGH - 1);
    var v := Step(cfg, w, Turn(r, answer));
    if v.requests[r].pc.Done? {
      DoneStays(cfg, v, r, answer, ENOUGH - 2);
    } else {
      OneTurn(cfg, v, r, answer, ENOUGH - 2);
      DoneStays(cfg, Step(cfg, v, Turn(r, answer)), r, answer, ENOUGH - 3);
    }
  }

  // ----- exchanging a code

  /** Another client's code, or one whose service is gone, is as good as none. */
  predicate ForThisClient(record: Codes.Code, input: Input, answer: Answer) {
    && input.ExchangeInput?
    && Owner(answer, record.serviceId).Some? && Owner(answer, record.serviceId).value.clientId == input.clientId
  }

  predicate SecretFits(service: Service, secret: Option<Secret>) {
    || service.isPublic
    || (service.secretHash.Some? && secret.Some? && HashToken(secret.value) == service.secretHash.value)
  }

  /** What an unconsumed code of this client is refused for: time, redirect URI, secret and verifier, in this order. */
  function Objection(record: Codes.Code, input: Input, answer: Answer, now: Time): Option<Error>
    requires ForThisClient(record, input, answer)
  {
    if now >= record.expiresAt || input.redirectUri != record.redirectUri then Some(InvalidGrant)
    else if !SecretFits(Owner(answer, record.serviceId).value, input.clientSecret) then Some(InvalidClient)
    else if record.challenge != Codes.S256(input.verifier) then Some(InvalidGrant)
    else None
  }

  /** The code is used up, and a token of its user and service is issued exactly when the subject checks pass. */
  ghost predicate Redeemed(cfg: Config, w: World, v: World, r: ReqId, code: Id, answer: Answer)
    requires code in w.db.codes
  {
    && v.db.codes == w.db.codes[code := w.db.codes[code].(consumedAt := Some(w.db.now))]
    && if answer.subjectOk
       then EndsAs(v, r, Pair(w.db.supply))
            && OneIssued(cfg, w.db, v.db, w.db.codes[code].userId, w.db.codes[code].serviceId)
       else EndsAs(v, r, Refused(SubjectRefused)) && v.db.tokens == w.db.tokens
  }

  /** How an exchange ends. */
  ghost predicate Exchanged(cfg: Config, w: World, v: World, r: ReqId, input: Input, answer: Answer)
    requires input.ExchangeInput?
  {
    if input.code !in w.db.codes || !ForThisClient(w.db.codes[input.code], input, answer)
    then EndsAs(v, r, Refused(InvalidGrant)) && v.db == w.db
    else
      var record := w.db.codes[input.code];
      if record.consumedAt.Some?
      then EndsAs(v, r, Refused(InvalidGrant)) && v.db == w.db.(tokens := v.db.tokens)
           && FamilyStamped(w.db.tokens, v.db.tokens, record.userId, w.db.now)
      else if Objection(record, input, answer, w.db.now).Some?
      then EndsAs(v, r, Refused(Objection(record, input, answer, w.db.now).value)) && v.db == w.db
      else Redeemed(cfg, w, v, r, input.code, answer)
  }

  /**
    A code of the right client: a consumed one revokes the family whatever else is wrong
    with the request, an unconsumed one is redeemed exactly when everything matches in time.
    Anything else is refused and changes nothing.
   */
  lemma CodeIsRedeemedOrReplayed(cfg: Config, w: World, r: ReqId, input: Input, answer: Answer)
    requires Inv(cfg, w) && r !in w.requests && input.ExchangeInput?
    ensures Exchanged(cfg, w, Alone(cfg, w, r, input, answer), r, input, answer)
  {
    var w0 := Step(cfg, w, Arrive(r, input));
    Lookups(cfg, w, input.code);
    OneTurn(cfg, w0, r, answer, ENOUGH);
    var w1 := Step(cfg, w0, Turn(r, answer));
    if input.code !in w.db.codes {
      DoneStays(cfg, w1, r, answer, ENOUGH - 1);
    } else {
      assert w1.requests[r].pc == CodeFound(input.code, w.db.codes[input.code]) && w1.requests[r].input == input;
      DrawsAreNew(cfg, w);
      Judged(cfg, w, w1, r, input, answer);
    }
  }

  lemma Judged(cfg: Config, w: World, v: World, r: ReqId, input: Input, answer: Answer)
    requires NewDraw(w.db) && input.ExchangeInput? && input.code in w.db.codes
    requires v.db == w.db && r in v.requests
    requires v.requests[r].pc == CodeFound(input.code, w.db.codes[input.code]) && v.requests[r].input == input
    ensures Exchanged(cfg, w, Turns(cfg, v, r, answer, ENOUGH - 1), r, input, answer)
  {
    OneTurn(cfg, v, r, answer, ENOUGH - 1);
    var v1 := Step(cfg, v, Turn(r, answer));
    if v1.requests[r].pc.Done? {
      DoneStays(cfg, v1, r, answer, ENOUGH - 2);
    } else if w.db.codes[input.code].consumedAt.Some? {
      OneTurn(cfg, v1, r, answer, ENOUGH - 2);
      DoneStays(cfg, Step(cfg, v1, Turn(r, answer)), r, answer, ENOUGH - 3);
    } else {
      Redeems(cfg, w, v1, r, answer, input.code);
    }
  }

  lemma Redeems(cfg: Config, w: World, v: World, r: ReqId, answer: Answer, code: Id)
    requires NewDraw(w.db) && code in w.db.codes && w.db.codes[code].consumedAt.None? && v.db == w.db
    requires r in v.requests && v.requests[r].pc == CodeChecked(code, w.db.codes[code])
    ensures Redeemed(cfg, w, Turns(cfg, v, r, answer, ENOUGH - 2), r, code, answer)
  {
    OneTurn(cfg, v, r, answer, ENOUGH - 2);
    var v1 := Step(cfg, v, Turn(r, answer));
    assert v1.requests[r].pc == CodeRedeemed(code, w.db.codes[code]);
    OneTurn(cfg, v1, r, answer, ENOUGH - 3);
    var v2 := Step(cfg, v1, Turn(r, answer));
    if !answer.subjectOk {
      DoneStays(cfg, v2, r, answer, ENOUGH - 4);
    } else {
      FirstInserted(cfg, w, v2, r, answer, code);
      OneTurn(cfg, v2, r, answer, ENOUGH - 4);
      DoneStays(cfg, Step(cfg, v2, Turn(r, answer)), r, answer, ENOUGH - 5);
    }
  }

  lemma FirstInserted(cfg: Config, w: World, v: World, r: ReqId, answer: Answer, code: Id)
    requires NewDraw(w.db) && code in w.db.codes && answer.subjectOk && r in v.requests
    requires v.db.tokens == w.db.tokens
    requires v.db.codes == w.db.codes[code := w.db.codes[code].(consumedAt := Some(w.db.now))]
    requires v.requests[r].pc ==
               Creating(Some(code), NextToken(cfg, w.db, w.db.codes[code].userId, w.db.codes[code].serviceId))
    ensures Redeemed(cfg, w, Step(cfg, v, Turn(r, answer)), r, code, answer)
  {
    assert Insertable(v.db.tokens, v.requests[r].pc.next);
  }

  /** An exchange that passed its checks but finds the code consumed by another is a replay like any other. */
  lemma LostCodeRevokesTheFamily(cfg: Config, w: World, r: ReqId, answer: Answer)
    requires r in w.requests && w.requests[r].pc.CodeChecked?
    requires var code := w.requests[r].pc.code; code !in w.db.codes || w.db.codes[code].consumedAt.Some?
    ensures var v := Turns(cfg, w, r, answer, 2);
            && EndsAs(v, r, Refused(InvalidGrant)) && v.db == w.db.(tokens := v.db.tokens)
            && FamilyStamped(w.db.tokens, v.db.tokens, w.requests[r].pc.record.userId, w.db.now)
  {
    OneTurn(cfg, w, r, answer, 2);
    OneTurn(cfg, Step(cfg, w, Turn(r, answer)), r, answer, 1);
  }

  // ----- what else changes the tables

  /** What an event that is no request's turn writes: codes are issued, users revoked, purged and pruned. */
  ghost predicate WritesAsMeant(cfg: Config, before: Db, after: Db, e: Event) {
    match e
    case Tick(elapsed) => after == before.(now := before.now + elapsed)
    case IssueCode(userId, serviceId, redirectUri, challenge) =>
      var n := before.supply;
      && after == before.(codes := after.codes, supply := n + 1, log := after.log)
      && after.codes ==
           before.codes[n := Codes.Code(userId, serviceId, HashToken(n), redirectUri, challenge,
                                        before.now + cfg.codeTtl, None)]
    case RevokeUser(userId) =>
      after == before.(tokens := after.tokens) && FamilyStamped(before.tokens, after.tokens, userId, before.now)
    case PurgeTokens(userId) =>
      && after == before.(tokens := after.tokens)
      && after.tokens == map i | i in before.tokens && before.tokens[i].userId != userId :: before.tokens[i]
    case PurgeCodes(userId) =>
      && after == before.(codes := after.codes)
      && after.codes == map c | c in before.codes && before.codes[c].userId != userId :: before.codes[c]
    case PruneTokens(cutoff) =>
      && after == before.(tokens := after.tokens)
      && after.tokens ==
           if cutoff > before.now - cfg.retention then before.tokens
           else map i | i in before.tokens && before.tokens[i].expiresAt >= cutoff :: before.tokens[i]
    case PruneCodes(cutoff) =>
      && after == before.(codes := after.codes)
      && after.codes ==
           if cutoff > before.now - cfg.retention then before.codes
           else map c | c in before.codes && before.codes[c].expiresAt >= cutoff :: before.codes[c]
    case _ => after == before
  }

  /** The rest of the server, and time, do no more and no less than that. */
  lemma OutsideWritesAsMeant(cfg: Config, w: World, e: Event)
    requires !e.Turn?
    ensures WritesAsMeant(cfg, w.db, Step(cfg, w, e).db, e)
  {
  }
}
