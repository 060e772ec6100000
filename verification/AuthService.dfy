/**
  A request handler of the auth service over the real repositories: between two awaits it
  makes one repository call, and other handlers may run in between. Each turn is the step
  the transition system takes, whatever the tables hold when it starts.
 */
module AuthService {
  import opened Base
  import opened RefreshTokens
  import opened Grants
  import Codes = AuthCodes
  import Pruning

  class Handler {
    const cfg: Config
    const r: ReqId
    const tokens: RefreshTokenRepository
    const codes: Codes.AuthCodeRepository
    var request: Request

    constructor (cfg: Config, r: ReqId, tokens: RefreshTokenRepository, codes: Codes.AuthCodeRepository, input: Input)
      ensures this.cfg == cfg && this.r == r && this.tokens == tokens && this.codes == codes
      ensures request == Request(input, None, None, Start)
    {
      this.cfg, this.r, this.tokens, this.codes := cfg, r, tokens, codes;
      request := Request(input, None, None, Start);
    }

    /** The repositories hold the tables of `db`, in which a lookup has one possible answer. */
    ghost predicate Shows(db: Db)
      reads tokens, codes
    {
      db.tokens == tokens.byId && db.codes == codes.byId && Pruning.OwnHashes(db)
    }

    ghost predicate Holds(db: Db)
      reads tokens, codes
    {
      db.tokens == tokens.byId && db.codes == codes.byId
    }

    method Begin(ghost db: Db, now: Time, draw: nat, answer: Answer)
      requires Shows(db) && request.pc.Start? && now == db.now && draw == db.supply
      modifies this
      ensures var move := Advance(cfg, db, old(request), answer);
              request == move.request && Holds(Apply(db, r, move.effect))
    {
      match request.input {
        case RefreshInput(secret, _) => FindToken(db, secret, Refused(InvalidRefreshToken));
        case RevokeInput(secret, _) => FindToken(db, secret, Acknowledged);
        case ExchangeInput(code, _, _, _, _) => {
          var found := codes.FindByCodeHash(HashToken(code));
          OneCode(db, HashToken(code));
          request := if found.None? then request.(pc := Done(Refused(InvalidGrant)))
                     else request.(subject := Some(found.value.0), pc := CodeFound(found.value.0, found.value.1));
        }
        case IssueInput(userId, serviceId) => {
          var next := NewToken(draw, userId, serviceId, HashToken(draw), now + cfg.refreshTtl);
          request := request.(pc := if answer.subjectOk then Creating(None, next) else Done(Refused(SubjectRefused)));
        }
      }
    }

    method FindToken(ghost db: Db, secret: Secret, unknown: Outcome)
      requires Shows(db)
      modifies this
      ensures request == Grants.FindToken(db, old(request), secret, unknown).request
    {
      var found := tokens.FindByHash(HashToken(secret));
      OneToken(db, HashToken(secret));
      request := if found.None? then request.(pc := Done(unknown))
                 else request.(subject := Some(found.value.0), pc := Found(found.value.0, found.value.1));
    }

    /** The atomic rotation: when it is lost the handler goes on to look at the token again. */
    method Rotate(ghost db: Db, now: Time)
      requires Shows(db) && request.pc.Minted? && now == db.now
      modifies this, tokens
      ensures var move := MintedMove(db, old(request), old(request).pc.id, old(request).pc.row, old(request).pc.next);
              request == move.request && Holds(Apply(db, r, move.effect))
    {
      var id, row, next := request.pc.id, request.pc.row, request.pc.next;
      var rotation := tokens.Rotate(id, next, now);
      match rotation {
        case Won => request := request.(pc := Done(Pair(next.id)));
        case Lost => request := request.(pc := LostRace(id, row));
        case DuplicateKey => request := request.(pc := Done(Refused(Error.DuplicateKey)));
      }
    }

    /** Another request won the rotation: a retry within the grace period is forgiven, anything else is theft. */
    method Reconsider(ghost db: Db, now: Time)
      requires Shows(db) && request.pc.LostRace? && now == db.now
      modifies this
      ensures request == LostRaceMove(cfg, db, old(request), old(request).pc.row).request
    {
      var row := request.pc.row;
      var again := tokens.FindByHash(row.tokenHash);
      OneToken(db, row.tokenHash);
      if again.Some? && JustRotated(cfg, again.value.1, now) {
        request := request.(pc := Done(Refused(InvalidRefreshToken)));
      } else {
        request := request.(pc := MustRevokeAll(row.userId, RefreshTokenReuse));
      }
    }

    method Redeem(ghost db: Db, now: Time)
      requires Shows(db) && request.pc.CodeChecked? && now == db.now
      modifies this, codes
      ensures var move := CodeCheckedMove(db, old(request), old(request).pc.code, old(request).pc.record);
              request == move.request && Holds(Apply(db, r, move.effect))
    {
      var code, record := request.pc.code, request.pc.record;
      var won := codes.Consume(code, now);
      request := request.(pc := if won then CodeRedeemed(code, record) else MustRevokeAll(record.userId, InvalidGrant));
    }

    method Insert(ghost db: Db)
      requires Shows(db) && request.pc.Creating?
      modifies this, tokens
      ensures var move := CreatingMove(db, old(request), old(request).pc.from, old(request).pc.next);
              request == move.request && Holds(Apply(db, r, move.effect))
    {
      var next := request.pc.next;
      var ok := tokens.Create(next);
      request := request.(pc := Done(if ok then Pair(next.id) else Refused(Error.DuplicateKey)));
    }

    method Revoke(ghost db: Db, now: Time)
      requires Shows(db) && (request.pc.MustRevoke? || request.pc.MustRevokeAll?) && now == db.now
      modifies this, tokens
      ensures var q := old(request);
              if q.pc.MustRevoke?
              then request == q.(pc := Done(Acknowledged)) && Holds(Apply(db, r, Effect.Revoke(q.pc.id)))
              else request == q.(pc := Done(Refused(q.pc.error))) && Holds(Apply(db, r, RevokeAll(q.pc.userId)))
    {
      if request.pc.MustRevoke? {
        tokens.RevokeOne(request.pc.id, now);
        request := request.(pc := Done(Acknowledged));
      } else {
        tokens.RevokeAllForUser(request.pc.userId, now);
        request := request.(pc := Done(Refused(request.pc.error)));
      }
    }

    /** The checks that read only what the handler remembers, the clock and the other tables. */
    method Decide(ghost db: Db, now: Time, draw: nat, answer: Answer)
      requires Shows(db) && now == db.now && draw == db.supply
      requires request.pc.Found? || request.pc.Authenticated? || request.pc.Live? || request.pc.CodeFound?
               || request.pc.CodeRedeemed?
      modifies this
      ensures var move := Advance(cfg, db, old(request), answer);
              request == move.request && Holds(Apply(db, r, move.effect))
    {
      var local := Db(now, draw, map[], map[], Log(map[], map[], map[], map[]));
      match request.pc {
        case Found(id, row) => request := FoundMove(request, id, row, answer).request;
        case Authenticated(id, row) => request := AuthenticatedMove(cfg, local, request, id, row).request;
        case Live(id, row) => request := LiveMove(cfg, local, request, id, row, answer).request;
        case CodeFound(code, record) => request := CodeFoundMove(local, request, code, record, answer).request;
        case CodeRedeemed(code, record) =>
          request := CodeRedeemedMove(cfg, local, request, code, record, answer).request;
        case _ =>
      }
    }

    /** One turn of the handler is one step of the transition system. */
    method Turn(ghost db: Db, now: Time, draw: nat, answer: Answer)
      requires Shows(db) && now == db.now && draw == db.supply
      modifies this, tokens, codes
      ensures var move := Advance(cfg, db, old(request), answer);
              request == move.request && Holds(Apply(db, r, move.effect))
    {
      if request.pc.Start? {
        Begin(db, now, draw, answer);
      } else if request.pc.Minted? {
        Rotate(db, now);
      } else if request.pc.LostRace? {
        Reconsider(db, now);
      } else if request.pc.CodeChecked? {
        Redeem(db, now);
      } else if request.pc.Creating? {
        Insert(db);
      } else if request.pc.MustRevoke? || request.pc.MustRevokeAll? {
        Revoke(db, now);
      } else if !request.pc.Done? {
        Decide(db, now, draw, answer);
      }
    }
  }

  lemma OneToken(db: Db, hash: Digest)
    requires Pruning.OwnHashes(db)
    ensures forall i :: i in db.tokens && db.tokens[i].tokenHash == hash ==> TokenWithHash(db.tokens, hash) == Some(i)
  {
  }

  lemma OneCode(db: Db, hash: Digest)
    requires Pruning.OwnHashes(db)
    ensures forall c :: c in db.codes && db.codes[c].codeHash == hash ==> CodeWithHash(db.codes, hash) == Some(c)
  {
  }
}
