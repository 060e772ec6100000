/** A request handler of the passkey service over the real repository, one repository call a turn. */
module PasskeyService {
  import opened Base
  import opened Rows
  import opened Passkeys
  import opened PasskeyRaces

  class Handler {
    const r: ReqId
    const passkeys: PasskeyRepository
    var request: Request

    constructor (r: ReqId, passkeys: PasskeyRepository, input: Input)
      ensures this.r == r && this.passkeys == passkeys && request == Request(input, None, Pc.Start)
    {
      this.r, this.passkeys := r, passkeys;
      request := Request(input, None, Pc.Start);
    }

    ghost predicate Shows(db: Db)
      reads passkeys
    {
      db.rows == passkeys.rows && db.challenges == passkeys.challenges
    }

    /** The challenge handed to the WebAuthn library is consumed by checking it. */
    method Check(ghost db: Db, now: Time, challenge: Secret, purpose: Purpose, forUser: Option<Id>, passed: Pc,
                 answer: Answer)
      requires Shows(db) && now == db.now
      modifies this, passkeys
      ensures var move := CheckMove(db, old(request), challenge, purpose, forUser, passed, answer);
              request == move.request && Shows(Apply(db, r, move.effect))
    {
      if !answer.callsBack {
        request := request.(pc := Done(Invalid));
        return;
      }
      var won := passkeys.ConsumeChallenge(HashToken(challenge), purpose, forUser, now);
      if !won {
        request := request.(pc := Done(Invalid));
        return;
      }
      request := request.(used := Some(HashToken(challenge)), pc := if answer.verified then passed else Done(Invalid));
    }

    /** Count, look the credential up, insert; a lost insert is looked at again rather than guessed at. */
    method Register(ghost db: Db, draw: nat, answer: Answer)
      requires Shows(db) && draw == db.supply && request.input.RegisterInput?
      modifies this, passkeys
      ensures var move := RegisterMove(db, old(request), answer);
              request == move.request && Shows(Apply(db, r, move.effect))
    {
      var userId, credential := request.input.userId, request.input.credential;
      match request.pc {
        case Verified => {
          var owned := passkeys.ListForUser(userId);
          request := request.(pc := if |owned| >= MAX_PASSKEYS then Done(LimitReached) else BelowLimit);
        }
        case BelowLimit => {
          var holder := passkeys.FindByCredentialHash(credential);
          request := request.(pc := if holder.Some? then Done(AlreadyRegistered) else Inserting);
        }
        case Inserting => {
          var result := passkeys.Create(Passkey(draw, userId, credential, answer.counter, None));
          request := request.(pc := if result.Inserted? then Done(Registered) else Clashed);
        }
        case Clashed => {
          var holder := passkeys.FindByCredentialHash(credential);
          request := request.(pc := Done(if holder.Some? then AlreadyRegistered else Outcome.DuplicateKey));
        }
        case _ =>
      }
    }

    method Options(ghost db: Db, now: Time, draw: nat, answer: Answer)
      requires Shows(db) && now == db.now && draw == db.supply
      requires forall c :: c in db.challenges ==> c.hash.preimage < draw
      modifies this, passkeys
      ensures var move := OptionsMove(db, old(request), answer);
              request == move.request && Shows(Apply(db, r, move.effect))
    {
      match request.pc {
        case Fresh => request := request.(pc := if answer.hasEmail then Counting else Done(UserNotFound));
        case Counting => {
          if request.input.RegistrationOptions? {
            var owned := passkeys.ListForUser(request.input.userId);
            request := request.(pc := if |owned| >= MAX_PASSKEYS then Done(LimitReached) else Offering);
          } else {
            request := request.(pc := Offering);
          }
        }
        case _ => {
          var purpose := if request.input.RegistrationOptions? then Purpose.Register else Authenticate;
          var forUser := if request.input.RegistrationOptions? then Some(request.input.userId) else None;
          var ok := passkeys.CreateChallenge(HashToken(draw), purpose, forUser, now + CHALLENGE_TTL_MS);
          request := request.(pc := Done(Offered(draw)));
        }
      }
    }

    method Begin(ghost db: Db, now: Time, answer: Answer)
      requires Shows(db) && now == db.now && request.pc.Start?
      modifies this, passkeys
      ensures var move := StartMove(db, old(request), answer);
              request == move.request && Shows(Apply(db, r, move.effect))
    {
      match request.input {
        case RegistrationOptions(_, signedInAt) =>
          request := request.(pc := if now - signedInAt > FRESH_LOGIN_MS then Done(FreshLoginRequired) else Fresh);
        case SignInOptions => request := request.(pc := Offering);
        case RegisterInput(userId, challenge, _) =>
          Check(db, now, challenge, Purpose.Register, Some(userId), Verified, answer);
        case SignIn(_, credential) => {
          var i := FindIndex(passkeys.rows, HasCredential(credential));
          request := request.(pc := if i == |passkeys.rows| then Done(Invalid) else Found(passkeys.rows[i]));
        }
      }
    }

    /** One turn of the handler is one step of the transition system. */
    method Turn(ghost db: Db, now: Time, draw: nat, answer: Answer)
      requires Shows(db) && now == db.now && draw == db.supply
      requires forall c :: c in db.challenges ==> c.hash.preimage < draw
      modifies this, passkeys
      ensures var move := Advance(db, old(request), answer);
              request == move.request && Shows(Apply(db, r, move.effect))
    {
      match request.pc {
        case Start => Begin(db, now, answer);
        case Fresh => Options(db, now, draw, answer);
        case Counting => Options(db, now, draw, answer);
        case Offering => Options(db, now, draw, answer);
        case Found(row) =>
          if request.input.SignIn? {
            Check(db, now, request.input.challenge, Authenticate, None, Recording(row), answer);
          }
        case Recording(row) => {
          passkeys.RecordUse(row.id, answer.counter, now);
          request := request.(pc := Done(SignedIn(row.userId)));
        }
        case Done(_) =>
        case _ =>
          if request.input.RegisterInput? {
            Register(db, draw, answer);
          }
      }
    }
  }
}
