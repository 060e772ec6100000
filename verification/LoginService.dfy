/**
  A sign-in handler over the real failure counter: each turn is the step the transition
  system takes for its account, and no other account's entry moves.
 */
module LoginService {
  import opened Base
  import opened LoginAttempts
  import opened Logins

  class Handler {
    const account: Id
    const r: ReqId
    const counter: Counter
    var request: Request

    constructor (account: Id, r: ReqId, counter: Counter, kind: Kind)
      ensures this.account == account && this.r == r && this.counter == counter && request == Request(kind, Start)
    {
      this.account, this.r, this.counter := account, r, counter;
      request := Request(kind, Start);
    }

    ghost predicate Shows(w: World)
      reads this, counter
    {
      && r in w.requests && w.requests[r] == request
      && LiveEntry(counter.EntryOf(account), w.now) == LiveEntry(w.tally.entry, w.now)
    }

    /** The lock is looked at before the password compare; the failure is counted after it, if it is. */
    method Password(ghost w: World, now: Time, ok: bool)
      requires Shows(w) && now == w.now
               && (request.pc.Comparing?
                   || (request.pc.Start? && (request.kind.PasswordGrant? || request.kind.HostedPassword?)))
      modifies this, counter
      ensures Shows(Take(counter.limits, w, r, old(request), ok))
      ensures counter.failures - {account} == old(counter.failures) - {account}
    {
      if request.pc.Start? {
        var locked := counter.IsLocked(account, now);
        request := request.(pc := Comparing(locked));
      } else if request.pc.locked {
        request := request.(pc := Done(Denied));
      } else if !ok {
        counter.RecordFailure(account, now);
        request := request.(pc := Done(Denied));
      } else {
        request := request.(pc := Proven);
      }
    }

    /** Counted before the code is verified, in the same turn as the lock check: a burst counts itself. */
    method SecondFactor(ghost w: World, now: Time)
      requires Shows(w) && now == w.now && request.pc.Start? && request.kind.MfaCode?
      modifies this, counter
      ensures Shows(Take(counter.limits, w, r, old(request), false))
      ensures counter.failures - {account} == old(counter.failures) - {account}
    {
      var locked := counter.IsLocked(account, now);
      if locked {
        request := request.(pc := Done(Denied));
      } else {
        counter.RecordFailure(account, now);
        request := request.(pc := Verifying);
      }
    }

    method Turn(ghost w: World, now: Time, totpOn: bool, ok: bool)
      requires Shows(w) && now == w.now && totpOn == w.totpOn
      modifies this, counter
      ensures Shows(Step(counter.limits, w, Event.Turn(r, ok)))
      ensures counter.failures - {account} == old(counter.failures) - {account}
    {
      match request.pc {
        case Start =>
          match request.kind {
            case PasswordGrant => Password(w, now, ok);
            case HostedPassword => Password(w, now, ok);
            case Google => request := request.(pc := Proven);
            case MfaCode => SecondFactor(w, now);
            case Passkey => {
              counter.Clear(account);
              request := request.(pc := Done(Session));
            }
          }
        case Comparing(_) => Password(w, now, ok);
        case Proven => request := request.(pc := if totpOn then Done(MfaRequired) else Clearing);
        case Clearing => {
          counter.Clear(account);
          request := request.(pc := Done(Session));
        }
        case Verifying => {
          if ok {
            counter.Clear(account);
          }
          request := request.(pc := Done(if ok then Session else Denied));
        }
        case Done(_) =>
      }
    }
  }
}
