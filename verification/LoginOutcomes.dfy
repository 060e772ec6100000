/**
  How sign-ins end, in every interleaving: told from what each request found at its own
  turns, and from nothing the transition system keeps for it.
 */
module LoginOutcomes {
  import opened Base
  import opened LoginAttempts
  import opened Lockout
  import opened Logins

  /** What a request finds when a turn of its comes: the lock, the TOTP switch, and the answer to its check. */
  datatype Seen = Seen(locked: bool, totpOn: bool, ok: bool)

  /** The account's lockout lies ahead. */
  predicate LockedOut(w: World) {
    w.tally.entry.Some? && w.tally.entry.value.lockedUntil > w.now as real
  }

  /** What the turns of request `r` find, in the order they come, once it has arrived. */
  function Finds(limits: Limits, w: World, events: seq<Event>, r: ReqId): seq<Seen>
    decreases events
  {
    if events == [] then []
    else
      var rest := Finds(limits, Step(limits, w, events[0]), events[1..], r);
      if events[0].Turn? && events[0].r == r && r in w.requests
      then [Seen(LockedOut(w), w.totpOn, events[0].ok)] + rest
      else rest
  }

  /** What a password gets: nothing while locked or when wrong, and a session only where TOTP is off. */
  function PasswordEnds(seen: seq<Seen>): Option<Outcome> {
    if |seen| < 2 then None
    else if seen[0].locked || !seen[1].ok then Some(Denied)
    else if |seen| < 3 then None
    else if seen[2].totpOn then Some(MfaRequired)
    else if |seen| < 4 then None
    else Some(Session)
  }

  function GoogleEnds(seen: seq<Seen>): Option<Outcome> {
    if |seen| < 2 then None
    else if seen[1].totpOn then Some(MfaRequired)
    else if |seen| < 3 then None
    else Some(Session)
  }

  /** A code is looked at only when the account is not locked, and opens a session exactly when it is right. */
  function CodeEnds(seen: seq<Seen>): Option<Outcome> {
    if |seen| < 1 then None
    else if seen[0].locked then Some(Denied)
    else if |seen| < 2 then None
    else if seen[1].ok then Some(Session) else Some(Denied)
  }

  function Ends(kind: Kind, seen: seq<Seen>): Option<Outcome> {
    match kind
    case PasswordGrant => PasswordEnds(seen)
    case HostedPassword => PasswordEnds(seen)
    case Google => GoogleEnds(seen)
    case MfaCode => CodeEnds(seen)
    case Passkey => if |seen| < 1 then None else Some(Session)
  }

  function OutcomeOf(q: Request): Option<Outcome> {
    if q.pc.Done? then Some(q.pc.outcome) else None
  }

  /** Where a request of this kind stands after it has seen this much. */
  predicate Stands(q: Request, seen: seq<Seen>) {
    match q.pc
    case Start => seen == []
    case Comparing(locked) =>
      (q.kind.PasswordGrant? || q.kind.HostedPassword?) && |seen| == 1 && locked == seen[0].locked
    case Proven =>
      if q.kind.Google? then |seen| == 1
      else (q.kind.PasswordGrant? || q.kind.HostedPassword?) && |seen| == 2 && !seen[0].locked && seen[1].ok
    case Clearing =>
      if q.kind.Google? then |seen| == 2 && !seen[1].totpOn
      else (q.kind.PasswordGrant? || q.kind.HostedPassword?)
           && |seen| == 3 && !seen[0].locked && seen[1].ok && !seen[2].totpOn
    case Verifying => q.kind.MfaCode? && |seen| == 1 && !seen[0].locked
    case Done(outcome) => Ends(q.kind, seen) == Some(outcome)
  }

  lemma TurnStands(limits: Limits, w: World, r: ReqId, ok: bool, seen: seq<Seen>)
    requires r in w.requests && Stands(w.requests[r], seen)
    ensures var v := Step(limits, w, Turn(r, ok));
            && r in v.requests && v.requests[r].kind == w.requests[r].kind
            && Stands(v.requests[r], seen + [Seen(LockedOut(w), w.totpOn, ok)])
  {
    var found := Seen(LockedOut(w), w.totpOn, ok);
    if w.requests[r].pc.Done? {
      EndsStay(w.requests[r].kind, seen, found);
    }
  }

  /** An ending, once told, does not change with what is seen later. */
  lemma EndsStay(kind: Kind, seen: seq<Seen>, more: Seen)
    requires Ends(kind, seen).Some?
    ensures Ends(kind, seen + [more]) == Ends(kind, seen)
  {
  }

  lemma OtherTurnsLeave(limits: Limits, w: World, e: Event, r: ReqId)
    requires r in w.requests && !(e.Turn? && e.r == r)
    ensures var v := Step(limits, w, e); r in v.requests && v.requests[r] == w.requests[r]
  {
  }

  lemma {:induction false} RunStands(limits: Limits, w: World, events: seq<Event>, r: ReqId, seen: seq<Seen>)
    requires if r in w.requests then Stands(w.requests[r], seen) else seen == []
    ensures var v := Run(limits, w, events);
            r in v.requests ==> Stands(v.requests[r], seen + Finds(limits, w, events, r))
    decreases events
  {
    if events == [] {
      assert seen + [] == seen;
    } else {
      var e := events[0];
      var v := Step(limits, w, e);
      if r !in w.requests {
        assert r in v.requests ==> v.requests[r].pc.Start?;
        RunStands(limits, v, events[1..], r, seen);
      } else if e.Turn? && e.r == r {
        var found := Seen(LockedOut(w), w.totpOn, e.ok);
        TurnStands(limits, w, r, e.ok, seen);
        RunStands(limits, v, events[1..], r, seen + [found]);
        assert seen + [found] + Finds(limits, v, events[1..], r) == seen + ([found] + Finds(limits, v, events[1..], r));
      } else {
        OtherTurnsLeave(limits, w, e, r);
        RunStands(limits, v, events[1..], r, seen);
      }
    }
  }

  /** In every run each sign-in has ended exactly as what it found at its turns says, or has not ended yet. */
  lemma SignInsEndAsFound(limits: Limits, start: Time, totpOn: bool, events: seq<Event>, r: ReqId)
    requires r in Run(limits, Init(start, totpOn), events).requests
    ensures var w := Init(start, totpOn);
            var q := Run(limits, w, events).requests[r];
            OutcomeOf(q) == Ends(q.kind, Finds(limits, w, events, r))
  {
    RunStands(limits, Init(start, totpOn), events, r, []);
  }

  // ----- where in the run it happened

  /** Event i is a turn of the request, answered like this, when it stood there. */
  predicate TurnedAt(limits: Limits, w: World, events: seq<Event>, i: int, r: ReqId, pc: Pc, ok: bool) {
    && 0 <= i < |events| && events[i] == Turn(r, ok)
    && var v := Run(limits, w, events[..i]); r in v.requests && v.requests[r].pc == pc
  }

  lemma {:induction false} NthTurn(limits: Limits, w: World, events: seq<Event>, r: ReqId, k: nat) returns (i: nat)
    requires k < |Finds(limits, w, events, r)|
    ensures i < |events| && events[i].Turn? && events[i].r == r
    ensures var v := Run(limits, w, events[..i]);
            && r in v.requests
            && Finds(limits, w, events, r)[k] == Seen(LockedOut(v), v.totpOn, events[i].ok)
            && Finds(limits, w, events[..i], r) == Finds(limits, w, events, r)[..k]
    decreases events
  {
    var e := events[0];
    var mine := e.Turn? && e.r == r && r in w.requests;
    if mine && k == 0 {
      i := 0;
      assert events[..0] == [];
    } else {
      var j := NthTurn(limits, Step(limits, w, e), events[1..], r, if mine then k - 1 else k);
      i := j + 1;
      assert events[..i][0] == e && events[..i][1..] == events[1..][..j];
    }
  }

  lemma {:induction false} KindStays(limits: Limits, w: World, events: seq<Event>, r: ReqId)
    requires r in w.requests
    ensures var v := Run(limits, w, events); r in v.requests && v.requests[r].kind == w.requests[r].kind
    decreases events
  {
    if events != [] {
      KindStays(limits, Step(limits, w, events[0]), events[1..], r);
    }
  }

  lemma {:induction false} RunsThrough(limits: Limits, w: World, a: seq<Event>, b: seq<Event>)
    ensures Run(limits, w, a + b) == Run(limits, Run(limits, w, a), b)
    decreases a
  {
    if a == [] {
      assert a + b == b;
    } else {
      assert (a + b)[0] == a[0] && (a + b)[1..] == a[1..] + b;
      RunsThrough(limits, Step(limits, w, a[0]), a[1..], b);
    }
  }

  /** The state in which a request takes its k-th turn. */
  lemma StateAtTurn(limits: Limits, w: World, events: seq<Event>, r: ReqId, k: nat) returns (i: nat)
    requires r !in w.requests && r in Run(limits, w, events).requests && k < |Finds(limits, w, events, r)|
    ensures i < |events| && events[i].Turn? && events[i].r == r
    ensures var v, seen := Run(limits, w, events[..i]), Finds(limits, w, events, r);
            && r in v.requests && v.requests[r].kind == Run(limits, w, events).requests[r].kind
            && Stands(v.requests[r], seen[..k]) && seen[k] == Seen(LockedOut(v), v.totpOn, events[i].ok)
  {
    i := NthTurn(limits, w, events, r, k);
    RunStands(limits, w, events[..i], r, []);
    assert events[..i] + events[i..] == events;
    RunsThrough(limits, w, events[..i], events[i..]);
    KindStays(limits, Run(limits, w, events[..i]), events[i..], r);
  }

  /** A second factor opens a session only by a right code, checked after the account was found unlocked. */
  lemma CodeSessionsHadACode(limits: Limits, start: Time, totpOn: bool, events: seq<Event>, r: ReqId)
    requires r in Run(limits, Init(start, totpOn), events).requests
    requires Run(limits, Init(start, totpOn), events).requests[r] == Request(MfaCode, Done(Session))
    ensures var w := Init(start, totpOn);
            exists i, j, ok :: && TurnedAt(limits, w, events, i, r, Start, ok)
                               && !LockedOut(Run(limits, w, events[..i]))
                               && TurnedAt(limits, w, events, j, r, Verifying, true)
  {
    var w := Init(start, totpOn);
    SignInsEndAsFound(limits, start, totpOn, events, r);
    var seen := Finds(limits, w, events, r);
    var i := StateAtTurn(limits, w, events, r, 0);
    var j := StateAtTurn(limits, w, events, r, 1);
    assert seen[..0] == [] && seen[..1] == [seen[0]];
    assert TurnedAt(limits, w, events, i, r, Start, events[i].ok);
    assert TurnedAt(limits, w, events, j, r, Verifying, true);
  }

  /** A password opens a session only when it was right, looked at while unlocked, and TOTP was off afterwards. */
  lemma PasswordSessionsHadAPassword(limits: Limits, start: Time, totpOn: bool, events: seq<Event>, r: ReqId)
    requires r in Run(limits, Init(start, totpOn), events).requests
    requires var q := Run(limits, Init(start, totpOn), events).requests[r];
             (q.kind.PasswordGrant? || q.kind.HostedPassword?) && q.pc == Done(Session)
    ensures var w := Init(start, totpOn);
            exists i, j, k, ok, ok' ::
              && TurnedAt(limits, w, events, i, r, Start, ok) && !LockedOut(Run(limits, w, events[..i]))
              && TurnedAt(limits, w, events, j, r, Comparing(false), true)
              && TurnedAt(limits, w, events, k, r, Proven, ok') && !Run(limits, w, events[..k]).totpOn
  {
    var w := Init(start, totpOn);
    SignInsEndAsFound(limits, start, totpOn, events, r);
    var seen := Finds(limits, w, events, r);
    var i := StateAtTurn(limits, w, events, r, 0);
    var j := StateAtTurn(limits, w, events, r, 1);
    var k := StateAtTurn(limits, w, events, r, 2);
    assert seen[..0] == [] && seen[..1] == [seen[0]] && seen[..2] == [seen[0], seen[1]];
    assert TurnedAt(limits, w, events, i, r, Start, events[i].ok);
    assert TurnedAt(limits, w, events, j, r, Comparing(false), true);
    assert TurnedAt(limits, w, events, k, r, Proven, events[k].ok);
  }

  /** A Google login opens a session only when TOTP was off after it. */
  lemma GoogleSessionsHadNoTotp(limits: Limits, start: Time, totpOn: bool, events: seq<Event>, r: ReqId)
    requires r in Run(limits, Init(start, totpOn), events).requests
    requires Run(limits, Init(start, totpOn), events).requests[r] == Request(Google, Done(Session))
    ensures var w := Init(start, totpOn);
            exists k, ok :: TurnedAt(limits, w, events, k, r, Proven, ok) && !Run(limits, w, events[..k]).totpOn
  {
    var w := Init(start, totpOn);
    SignInsEndAsFound(limits, start, totpOn, events, r);
    var seen := Finds(limits, w, events, r);
    var k := StateAtTurn(limits, w, events, r, 1);
    assert seen[..1] == [seen[0]];
    assert TurnedAt(limits, w, events, k, r, Proven, events[k].ok);
  }

  // ----- what the counter does

  /** A failure is counted: an unlocked password compare that says no, or an unlocked code before it is checked. */
  predicate Fails(w: World, e: Event) {
    && e.Turn? && e.r in w.requests
    && (|| (w.requests[e.r].pc == Comparing(false) && !e.ok)
        || (w.requests[e.r] == Request(MfaCode, Start) && !LockedOut(w)))
  }

  /** A sign-in is completed by the event. */
  predicate Completes(limits: Limits, w: World, e: Event) {
    && e.Turn? && e.r in w.requests && w.requests[e.r].pc != Done(Session)
    && var v := Step(limits, w, e); e.r in v.requests && v.requests[e.r].pc == Done(Session)
  }

  /** The lockout of the entry has run out. */
  predicate RanOut(entry: Option<Entry>, now: Time) {
    entry.Some? && entry.value.lockedUntil != 0.0 && entry.value.lockedUntil <= now as real
  }

  /** Failures in a row: an entry whose lockout ran out counts for nothing. */
  function InARow(entry: Option<Entry>, now: Time): nat {
    if entry.None? || RanOut(entry, now) then 0 else entry.value.count
  }

  /** One more failure, and from the limit on the lock. */
  predicate OneMore(limits: Limits, before: Option<Entry>, after: Option<Entry>, now: Time) {
    && after.Some? && after.value.count == InARow(before, now) + 1
    && after.value.lockedUntil ==
         (if after.value.count as real >= limits.maxFailures then now as real + limits.lockoutMs
          else if before.None? || RanOut(before, now) then 0.0
          else before.value.lockedUntil)
  }

  /**
    The counter follows what happens: a completed sign-in forgets it, a failure adds one and
    from the limit on locks for the period, and nothing else touches it but to drop an entry
    that ran out.
   */
  lemma CounterFollows(limits: Limits, w: World, e: Event)
    ensures var before, after := w.tally.entry, Step(limits, w, e).tally.entry;
            if Completes(limits, w, e) then after == None
            else if Fails(w, e) then OneMore(limits, before, after, w.now)
            else after == before || (after == None && RanOut(before, w.now))
  {
    if e.Turn? && e.r in w.requests {
      if w.requests[e.r].pc.Start? {
        StartFollows(limits, w, e);
      } else {
        LaterFollows(limits, w, e);
      }
    }
  }

  lemma StartFollows(limits: Limits, w: World, e: Event)
    requires e.Turn? && e.r in w.requests && w.requests[e.r].pc.Start?
    ensures var before, after := w.tally.entry, Step(limits, w, e).tally.entry;
            if Completes(limits, w, e) then after == None
            else if Fails(w, e) then OneMore(limits, before, after, w.now)
            else after == before || (after == None && RanOut(before, w.now))
  {
  }

  lemma LaterFollows(limits: Limits, w: World, e: Event)
    requires e.Turn? && e.r in w.requests && !w.requests[e.r].pc.Start?
    ensures var before, after := w.tally.entry, Step(limits, w, e).tally.entry;
            if Completes(limits, w, e) then after == None
            else if Fails(w, e) then OneMore(limits, before, after, w.now)
            else after == before || (after == None && RanOut(before, w.now))
  {
  }

  /** The log of guesses grows exactly when a code is let through to be checked. */
  lemma LogFollows(limits: Limits, w: World, e: Event)
    ensures Step(limits, w, e).tally.guesses ==
            w.tally.guesses +
            if e.Turn? && e.r in w.requests && w.requests[e.r] == Request(MfaCode, Start) && !LockedOut(w)
            then [w.now] else []
  {
  }

  /** Time passes in ticks, TOTP is switched by its owner alone, and the clears count the sign-ins completed. */
  lemma OthersFollow(limits: Limits, w: World, e: Event)
    ensures var v := Step(limits, w, e);
            && v.now == w.now + (if e.Tick? then e.elapsed else 0)
            && v.totpOn == (if e.SetTotp? then e.on else w.totpOn)
            && v.clears == w.clears + (if Completes(limits, w, e) then 1 else 0)
            && (e.Arrive? ==> v.requests == if e.r in w.requests then w.requests
                                            else w.requests[e.r := Request(e.kind, Start)])
  {
  }

  /** The lock lies ahead, no further than a period away. */
  predicate LockedTill(limits: Limits, w: World, t: real) {
    w.tally.entry.Some? && t <= w.tally.entry.value.lockedUntil <= w.now as real + limits.lockoutMs
  }

  lemma StepKeepsLock(limits: Limits, w: World, e: Event, t: real)
    requires LockedTill(limits, w, t) && (w.now as real) < t && t != 0.0 && !Completes(limits, w, e)
    ensures LockedTill(limits, Step(limits, w, e), t)
  {
    CounterFollows(limits, w, e);
  }

  /** No event of the run completes a sign-in. */
  predicate NoneCompletes(limits: Limits, w: World, events: seq<Event>)
    decreases events
  {
    events != [] ==> !Completes(limits, w, events[0]) && NoneCompletes(limits, Step(limits, w, events[0]), events[1..])
  }

  lemma {:induction false} LockHolds(limits: Limits, w: World, events: seq<Event>, t: real)
    requires LockedTill(limits, w, t) && NoneCompletes(limits, w, events)
    requires (Run(limits, w, events).now as real) < t && t != 0.0
    ensures LockedTill(limits, Run(limits, w, events), t)
    decreases events
  {
    if events != [] {
      TimeOnlyGrows(limits, w, events);
      StepKeepsLock(limits, w, events[0], t);
      LockHolds(limits, Step(limits, w, events[0]), events[1..], t);
    }
  }

  lemma {:induction false} TimeOnlyGrows(limits: Limits, w: World, events: seq<Event>)
    ensures w.now <= Run(limits, w, events).now
    decreases events
  {
    if events != [] {
      TimeOnlyGrows(limits, Step(limits, w, events[0]), events[1..]);
    }
  }

  /**
    The failure that reaches the limit locks the account for the whole period: until then,
    whatever runs meanwhile, it is locked, unless a sign-in under way is completed.
   */
  lemma LimitLocks(limits: Limits, w: World, e: Event, later: seq<Event>)
    requires Fails(w, e) && (InARow(w.tally.entry, w.now) + 1) as real >= limits.maxFailures && limits.lockoutMs > 0.0
    requires var v := Step(limits, w, e);
             && NoneCompletes(limits, v, later)
             && (Run(limits, v, later).now as real) < w.now as real + limits.lockoutMs
    ensures LockedOut(Run(limits, Step(limits, w, e), later))
  {
    CounterFollows(limits, w, e);
    LockHolds(limits, Step(limits, w, e), later, w.now as real + limits.lockoutMs);
  }
}
