/**
  Every way to sign in to one account, interleaved at every await, over its one failure
  counter. A correct first factor alone must not reset the count of second-factor guesses.
 */
module Logins {
  import opened Base
  import opened LoginAttempts
  import opened Lockout

  type ReqId = nat

  datatype Kind = PasswordGrant | HostedPassword | Google | MfaCode | Passkey

  datatype Outcome = Session | MfaRequired | Denied

  datatype Pc =
    | Start
    | Comparing(locked: bool) // the password compare is running; the lock was looked at before it
    | Proven                  // the first factor is proven, TOTP has not been asked about yet
    | Clearing                // TOTP is off: about to clear the count
    | Verifying               // the code is counted and being verified
    | Done(outcome: Outcome)

  datatype Request = Request(kind: Kind, pc: Pc)

  datatype World = World(now: Time, totpOn: bool, tally: Tally, clears: nat, requests: map<ReqId, Request>)

  datatype Event =
    | Tick(elapsed: nat)
    | Arrive(r: ReqId, kind: Kind)
    | Turn(r: ReqId, ok: bool) // `ok` is what the password compare or the code verifier answers
    | SetTotp(on: bool)

  function Cleared(w: World): World {
    w.(tally := w.tally.(entry := None), clears := w.clears + 1)
  }

  function Counting(limits: Limits, w: World, act: Act): World {
    w.(tally := Act1(limits, w.tally, act, w.now))
  }

  function Goto(w: World, r: ReqId, q: Request, pc: Pc): World {
    w.(requests := w.requests[r := q.(pc := pc)])
  }

  function Take(limits: Limits, w: World, r: ReqId, q: Request, ok: bool): World {
    match q.pc
    case Start =>
      (match q.kind
       case PasswordGrant => Goto(Counting(limits, w, Check), r, q, Comparing(Locked(w.tally.entry, w.now)))
       case HostedPassword => Goto(Counting(limits, w, Check), r, q, Comparing(Locked(w.tally.entry, w.now)))
       case Google => Goto(w, r, q, Proven)
       case MfaCode =>
         if Locked(w.tally.entry, w.now) then Goto(Counting(limits, w, Guess), r, q, Done(Denied))
         else Goto(Counting(limits, w, Guess), r, q, Verifying)
       case Passkey => Goto(Cleared(w), r, q, Done(Session)))
    case Comparing(locked) =>
      if locked then Goto(w, r, q, Done(Denied))
      else if !ok then Goto(Counting(limits, w, Record), r, q, Done(Denied))
      else Goto(w, r, q, Proven)
    case Proven => Goto(w, r, q, if w.totpOn then Done(MfaRequired) else Clearing)
    case Clearing => Goto(Cleared(w), r, q, Done(Session))
    case Verifying => if ok then Goto(Cleared(w), r, q, Done(Session)) else Goto(w, r, q, Done(Denied))
    case Done(_) => w
  }

  function Step(limits: Limits, w: World, e: Event): World {
    match e
    case Tick(elapsed) => w.(now := w.now + elapsed)
    case Arrive(r, kind) => if r in w.requests then w else w.(requests := w.requests[r := Request(kind, Start)])
    case Turn(r, ok) => if r in w.requests then Take(limits, w, r, w.requests[r], ok) else w
    case SetTotp(on) => w.(totpOn := on)
  }

  function Run(limits: Limits, w: World, events: seq<Event>): World
    decreases events
  {
    if events == [] then w else Run(limits, Step(limits, w, events[0]), events[1..])
  }

  function Init(now: Time, totpOn: bool): World {
    World(now, totpOn, Tally(None, [], 0, now), 0, map[])
  }

  // ----- the bound between two clears

  ghost predicate CounterOk(limits: Limits, w: World) {
    TallyOk(limits, w.tally) && w.tally.last <= w.now
  }

  /** The world with its log of guesses started afresh. */
  function Rebased(w: World): World {
    w.(tally := w.tally.(guesses := [], epoch := 0))
  }

  /** The worlds agree but for `earlier`, which the log of the second has in front. */
  ghost predicate SameBut(u: World, w: World, earlier: seq<Time>) {
    && u.now == w.now && u.totpOn == w.totpOn && u.clears == w.clears && u.requests == w.requests
    && SameTally(u.tally, w.tally, earlier)
  }

  ghost predicate SameTally(t: Tally, u: Tally, earlier: seq<Time>) {
    t.entry == u.entry && t.last == u.last && earlier + t.guesses == u.guesses
  }

  lemma SameAct(limits: Limits, t: Tally, u: Tally, act: Act, now: Time, earlier: seq<Time>)
    requires SameTally(t, u, earlier)
    ensures SameTally(Act1(limits, t, act, now), Act1(limits, u, act, now), earlier)
  {
    assert earlier + (t.guesses + [now]) == u.guesses + [now];
  }

  /** What a request's turn does to the counter, when it does anything but clear it. */
  function ActOf(q: Request): Act {
    if q.pc.Comparing? then Record else if q.kind.MfaCode? then Guess else Check
  }

  lemma StepCounts(limits: Limits, w: World, e: Event)
    requires CounterOk(limits, w) && limits.lockoutMs > 0.0
    ensures w.clears <= Step(limits, w, e).clears
    ensures Step(limits, w, e).clears == w.clears ==> CounterOk(limits, Step(limits, w, e))
  {
    if e.Turn? && e.r in w.requests {
      ActKeeps(limits, w.tally, ActOf(w.requests[e.r]), w.now);
    }
  }

  lemma SameTake(limits: Limits, u: World, w: World, r: ReqId, ok: bool, earlier: seq<Time>)
    requires SameBut(u, w, earlier) && r in w.requests
    ensures SameBut(Take(limits, u, r, u.requests[r], ok), Take(limits, w, r, w.requests[r], ok), earlier)
  {
    if w.requests[r].pc.Start? {
      SameStart(limits, u, w, r, ok, earlier);
    } else {
      SameLater(limits, u, w, r, ok, earlier);
    }
  }

  lemma SameStart(limits: Limits, u: World, w: World, r: ReqId, ok: bool, earlier: seq<Time>)
    requires SameBut(u, w, earlier) && r in w.requests && w.requests[r].pc.Start?
    ensures SameBut(Take(limits, u, r, u.requests[r], ok), Take(limits, w, r, w.requests[r], ok), earlier)
  {
    SameAct(limits, u.tally, w.tally, ActOf(w.requests[r]), w.now, earlier);
  }

  lemma SameLater(limits: Limits, u: World, w: World, r: ReqId, ok: bool, earlier: seq<Time>)
    requires SameBut(u, w, earlier) && r in w.requests && !w.requests[r].pc.Start?
    ensures SameBut(Take(limits, u, r, u.requests[r], ok), Take(limits, w, r, w.requests[r], ok), earlier)
  {
    SameAct(limits, u.tally, w.tally, ActOf(w.requests[r]), w.now, earlier);
  }

  lemma SameStep(limits: Limits, u: World, w: World, e: Event, earlier: seq<Time>)
    requires SameBut(u, w, earlier)
    ensures SameBut(Step(limits, u, e), Step(limits, w, e), earlier)
  {
    if e.Turn? && e.r in w.requests {
      SameTake(limits, u, w, e.r, e.ok, earlier);
    }
  }

  /** Every step, clears included, leaves the counter ready to be counted from. */
  lemma StepRebases(limits: Limits, w: World, e: Event)
    requires CounterOk(limits, Rebased(w)) && limits.lockoutMs > 0.0
    ensures CounterOk(limits, Rebased(Step(limits, w, e)))
  {
    SameStep(limits, Rebased(w), w, e, w.tally.guesses);
    StepCounts(limits, Rebased(w), e);
  }

  lemma {:induction false} RunRebases(limits: Limits, w: World, events: seq<Event>)
    requires CounterOk(limits, Rebased(w)) && limits.lockoutMs > 0.0
    ensures CounterOk(limits, Rebased(Run(limits, w, events)))
    decreases events
  {
    if events != [] {
      StepRebases(limits, w, events[0]);
      RunRebases(limits, Step(limits, w, events[0]), events[1..]);
    }
  }

  lemma {:induction false} SameRun(limits: Limits, u: World, w: World, events: seq<Event>, earlier: seq<Time>)
    requires SameBut(u, w, earlier)
    ensures SameBut(Run(limits, u, events), Run(limits, w, events), earlier)
    decreases events
  {
    if events != [] {
      SameStep(limits, u, w, events[0], earlier);
      SameRun(limits, Step(limits, u, events[0]), Step(limits, w, events[0]), events[1..], earlier);
    }
  }

  lemma {:induction false} ClearsOnlyGrow(limits: Limits, w: World, events: seq<Event>)
    ensures w.clears <= Run(limits, w, events).clears
    decreases events
  {
    if events != [] {
      ClearsOnlyGrow(limits, Step(limits, w, events[0]), events[1..]);
    }
  }

  lemma {:induction false} RunCounts(limits: Limits, w: World, events: seq<Event>)
    requires CounterOk(limits, w) && limits.lockoutMs > 0.0
    requires Run(limits, w, events).clears == w.clears
    ensures CounterOk(limits, Run(limits, w, events))
    decreases events
  {
    if events != [] {
      StepCounts(limits, w, events[0]);
      ClearsOnlyGrow(limits, Step(limits, w, events[0]), events[1..]);
      RunCounts(limits, Step(limits, w, events[0]), events[1..]);
    }
  }

  /** A stretch of a run from the start: what came before it, and its own events. */
  datatype Stretch = Stretch(start: Time, totpOn: bool, before: seq<Event>, during: seq<Event>)

  function Opening(limits: Limits, s: Stretch): World {
    Run(limits, Init(s.start, s.totpOn), s.before)
  }

  function Ending(limits: Limits, s: Stretch): World {
    Run(limits, Opening(limits, s), s.during)
  }

  predicate WithoutClear(limits: Limits, s: Stretch) {
    Ending(limits, s).clears == Opening(limits, s).clears
  }

  /** The times of the guesses that reached the verifier during the stretch. */
  function Passed(limits: Limits, s: Stretch): seq<Time> {
    var before, after := Opening(limits, s).tally.guesses, Ending(limits, s).tally.guesses;
    if |before| <= |after| then after[|before|..] else []
  }

  /** The log only grows, and what a stretch adds to it is what a counter started at its opening would count. */
  lemma StretchCounts(limits: Limits, s: Stretch)
    requires limits.lockoutMs > 0.0
    ensures Opening(limits, s).tally.guesses <= Ending(limits, s).tally.guesses
    ensures Passed(limits, s) == Run(limits, Rebased(Opening(limits, s)), s.during).tally.guesses
    ensures WithoutClear(limits, s) ==> Sorted(Passed(limits, s)) && Spaced(limits, Passed(limits, s))
  {
    var mid := Opening(limits, s);
    RunRebases(limits, Init(s.start, s.totpOn), s.before);
    SameRun(limits, Rebased(mid), mid, s.during, mid.tally.guesses);
    if WithoutClear(limits, s) {
      RunCounts(limits, Rebased(mid), s.during);
    }
  }

  /**
    Over every stretch of every run, whatever came before it, in which nothing clears the
    count: the guesses that reach the verifier in a half-open interval are at most one burst
    per started lockout period, whatever password failures are mixed in.
   */
  lemma GuessesAreBounded(limits: Limits, s: Stretch, from: real, width: real)
    requires limits.lockoutMs > 0.0 && width >= 0.0 && WithoutClear(limits, s)
    ensures |Within(Passed(limits, s), from, from + width)| <= Burst(limits) * Started(width, limits.lockoutMs)
  {
    StretchCounts(limits, s);
    IntervalBound(limits, Passed(limits, s), from, width);
  }

  // ----- the bound is attained, and how far the configured limit is one

  /** The requests `first`, `first + 1`, ... each arrive with a wrong code and have it counted at once. */
  function Flood(first: ReqId, n: nat): seq<Event>
    decreases n
  {
    if n == 0 then [] else [Arrive(first, MfaCode), Turn(first, false)] + Flood(first + 1, n - 1)
  }

  /** A guess made now passes, and so do the following ones, as long as `left` says. */
  predicate Open(limits: Limits, entry: Option<Entry>, now: Time, left: nat) {
    if limits.lockoutMs <= 0.0 then entry.Some? ==> entry.value.lockedUntil <= now as real
    else if entry.None? then left <= Burst(limits)
    else left > 0 ==> entry.value.lockedUntil == 0.0 && entry.value.count + left <= Burst(limits)
  }

  lemma OneOfMany(limits: Limits, w: World, r: ReqId, left: nat)
    requires r !in w.requests && left > 0 && Open(limits, w.tally.entry, w.now, left)
    ensures var v := Step(limits, Step(limits, w, Arrive(r, MfaCode)), Turn(r, false));
            && v.now == w.now && v.clears == w.clears && v.requests.Keys == w.requests.Keys + {r}
            && v.tally.guesses == w.tally.guesses + [w.now] && Open(limits, v.tally.entry, w.now, left - 1)
  {
  }

  lemma {:induction false} FloodPasses(limits: Limits, w: World, first: ReqId, n: nat)
    requires (forall r :: r in w.requests ==> r < first) && Open(limits, w.tally.entry, w.now, n)
    ensures var v := Run(limits, w, Flood(first, n));
            v.clears == w.clears && v.tally.guesses == w.tally.guesses + seq(n, i => w.now)
    decreases n
  {
    if n > 0 {
      var events := Flood(first, n);
      var w1 := Step(limits, w, Arrive(first, MfaCode));
      assert events[1..] == [Turn(first, false)] + Flood(first + 1, n - 1);
      assert events[1..][1..] == Flood(first + 1, n - 1);
      var w2 := Step(limits, w1, Turn(first, false));
      assert Run(limits, w, events) == Run(limits, w1, events[1..]) == Run(limits, w2, Flood(first + 1, n - 1));
      OneOfMany(limits, w, first, n);
      FloodPasses(limits, w2, first + 1, n - 1);
      assert [w.now] + seq(n - 1, i => w.now) == seq(n, i => w.now);
    }
  }

  lemma AllAtOnce(now: Time, n: nat, width: real)
    requires width > 0.0
    ensures |Within(seq(n, i => now), now as real, now as real + width)| == n
  {
    assert Within(seq(n, i => now), now as real, now as real + width) == Interval(0, n);
  }

  /** A whole burst can pass at one moment, in however short an interval, so the bound cannot be improved. */
  lemma BurstIsAttained(limits: Limits, start: Time, totpOn: bool, width: real) returns (s: Stretch)
    requires 0.0 < width <= limits.lockoutMs
    ensures s.start == start && WithoutClear(limits, s)
    ensures |Within(Passed(limits, s), start as real, start as real + width)| == Burst(limits) ==
              Burst(limits) * Started(width, limits.lockoutMs)
  {
    s := Stretch(start, totpOn, [], Flood(0, Burst(limits)));
    FloodPasses(limits, Init(start, totpOn), 0, Burst(limits));
    AllAtOnce(start, Burst(limits), width);
    assert Passed(limits, s) == seq(Burst(limits), i => start);
    OneStarted(width, limits.lockoutMs);
  }

  /** Without a lockout period any number of guesses can pass at one moment. */
  lemma NoPeriodNoLimit(limits: Limits, start: Time, totpOn: bool, width: real, n: nat) returns (s: Stretch)
    requires limits.lockoutMs <= 0.0 && width > 0.0
    ensures s.start == start && WithoutClear(limits, s)
    ensures |Within(Passed(limits, s), start as real, start as real + width)| == n
  {
    s := Stretch(start, totpOn, [], Flood(0, n));
    FloodPasses(limits, Init(start, totpOn), 0, n);
    AllAtOnce(start, n, width);
    assert Passed(limits, s) == seq(n, i => start);
  }

  /** At most `most` guesses pass in the interval, if nothing clears the count. */
  ghost predicate AtMost(limits: Limits, s: Stretch, from: real, width: real, most: real) {
    WithoutClear(limits, s) ==> |Within(Passed(limits, s), from, from + width)| as real <= most
  }

  /** No millisecond of any run sees more than `most` guesses without a clear. */
  ghost predicate MomentsBounded(limits: Limits, most: real) {
    forall s, from :: AtMost(limits, s, from, 1.0, most)
  }

  /** The configured number of guesses for every period started. */
  function Allowance(limits: Limits, width: real): real
    requires width >= 0.0 && limits.lockoutMs > 0.0
  {
    limits.maxFailures * Started(width, limits.lockoutMs) as real
  }

  /**
    What the configuration promises: maxFailures guesses for every lockout period started;
    and where there is no period to count, at least some bound on what passes at one moment.
   */
  ghost predicate LimitKept(limits: Limits) {
    if limits.lockoutMs <= 0.0 then exists most :: MomentsBounded(limits, most)
    else
      forall s, from, width {:trigger AtMost(limits, s, from, width, Allowance(limits, width))} ::
        width >= 0.0 ==> AtMost(limits, s, from, width, Allowance(limits, width))
  }

  /**
    The configured limit is kept in every run if and only if it is a whole number of at least
    one and the period is positive: a limit below one still lets one guess pass, a fraction
    lets pass the next whole number, and without a period no bound holds at all.
   */
  lemma LimitKeptIff(limits: Limits)
    ensures LimitKept(limits) <==>
              WholeNumber(limits.maxFailures) && limits.maxFailures >= 1.0 && limits.lockoutMs > 0.0
  {
    if limits.lockoutMs <= 0.0 {
      forall most ensures !MomentsBounded(limits, most) {
        NoMomentBounded(limits, most);
      }
    } else if WholeNumber(limits.maxFailures) && limits.maxFailures >= 1.0 {
      forall s, from, width | width >= 0.0 ensures AtMost(limits, s, from, width, Allowance(limits, width)) {
        WholeLimitKept(limits, s, from, width);
      }
    } else {
      BurstExceeds(limits);
    }
  }

  lemma NoMomentBounded(limits: Limits, most: real)
    requires limits.lockoutMs <= 0.0
    ensures !MomentsBounded(limits, most)
  {
    var n := if most < 0.0 then 0 else most.Floor + 1;
    var s := NoPeriodNoLimit(limits, 0, true, 1.0, n);
    assert !AtMost(limits, s, 0.0, 1.0, most);
  }

  lemma WholeLimitKept(limits: Limits, s: Stretch, from: real, width: real)
    requires WholeNumber(limits.maxFailures) && limits.maxFailures >= 1.0
    requires limits.lockoutMs > 0.0 && width >= 0.0
    ensures AtMost(limits, s, from, width, Allowance(limits, width))
  {
    if WithoutClear(limits, s) {
      GuessesAreBounded(limits, s, from, width);
      WholeBurst(limits, Started(width, limits.lockoutMs));
    }
  }

  lemma WholeBurst(limits: Limits, n: nat)
    requires WholeNumber(limits.maxFailures) && limits.maxFailures >= 1.0
    ensures (Burst(limits) * n) as real == limits.maxFailures * n as real
  {
    BurstIsLimitIff(limits);
    CastProduct(Burst(limits), n);
  }

  lemma {:induction false} CastProduct(a: nat, n: nat)
    ensures (a * n) as real == a as real * n as real
  {
    if n > 0 {
      CastProduct(a, n - 1);
      assert a * n == a * (n - 1) + a;
      assert a as real * n as real == a as real * (n - 1) as real + a as real;
    }
  }

  /** Below one, or between two whole numbers, a single burst is already too much. */
  lemma BurstExceeds(limits: Limits)
    requires limits.lockoutMs > 0.0 && !(WholeNumber(limits.maxFailures) && limits.maxFailures >= 1.0)
    ensures !LimitKept(limits)
  {
    var s := BurstIsAttained(limits, 0, true, limits.lockoutMs);
    OneAllowance(limits);
    BurstIsLimitIff(limits);
    assert !AtMost(limits, s, 0.0, limits.lockoutMs, Allowance(limits, limits.lockoutMs));
  }

  lemma OneAllowance(limits: Limits)
    requires limits.lockoutMs > 0.0
    ensures Allowance(limits, limits.lockoutMs) == limits.maxFailures
  {
    OneStarted(limits.lockoutMs, limits.lockoutMs);
    assert Started(limits.lockoutMs, limits.lockoutMs) as real == 1.0;
  }

  lemma BurstIsLimitIff(limits: Limits)
    ensures Burst(limits) as real >= limits.maxFailures
    ensures Burst(limits) as real == limits.maxFailures <==>
              WholeNumber(limits.maxFailures) && limits.maxFailures >= 1.0
  {
    if limits.maxFailures > 1.0 {
      WholeIsItsCeiling(limits.maxFailures);
    } else if limits.maxFailures == 1.0 {
      WholeIsItsCeiling(1.0);
    }
  }

  /** A limit of two and a half, which the configuration accepts: three guesses pass within one millisecond. */
  lemma TwoAndAHalfLetsThreePass() returns (s: Stretch)
    ensures var limits := Limits(2.5, 1000.0);
            && WithoutClear(limits, s) && |Within(Passed(limits, s), 0.0, 1.0)| == 3
            && Allowance(limits, 1.0) == 2.5 && !LimitKept(limits)
  {
    var limits := Limits(2.5, 1000.0);
    s := BurstIsAttained(limits, 0, true, 1.0);
    OneStarted(1.0, 1000.0);
    LimitKeptIff(limits);
  }

  // ----- while TOTP is on, the first factor alone never clears

  /** No request has passed the TOTP question, and none can clear by any other right than a code. */
  ghost predicate NothingClears(w: World) {
    && w.totpOn
    && forall r :: r in w.requests ==>
         w.requests[r].pc != Clearing && (w.requests[r].kind == Passkey ==> w.requests[r].pc.Done?)
  }

  /** TOTP stays on, and nobody presents a correct code or a passkey. */
  predicate FirstFactorOnly(e: Event) {
    match e
    case SetTotp(on) => on
    case Arrive(_, kind) => kind != Passkey
    case _ => true
  }

  /** A correct code is the only answer withheld; passwords and Google logins may all be right. */
  predicate NoCorrectCode(w: World, e: Event) {
    e.Turn? && e.r in w.requests && w.requests[e.r].pc.Verifying? ==> !e.ok
  }

  predicate WithoutSecondFactor(limits: Limits, w: World, events: seq<Event>)
    decreases events
  {
    events != [] ==>
      && FirstFactorOnly(events[0]) && NoCorrectCode(w, events[0])
      && WithoutSecondFactor(limits, Step(limits, w, events[0]), events[1..])
  }

  lemma {:induction false} FirstFactorNeverClears(limits: Limits, w: World, events: seq<Event>)
    requires NothingClears(w) && WithoutSecondFactor(limits, w, events)
    ensures Run(limits, w, events).clears == w.clears
    ensures NothingClears(Run(limits, w, events))
    decreases events
  {
    if events != [] {
      FirstFactorNeverClears(limits, Step(limits, w, events[0]), events[1..]);
    }
  }

  /** So a password holder who signs in over and over gains no guesses. */
  lemma PasswordHolderIsBounded(limits: Limits, s: Stretch, from: real, width: real)
    requires limits.lockoutMs > 0.0 && width >= 0.0
    requires NothingClears(Opening(limits, s)) && WithoutSecondFactor(limits, Opening(limits, s), s.during)
    ensures |Within(Passed(limits, s), from, from + width)| <= Burst(limits) * Started(width, limits.lockoutMs)
  {
    FirstFactorNeverClears(limits, Opening(limits, s), s.during);
    GuessesAreBounded(limits, s, from, width);
  }
}
