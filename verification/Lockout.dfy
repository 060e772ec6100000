/** How many second-factor guesses the failure counter lets through, in any interleaving. */
module Lockout {
  import opened Base
  import opened LoginAttempts

  /** What the requests of one account do to its counter. */
  datatype Act =
    | Check  // authenticatePassword looks whether the account is locked
    | Record // authenticatePassword counts a failure, on the strength of an earlier look
    | Guess  // completeMfaLogin looks and counts in one step, and verifies when not locked

  /**
    The counter of one account with the times of the guesses that reached the verifier.
    `epoch` is how many of them came before the entry was last dropped.
   */
  datatype Tally = Tally(entry: Option<Entry>, guesses: seq<Time>, epoch: nat, last: Time)

  function Dropped(t: Tally, now: Time): Tally {
    var live := LiveEntry(t.entry, now);
    t.(entry := live, epoch := if t.entry.Some? && live.None? then |t.guesses| else t.epoch, last := now)
  }

  function Act1(limits: Limits, t: Tally, act: Act, now: Time): Tally {
    var d := Dropped(t, now);
    match act
    case Check => d
    case Record => d.(entry := Some(Counted(limits, d.entry, now)))
    case Guess =>
      if Locked(d.entry, now) then d
      else d.(entry := Some(Counted(limits, d.entry, now)), guesses := d.guesses + [now])
  }

  /** The least whole number that is no smaller. */
  function Ceiling(x: real): (n: int)
    ensures n as real - 1.0 < x <= n as real
  {
    -(-x).Floor
  }

  predicate WholeNumber(x: real) {
    x == x.Floor as real
  }

  lemma WholeIsItsCeiling(x: real)
    ensures Ceiling(x) as real == x <==> WholeNumber(x)
  {
    if WholeNumber(x) {
      assert Ceiling(x) - 1 < x.Floor <= Ceiling(x);
    } else if Ceiling(x) as real == x {
      FloorOf(x, Ceiling(x));
    }
  }

  lemma FloorOf(x: real, n: int)
    requires x == n as real
    ensures x.Floor == n
  {
  }

  /** The count that locks: the first whole number the limit allows to be reached, and at least one. */
  function Burst(limits: Limits): nat {
    if limits.maxFailures <= 1.0 then 1 else Ceiling(limits.maxFailures)
  }

  predicate Sorted(times: seq<Time>) {
    forall i, j :: 0 <= i < j < |times| ==> times[i] <= times[j]
  }

  /** Any guess comes a whole lockout after the one `Burst` places before it. */
  predicate Spaced(limits: Limits, times: seq<Time>) {
    forall k {:trigger SpacedAt(limits, times, k)} :: 0 <= k < |times| - Burst(limits) ==> SpacedAt(limits, times, k)
  }

  predicate SpacedAt(limits: Limits, times: seq<Time>, k: nat)
    requires k + Burst(limits) < |times|
  {
    times[k] as real + limits.lockoutMs <= times[k + Burst(limits)] as real
  }

  /** The first `n` guesses are a whole lockout before `when`. */
  predicate LongBefore(limits: Limits, times: seq<Time>, n: nat, when: real)
    requires n <= |times|
  {
    forall i :: 0 <= i < n ==> times[i] as real + limits.lockoutMs <= when
  }

  /** An entry explains the guesses since the epoch, and when the earlier ones were made. */
  predicate EntryOk(limits: Limits, entry: Option<Entry>, times: seq<Time>, epoch: nat, last: Time)
    requires epoch <= |times|
  {
    if entry.None? then
      epoch == |times| && LongBefore(limits, times, epoch, last as real)
    else if entry.value.lockedUntil == 0.0 then
      && 1 <= entry.value.count < Burst(limits) && |times| - epoch <= entry.value.count
      && LongBefore(limits, times, epoch, last as real)
    else
      && entry.value.count >= Burst(limits) && |times| - epoch <= Burst(limits)
      && LongBefore(limits, times, |times|, entry.value.lockedUntil)
  }

  predicate TallyOk(limits: Limits, t: Tally) {
    && t.epoch <= |t.guesses|
    && Sorted(t.guesses) && (forall i :: 0 <= i < |t.guesses| ==> t.guesses[i] <= t.last)
    && Spaced(limits, t.guesses)
    && EntryOk(limits, t.entry, t.guesses, t.epoch, t.last)
  }

  lemma DroppedKeeps(limits: Limits, t: Tally, now: Time)
    requires TallyOk(limits, t) && t.last <= now
    ensures TallyOk(limits, Dropped(t, now))
  {
  }

  /** A guess that passes starts, continues or fills a burst, and so keeps the spacing. */
  lemma PassedGuessSpaced(limits: Limits, d: Tally, now: Time)
    requires TallyOk(limits, d) && d.last == now
    requires d.entry.Some? ==> d.entry.value.lockedUntil == 0.0
    ensures Sorted(d.guesses + [now]) && Spaced(limits, d.guesses + [now])
  {
    var times := d.guesses + [now];
    forall k | 0 <= k < |times| - Burst(limits) ensures SpacedAt(limits, times, k) {
      if k + Burst(limits) == |d.guesses| {
        assert k < d.epoch && times[k] == d.guesses[k];
      } else {
        assert SpacedAt(limits, d.guesses, k);
      }
    }
  }

  lemma CountKeeps(limits: Limits, d: Tally, guesses: seq<Time>, now: Time)
    requires TallyOk(limits, d) && d.last == now && limits.lockoutMs > 0.0
    requires guesses == d.guesses || guesses == d.guesses + [now]
    requires guesses != d.guesses ==> (d.entry.Some? ==> d.entry.value.lockedUntil == 0.0)
    requires LiveEntry(d.entry, now) == d.entry
    ensures EntryOk(limits, Some(Counted(limits, d.entry, now)), guesses, d.epoch, now)
  {
  }

  lemma NowLast(times: seq<Time>, now: Time)
    requires forall i :: 0 <= i < |times| ==> times[i] <= now
    ensures forall i :: 0 <= i < |times + [now]| ==> (times + [now])[i] <= now
  {
  }

  lemma ActKeeps(limits: Limits, t: Tally, act: Act, now: Time)
    requires TallyOk(limits, t) && t.last <= now && limits.lockoutMs > 0.0
    ensures TallyOk(limits, Act1(limits, t, act, now))
  {
    DroppedKeeps(limits, t, now);
    var d := Dropped(t, now);
    match act
    case Check =>
    case Record => CountKeeps(limits, d, d.guesses, now);
    case Guess =>
      if !Locked(d.entry, now) {
        PassedGuessSpaced(limits, d, now);
        CountKeeps(limits, d, d.guesses + [now], now);
        NowLast(d.guesses, now);
      }
  }

  // ----- counting the guesses in an interval

  function Within(times: seq<Time>, from: real, to: real): set<nat> {
    set i: nat | i < |times| && from <= times[i] as real < to
  }

  function Interval(lo: nat, hi: nat): (r: set<nat>)
    requires lo <= hi
    ensures |r| == hi - lo && forall i: nat :: i in r <==> lo <= i < hi
    decreases hi
  {
    if lo == hi then {} else Interval(lo, hi - 1) + {hi - 1}
  }

  lemma SubsetSize(a: set<nat>, b: set<nat>)
    requires a <= b
    ensures |a| <= |b|
  {
    assert b == a + (b - a);
  }

  lemma {:induction false} Least(s: set<nat>) returns (least: nat)
    requires s != {}
    ensures least in s && forall i :: i in s ==> least <= i
    decreases s
  {
    var x :| x in s;
    if s == {x} {
      least := x;
    } else {
      var y := Least(s - {x});
      least := if y < x then y else x;
      assert forall i :: i in s ==> i == x || i in s - {x};
    }
  }

  /** One lockout's worth of time holds at most one burst. */
  lemma OneLockout(limits: Limits, times: seq<Time>, from: real)
    requires Sorted(times) && Spaced(limits, times)
    ensures |Within(times, from, from + limits.lockoutMs)| <= Burst(limits)
  {
    var inside := Within(times, from, from + limits.lockoutMs);
    if inside != {} {
      var first := Least(inside);
      var end := first + Burst(limits);
      assert end < |times| ==> SpacedAt(limits, times, first);
      assert forall i :: i in inside ==> i < end;
      SubsetSize(inside, Interval(first, end));
    }
  }

  lemma WiderHoldsMore(times: seq<Time>, from: real, width: real, wider: real)
    requires width <= wider
    ensures |Within(times, from, from + width)| <= |Within(times, from, from + wider)|
  {
    SubsetSize(Within(times, from, from + width), Within(times, from, from + wider));
  }

  function Times(n: nat, k: nat): (r: nat)
    ensures r == n * k
  {
    if n == 0 then 0 else k + Times(n - 1, k)
  }

  /** The length of `n` periods. */
  function Span(n: nat, period: real): real {
    if n == 0 then 0.0 else period + Span(n - 1, period)
  }

  lemma {:induction false} SpanIsProduct(n: nat, period: real)
    ensures Span(n, period) == n as real * period
  {
    if n > 0 {
      SpanIsProduct(n - 1, period);
      assert n as real * period == (n as real - 1.0) * period + period;
    }
  }

  /** An interval holds no more than its two parts. */
  lemma InTwo(times: seq<Time>, from: real, mid: real, to: real)
    ensures |Within(times, from, to)| <= |Within(times, from, mid)| + |Within(times, mid, to)|
  {
    var head, tail := Within(times, from, mid), Within(times, mid, to);
    SubsetSize(Within(times, from, to), head + tail);
    assert |head + tail| <= |head| + |tail|;
  }

  lemma {:induction false} ManyLockouts(limits: Limits, times: seq<Time>, from: real, n: nat)
    requires Sorted(times) && Spaced(limits, times) && limits.lockoutMs > 0.0
    ensures |Within(times, from, from + Span(n, limits.lockoutMs))| <= Times(n, Burst(limits))
    decreases n
  {
    var period := limits.lockoutMs;
    if n == 0 {
      assert Within(times, from, from) == {};
    } else {
      OneLockout(limits, times, from);
      ManyLockouts(limits, times, from + period, n - 1);
      assert from + period + Span(n - 1, period) == from + Span(n, period);
      InTwo(times, from, from + period, from + Span(n, period));
    }
  }

  /** How many periods are started in a stretch of time. */
  function Started(width: real, period: real): (n: nat)
    requires width >= 0.0 && period > 0.0
    ensures width <= n as real * period < width + period
  {
    var n := Ceiling(width / period);
    RoundedUp(width, period, width / period, n as real);
    NotFarUp(width, period, width / period, n as real);
    n
  }

  lemma RoundedUp(width: real, period: real, quotient: real, n: real)
    requires period > 0.0 && quotient * period == width && quotient <= n
    ensures width <= n * period
  {
    var rest := n - quotient;
    ProductOrder(rest, period);
    Distributes(rest, quotient, period);
  }

  lemma ProductOrder(a: real, b: real)
    requires a >= 0.0 && b > 0.0
    ensures a * b >= 0.0 && (a > 0.0 ==> a * b > 0.0)
  {
  }

  lemma Distributes(a: real, b: real, factor: real)
    ensures (a + b) * factor == a * factor + b * factor
  {
  }

  lemma NotFarUp(width: real, period: real, quotient: real, n: real)
    requires period > 0.0 && quotient * period == width && n - 1.0 < quotient
    ensures n * period < width + period
  {
    var next := quotient + 1.0;
    var rest := next - n;
    ProductOrder(rest, period);
    Distributes(rest, n, period);
    assert next * period == width + period by {
      Distributes(quotient, 1.0, period);
    }
  }

  /** At most `Burst` guesses per started lockout period, in every half-open interval. */
  lemma IntervalBound(limits: Limits, times: seq<Time>, from: real, width: real)
    requires Sorted(times) && Spaced(limits, times) && limits.lockoutMs > 0.0 && width >= 0.0
    ensures |Within(times, from, from + width)| <= Burst(limits) * Started(width, limits.lockoutMs)
  {
    var n := Started(width, limits.lockoutMs);
    ManyLockouts(limits, times, from, n);
    SpanIsProduct(n, limits.lockoutMs);
    WiderHoldsMore(times, from, width, Span(n, limits.lockoutMs));
  }

  /** An interval no longer than a period starts just one. */
  lemma OneStarted(width: real, period: real)
    requires 0.0 < width <= period
    ensures Started(width, period) == 1
  {
    assert 0.0 < width / period <= 1.0;
  }

  // ----- without a lockout period there is no bound

  function Guesses(limits: Limits, t: Tally, now: Time, n: nat): Tally
    decreases n
  {
    if n == 0 then t else Guesses(limits, Act1(limits, t, Guess, now), now, n - 1)
  }

  /** With a period of zero or less, any number of guesses pass at one and the same moment. */
  lemma {:induction false} NoPeriodNoBound(limits: Limits, t: Tally, now: Time, n: nat)
    requires limits.lockoutMs <= 0.0
    requires t.entry.Some? ==> t.entry.value.lockedUntil <= now as real
    ensures |Guesses(limits, t, now, n).guesses| == |t.guesses| + n
    decreases n
  {
    if n > 0 {
      NoPeriodNoBound(limits, Act1(limits, t, Guess, now), now, n - 1);
    }
  }
}
