/**
  The second factor of one account as a transition system: enrolment, confirmation, any
  number of parallel verifications, and removal, each repository call one atomic step.
 */
module TotpFactor {
  import opened Base

  type ReqId = nat

  /** What the user typed: six digits, or anything else, which is taken as a recovery code. */
  datatype Proof = SixDigits | RecoveryCode(hash: Digest)

  datatype Input = Setup | Confirm | Verify(proof: Proof) | Disable(proof: Proof) | Reset

  datatype Pc =
    | Start
    | Looked                // the row was there; the code is matched against the clock next
    | Matched(step: int)    // a code matched this step; advanceStep is next
    | Spending(hash: Digest)
    | Replacing             // setup: deletePending is next
    | Pending               // setup: createPending is next
    | Enabling(step: int)   // confirm: enable is next
    | Clearing              // confirm: the old recovery codes are deleted next
    | Issuing               // confirm: the new ones are inserted next
    | Removing              // the recovery codes are deleted next
    | RemovingRow
    | Done(ok: bool)

  /** `win` is the enrolment and step of an accepted code, or the recovery code that was accepted. */
  datatype Win = NoWin | ByStep(enrolment: nat, step: int) | ByCode(hash: Digest)

  datatype Request = Request(input: Input, pc: Pc, win: Win)

  datatype Row = Row(enabled: bool, lastStep: int)

  const CODES_PER_ENROLMENT := 10

  /**
    `step` is the clock in 30-second steps. `enrolment` counts the times a row was created
    or enabled; `base` is the step recorded then and `accepted` who had which step accepted
    since. `issued` holds every recovery code ever handed out and `spent` who used it.
   */
  datatype Factor = Factor(
    step: int,
    row: Option<Row>,
    codes: map<Digest, bool>, // hash to used
    supply: nat,
    enrolment: nat,
    base: int,
    accepted: map<int, ReqId>,
    issued: set<Digest>,
    spent: map<Digest, ReqId>)

  datatype World = World(factor: Factor, requests: map<ReqId, Request>)

  /** The one conditional write of a step. */
  datatype Effect =
    | Nothing
    | DropPending
    | CreatePending
    | Enable(step: int)
    | AdvanceStep(step: int)
    | Spend(hash: Digest)
    | DropCodes
    | IssueCodes
    | DropRow

  datatype Move = Move(request: Request, effect: Effect)

  datatype Event =
    | Tick(steps: nat)
    | Arrive(r: ReqId, input: Input)
    | Turn(r: ReqId, offset: Option<int>) // where within the drift window the code matches, if it does

  predicate Drift(offset: Option<int>) {
    offset.Some? && -1 <= offset.value <= 1
  }

  predicate Enabled(f: Factor) {
    f.row.Some? && f.row.value.enabled
  }

  function Goto(q: Request, pc: Pc): Move {
    Move(q.(pc := pc), Nothing)
  }

  /** Where a request goes once its proof was accepted. */
  function Accepted(q: Request, win: Win, effect: Effect): Move {
    Move(q.(pc := if q.input.Disable? then Removing else Done(true), win := win), effect)
  }

  /** The lookup. What it found may be replaced before the code is matched. */
  function StartMove(f: Factor, q: Request): Move {
    match q.input
    case Setup => Goto(q, if Enabled(f) then Done(false) else Replacing)
    case Confirm => Goto(q, if f.row.None? || Enabled(f) then Done(false) else Looked)
    case Reset => Goto(q, Removing)
    case _ =>
      if !Enabled(f) then Goto(q, Done(false))
      else if q.input.proof.RecoveryCode? then Goto(q, Spending(q.input.proof.hash))
      else Goto(q, Looked)
  }

  /** The clock is read only now; whether the code fits depends on the secret that was looked up. */
  function MatchMove(f: Factor, q: Request, offset: Option<int>): Move {
    if !Drift(offset) then Goto(q, Done(false))
    else if q.input.Confirm? then Goto(q, Enabling(f.step + offset.value))
    else Goto(q, Matched(f.step + offset.value))
  }

  function Advance(f: Factor, q: Request, offset: Option<int>): Move {
    match q.pc
    case Start => StartMove(f, q)
    case Looked => MatchMove(f, q, offset)
    case Matched(step) =>
      if f.row.None? || f.row.value.lastStep >= step then Goto(q, Done(false))
      else Accepted(q, ByStep(f.enrolment, step), AdvanceStep(step))
    case Spending(hash) =>
      if hash !in f.codes || f.codes[hash] then Goto(q, Done(false))
      else Accepted(q, ByCode(hash), Spend(hash))
    case Replacing => Move(q.(pc := Pending), if f.row.Some? && !Enabled(f) then DropPending else Nothing)
    case Pending => if f.row.Some? then Goto(q, Done(false)) else Move(q.(pc := Done(true)), CreatePending)
    case Enabling(step) =>
      if f.row.None? || Enabled(f) then Goto(q, Done(false)) else Move(q.(pc := Clearing), Enable(step))
    case Clearing => Move(q.(pc := Issuing), DropCodes)
    case Issuing => Move(q.(pc := Done(true)), IssueCodes)
    case Removing => Move(q.(pc := RemovingRow), DropCodes)
    case RemovingRow => Move(q.(pc := Done(true)), DropRow)
    case Done(_) => Goto(q, q.pc)
  }

  function NewCodes(supply: nat): set<Digest> {
    set k: nat | supply <= k < supply + CODES_PER_ENROLMENT :: HashToken(k)
  }

  function Apply(f: Factor, r: ReqId, effect: Effect): Factor {
    match effect
    case Nothing => f
    case DropPending => f.(row := None)
    case CreatePending => f.(row := Some(Row(false, 0)), enrolment := f.enrolment + 1, base := 0, accepted := map[])
    case Enable(step) => f.(row := Some(Row(true, step)), enrolment := f.enrolment + 1, base := step, accepted := map[])
    case AdvanceStep(step) =>
      if f.row.None? then f
      else f.(row := Some(f.row.value.(lastStep := step)), accepted := f.accepted[step := r])
    case Spend(hash) => f.(codes := f.codes[hash := true], spent := f.spent[hash := r])
    case DropCodes => f.(codes := map[])
    case IssueCodes =>
      f.(codes := f.codes + (map h | h in NewCodes(f.supply) :: false),
         supply := f.supply + CODES_PER_ENROLMENT,
         issued := f.issued + NewCodes(f.supply))
    case DropRow => f.(row := None)
  }

  function Step(w: World, e: Event): World {
    match e
    case Tick(steps) => w.(factor := w.factor.(step := w.factor.step + steps))
    case Arrive(r, input) =>
      if r in w.requests then w else w.(requests := w.requests[r := Request(input, Start, NoWin)])
    case Turn(r, offset) =>
      if r !in w.requests then w
      else
        var move := Advance(w.factor, w.requests[r], offset);
        World(Apply(w.factor, r, move.effect), w.requests[r := move.request])
  }

  function Run(w: World, events: seq<Event>): World
    decreases events
  {
    if events == [] then w else Run(Step(w, events[0]), events[1..])
  }

  function Init(step: nat): World {
    World(Factor(step, None, map[], 0, 0, 0, map[], {}, map[]), map[])
  }

  // ----- the invariant

  /** The accepted steps lie after the recorded one, up to the last; the last is at most one ahead of the clock. */
  predicate Guarded(f: Factor) {
    && f.step >= 0
    && f.base <= f.step + 1
    && (forall s :: s in f.accepted ==> f.base < s <= f.step + 1)
    && (f.row.Some? ==> f.base <= f.row.value.lastStep && forall s :: s in f.accepted ==> s <= f.row.value.lastStep)
  }

  predicate CodesOnce(f: Factor) {
    && (forall h :: h in f.codes ==> h in f.issued)
    && (forall h :: h in f.issued ==> h.preimage < f.supply)
    && (forall h :: h in f.spent ==> h in f.issued && (h in f.codes ==> f.codes[h]))
  }

  /** Where a request can be, given what it asks for. */
  predicate OnPath(q: Request) {
    match q.pc
    case Looked => q.input.Confirm? || ((q.input.Verify? || q.input.Disable?) && q.input.proof.SixDigits?)
    case Matched(_) => (q.input.Verify? || q.input.Disable?) && q.input.proof.SixDigits?
    case Spending(hash) => (q.input.Verify? || q.input.Disable?) && q.input.proof == RecoveryCode(hash)
    case Replacing => q.input.Setup?
    case Pending => q.input.Setup?
    case Enabling(_) => q.input.Confirm?
    case Clearing => q.input.Confirm?
    case Issuing => q.input.Confirm?
    case Removing => q.input.Disable? || q.input.Reset?
    case RemovingRow => q.input.Disable? || q.input.Reset?
    case Done(ok) => ok && q.input.Verify? ==>
      if q.input.proof.SixDigits? then q.win.ByStep? else q.win == ByCode(q.input.proof.hash)
    case Start => true
  }

  predicate RequestOk(f: Factor, r: ReqId, q: Request) {
    && OnPath(q)
    && (q.pc.Matched? ==> q.pc.step <= f.step + 1)
    && (q.pc.Enabling? ==> q.pc.step <= f.step + 1)
    && match q.win
       case NoWin => true
       case ByStep(enrolment, step) =>
         enrolment <= f.enrolment && (enrolment == f.enrolment ==> step in f.accepted && f.accepted[step] == r)
       case ByCode(hash) => hash in f.spent && f.spent[hash] == r
  }

  predicate Inv(w: World) {
    && Guarded(w.factor) && CodesOnce(w.factor)
    && forall r :: r in w.requests ==> RequestOk(w.factor, r, w.requests[r])
  }

  /** What is recorded stays recorded: nothing of the current enrolment, and no spent code, is forgotten. */
  predicate Evolves(f: Factor, g: Factor) {
    && f.step <= g.step && f.enrolment <= g.enrolment
    && (g.enrolment == f.enrolment ==> forall s :: s in f.accepted ==>
        s in g.accepted && g.accepted[s] == f.accepted[s])
    && (forall h :: h in f.spent ==> h in g.spent && g.spent[h] == f.spent[h])
  }

  lemma RequestKeeps(f: Factor, g: Factor, r: ReqId, q: Request)
    requires RequestOk(f, r, q) && Evolves(f, g)
    ensures RequestOk(g, r, q)
  {
  }

  /** When a write may happen: steps only forward and within the window, codes only while unused. */
  predicate Allowed(f: Factor, effect: Effect) {
    match effect
    case AdvanceStep(step) => f.row.Some? && f.row.value.lastStep < step <= f.step + 1
    case Enable(step) => step <= f.step + 1
    case Spend(hash) => hash in f.codes && !f.codes[hash]
    case _ => true
  }

  lemma WriteKeeps(f: Factor, r: ReqId, effect: Effect)
    requires Guarded(f) && CodesOnce(f) && Allowed(f, effect)
    ensures var g := Apply(f, r, effect); Guarded(g) && Evolves(f, g)
  {
  }

  lemma WriteKeepsCodes(f: Factor, r: ReqId, effect: Effect)
    requires CodesOnce(f) && Allowed(f, effect)
    ensures CodesOnce(Apply(f, r, effect))
  {
  }

  lemma AdvanceAllowed(f: Factor, r: ReqId, q: Request, offset: Option<int>)
    requires RequestOk(f, r, q)
    ensures Allowed(f, Advance(f, q, offset).effect)
  {
  }

  lemma OwnKeeps(f: Factor, r: ReqId, q: Request, offset: Option<int>)
    requires RequestOk(f, r, q) && Evolves(f, Apply(f, r, Advance(f, q, offset).effect))
    ensures var move := Advance(f, q, offset); RequestOk(Apply(f, r, move.effect), r, move.request)
  {
    if q.pc.Matched? || q.pc.Spending? {
      ProofKeeps(f, r, q, offset);
    } else {
      NoProofKeeps(f, r, q, offset);
    }
  }

  lemma ProofKeeps(f: Factor, r: ReqId, q: Request, offset: Option<int>)
    requires RequestOk(f, r, q) && (q.pc.Matched? || q.pc.Spending?)
    requires Evolves(f, Apply(f, r, Advance(f, q, offset).effect))
    ensures var move := Advance(f, q, offset); RequestOk(Apply(f, r, move.effect), r, move.request)
  {
  }

  lemma NoProofKeeps(f: Factor, r: ReqId, q: Request, offset: Option<int>)
    requires RequestOk(f, r, q) && !q.pc.Matched? && !q.pc.Spending?
    requires Evolves(f, Apply(f, r, Advance(f, q, offset).effect))
    ensures var move := Advance(f, q, offset); RequestOk(Apply(f, r, move.effect), r, move.request)
  {
  }

  lemma AdvanceKeeps(f: Factor, r: ReqId, q: Request, offset: Option<int>)
    requires Guarded(f) && CodesOnce(f) && RequestOk(f, r, q)
    ensures var move := Advance(f, q, offset);
            var g := Apply(f, r, move.effect);
            Guarded(g) && CodesOnce(g) && Evolves(f, g) && RequestOk(g, r, move.request)
  {
    AdvanceAllowed(f, r, q, offset);
    WriteKeeps(f, r, Advance(f, q, offset).effect);
    WriteKeepsCodes(f, r, Advance(f, q, offset).effect);
    OwnKeeps(f, r, q, offset);
  }

  lemma StepKeeps(w: World, e: Event)
    requires Inv(w)
    ensures Inv(Step(w, e))
  {
    var v := Step(w, e);
    if e.Turn? && e.r in w.requests {
      AdvanceKeeps(w.factor, e.r, w.requests[e.r], e.offset);
    }
    forall s | s in v.requests ensures RequestOk(v.factor, s, v.requests[s]) {
      if s in w.requests && !(e.Turn? && e.r == s) {
        RequestKeeps(w.factor, v.factor, s, w.requests[s]);
      }
    }
  }

  lemma {:induction false} RunKeeps(w: World, events: seq<Event>)
    requires Inv(w)
    ensures Inv(Run(w, events))
    decreases events
  {
    if events != [] {
      StepKeeps(w, events[0]);
      RunKeeps(Step(w, events[0]), events[1..]);
    }
  }

  // ----- replay and counting

  /** An accepted step is later than every step accepted since the enrolment, and than the recorded one. */
  lemma AcceptedStepsIncrease(w: World, r: ReqId, offset: Option<int>)
    requires Inv(w) && r in w.requests && w.requests[r].pc.Matched?
    requires Step(w, Turn(r, offset)).requests[r].win != w.requests[r].win
    ensures var step := w.requests[r].pc.step;
            && step > w.factor.base && (forall s :: s in w.factor.accepted ==> s < step)
            && Step(w, Turn(r, offset)).factor.accepted == w.factor.accepted[step := r]
  {
  }

  lemma {:induction false} IntervalHolds(s: set<int>, lo: int, hi: int)
    requires lo <= hi && forall x :: x in s ==> lo < x <= hi
    ensures |s| <= hi - lo
    decreases hi - lo
  {
    if lo < hi {
      var rest := s - {hi};
      IntervalHolds(rest, lo, hi - 1);
      assert s <= rest + {hi};
      assert |rest + {hi}| <= |rest| + 1;
      assert |s| <= |rest| + 1 by {
        if hi in s {
          assert s == rest + {hi};
        } else {
          assert s == rest;
        }
      }
    } else {
      assert forall x :: x !in s;
    }
  }

  /** The requests whose six digits were accepted since the current enrolment. */
  function Winners(w: World): set<ReqId> {
    set r | r in w.requests && w.requests[r].win.ByStep? && w.requests[r].win.enrolment == w.factor.enrolment
  }

  /** The requests a recovery code let through. */
  function CodeWinners(w: World): set<ReqId> {
    set r | r in w.requests && w.requests[r].win.ByCode?
  }

  /** A set of requests that hold different steps, or different codes, is no larger than those. */
  lemma {:induction false} NoMoreThan<T>(requests: set<ReqId>, holder: map<T, ReqId>)
    requires forall r :: r in requests ==> exists t :: t in holder && holder[t] == r
    ensures |requests| <= |holder|
    decreases |holder|
  {
    if requests != {} {
      var r :| r in requests;
      var t :| t in holder && holder[t] == r;
      var rest := holder - {t};
      assert rest.Keys == holder.Keys - {t};
      forall q | q in requests - {r} ensures exists u :: u in rest && rest[u] == q {
        var u :| u in holder && holder[u] == q;
        assert u in rest;
      }
      NoMoreThan(requests - {r}, rest);
    }
  }

  /**
    From the enrolment that recorded step `base`, at most `step + 1 - base` codes have been
    accepted by clock step `step`, over any number of parallel verifications.
   */
  lemma AcceptedCodesAreBounded(start: nat, events: seq<Event>)
    ensures var w := Run(Init(start), events);
            |Winners(w)| <= w.factor.step + 1 - w.factor.base
  {
    RunKeeps(Init(start), events);
    var w := Run(Init(start), events);
    forall r | r in Winners(w) ensures exists s :: s in w.factor.accepted && w.factor.accepted[s] == r {
      assert RequestOk(w.factor, r, w.requests[r]);
    }
    NoMoreThan(Winners(w), w.factor.accepted);
    IntervalHolds(w.factor.accepted.Keys, w.factor.base, w.factor.step + 1);
  }

  /** Confirming a setup starts the count at the confirmed step, so that code cannot be used again. */
  lemma ConfirmRecordsItsStep(w: World, r: ReqId, offset: Option<int>)
    requires Inv(w) && r in w.requests && w.requests[r].pc.Enabling?
    requires Step(w, Turn(r, offset)).requests[r].pc.Clearing?
    ensures var v := Step(w, Turn(r, offset));
            && v.factor.row == Some(Row(true, w.requests[r].pc.step))
            && v.factor.base == w.requests[r].pc.step && Winners(v) == {}
  {
  }

  /** Each recovery code lets at most one request through, and only codes that were issued do. */
  lemma RecoveryCodesWorkOnce(start: nat, events: seq<Event>)
    ensures var w := Run(Init(start), events);
            && |CodeWinners(w)| <= |w.factor.issued|
            && (forall r, s {:trigger w.requests[r].win, w.requests[s].win} ::
                  r in CodeWinners(w) && s in CodeWinners(w) && w.requests[r].win == w.requests[s].win ==> r == s)
  {
    RunKeeps(Init(start), events);
    var w := Run(Init(start), events);
    forall r | r in CodeWinners(w)
      ensures w.requests[r].win.hash in w.factor.spent && w.factor.spent[w.requests[r].win.hash] == r
    {
      assert RequestOk(w.factor, r, w.requests[r]);
    }
    NoMoreThan(CodeWinners(w), w.factor.spent);
    assert w.factor.spent.Keys <= w.factor.issued;
    assert w.factor.issued == w.factor.spent.Keys + (w.factor.issued - w.factor.spent.Keys);
  }
}
