/**
  How setups, confirmations, verifications and removals of the second factor end, in every
  interleaving: told from the factor a request finds at its own turns, and what each writes.
 */
module TotpOutcomes {
  import opened Base
  import opened TotpFactor

  /** What a request finds when a turn of its comes: the factor, the clock in it, and where its code matches. */
  datatype Seen = Seen(factor: Factor, offset: Option<int>)

  /** What the turns of request `r` find, in the order they come, once it has arrived. */
  function Finds(w: World, events: seq<Event>, r: ReqId): seq<Seen>
    decreases events
  {
    if events == [] then []
    else
      var rest := Finds(Step(w, events[0]), events[1..], r);
      if events[0].Turn? && events[0].r == r && r in w.requests
      then [Seen(w.factor, events[0].offset)] + rest else rest
  }

  predicate IsOn(f: Factor) {
    f.row.Some? && f.row.value.enabled
  }

  predicate IsPending(f: Factor) {
    f.row.Some? && !f.row.value.enabled
  }

  /** The code matches a step no more than one away from the clock. */
  predicate Near(seen: Seen) {
    seen.offset == Some(-1) || seen.offset == Some(0) || seen.offset == Some(1)
  }

  function Matched(seen: Seen): int
    requires seen.offset.Some?
  {
    seen.factor.step + seen.offset.value
  }

  /** Once the proof is decided, and whether it was accepted: three turns for six digits, two for a recovery code. */
  function Decided(proof: Proof, seen: seq<Seen>): Option<bool> {
    if |seen| < 1 then None
    else if !IsOn(seen[0].factor) then Some(false)
    else if |seen| < 2 then None
    else
      match proof
      case RecoveryCode(hash) =>
        Some(hash in seen[1].factor.codes && !seen[1].factor.codes[hash])
      case SixDigits =>
        if !Near(seen[1]) then Some(false)
        else if |seen| < 3 then None
        else Some(seen[2].factor.row.Some? && seen[2].factor.row.value.lastStep < Matched(seen[1]))
  }

  function DecisionTurns(proof: Proof): nat {
    if proof.SixDigits? then 3 else 2
  }

  function SetupEnds(seen: seq<Seen>): Option<bool> {
    if |seen| < 1 then None
    else if IsOn(seen[0].factor) then Some(false)
    else if |seen| < 3 then None
    else Some(seen[2].factor.row == None)
  }

  function ConfirmEnds(seen: seq<Seen>): Option<bool> {
    if |seen| < 1 then None
    else if !IsPending(seen[0].factor) then Some(false)
    else if |seen| < 2 then None
    else if !Near(seen[1]) then Some(false)
    else if |seen| < 3 then None
    else if !IsPending(seen[2].factor) then Some(false)
    else if |seen| < 5 then None
    else Some(true)
  }

  /** Whether a request has ended, and whether it was granted. */
  function Ends(input: Input, seen: seq<Seen>): Option<bool> {
    match input
    case Setup => SetupEnds(seen)
    case Confirm => ConfirmEnds(seen)
    case Verify(proof) => Decided(proof, seen)
    case Disable(proof) =>
      if Decided(proof, seen) != Some(true) then Decided(proof, seen)
      else if |seen| < DecisionTurns(proof) + 2 then None
      else Some(true)
    case Reset => if |seen| < 3 then None else Some(true)
  }

  function AnswerOf(q: Request): Option<bool> {
    if q.pc.Done? then Some(q.pc.ok) else None
  }

  /** Where a request is after it has seen this much. */
  predicate Stands(q: Request, seen: seq<Seen>) {
    && Ends(q.input, seen) == AnswerOf(q)
    && match q.pc
       case Start => |seen| == 0
       case Looked => |seen| == 1 && (q.input.Confirm? || (HasProof(q) && q.input.proof.SixDigits?))
       case Matched(step) => |seen| == 2 && HasProof(q) && q.input.proof.SixDigits? && Near(seen[1])
                             && step == Matched(seen[1])
       case Spending(hash) => |seen| == 1 && HasProof(q) && q.input.proof == RecoveryCode(hash)
       case Replacing => |seen| == 1 && q.input.Setup?
       case Pending => |seen| == 2 && q.input.Setup?
       case Enabling(step) => |seen| == 2 && q.input.Confirm? && Near(seen[1]) && step == Matched(seen[1])
       case Clearing => |seen| == 3 && q.input.Confirm?
       case Issuing => |seen| == 4 && q.input.Confirm?
       case Removing =>
         (q.input.Reset? && |seen| == 1)
         || (q.input.Disable? && |seen| == DecisionTurns(q.input.proof) && Decided(q.input.proof, seen) == Some(true))
       case RemovingRow =>
         (q.input.Reset? && |seen| == 2)
         || (q.input.Disable? && |seen| == DecisionTurns(q.input.proof) + 1
             && Decided(q.input.proof, seen) == Some(true))
       case Done(_) => true
  }

  predicate HasProof(q: Request) {
    q.input.Verify? || q.input.Disable?
  }

  lemma EndsStay(input: Input, seen: seq<Seen>, more: Seen)
    requires Ends(input, seen).Some?
    ensures Ends(input, seen + [more]) == Ends(input, seen)
  {
  }

  lemma ProofMoves(f: Factor, q: Request, offset: Option<int>, seen: seq<Seen>)
    requires HasProof(q) && !q.pc.Done? && Stands(q, seen)
    ensures Stands(Advance(f, q, offset).request, seen + [Seen(f, offset)])
  {
    assert Decided(q.input.proof, seen).Some? ==>
        Decided(q.input.proof, seen + [Seen(f, offset)]) == Decided(q.input.proof, seen);
  }

  lemma OtherMoves(f: Factor, q: Request, offset: Option<int>, seen: seq<Seen>)
    requires !HasProof(q) && !q.pc.Done? && Stands(q, seen)
    ensures Stands(Advance(f, q, offset).request, seen + [Seen(f, offset)])
  {
  }

  lemma TurnStands(w: World, r: ReqId, offset: Option<int>, seen: seq<Seen>)
    requires r in w.requests && Stands(w.requests[r], seen)
    ensures var v := Step(w, Turn(r, offset));
            && r in v.requests && v.requests[r].input == w.requests[r].input
            && Stands(v.requests[r], seen + [Seen(w.factor, offset)])
  {
    var q := w.requests[r];
    if q.pc.Done? {
      EndsStay(q.input, seen, Seen(w.factor, offset));
    } else if HasProof(q) {
      ProofMoves(w.factor, q, offset, seen);
    } else {
      OtherMoves(w.factor, q, offset, seen);
    }
  }

  lemma {:induction false} RunStands(w: World, events: seq<Event>, r: ReqId, seen: seq<Seen>)
    requires if r in w.requests then Stands(w.requests[r], seen) else seen == []
    ensures var v := Run(w, events); r in v.requests ==> Stands(v.requests[r], seen + Finds(w, events, r))
    decreases events
  {
    if events == [] {
      assert seen + [] == seen;
    } else {
      var e := events[0];
      var v := Step(w, e);
      if e.Turn? && e.r == r && r in w.requests {
        var found := Seen(w.factor, e.offset);
        TurnStands(w, r, e.offset, seen);
        RunStands(v, events[1..], r, seen + [found]);
        assert seen + [found] + Finds(v, events[1..], r) == seen + ([found] + Finds(v, events[1..], r));
      } else {
        assert r in w.requests ==> r in v.requests && v.requests[r] == w.requests[r];
        assert r !in w.requests && r in v.requests ==> v.requests[r].pc.Start?;
        RunStands(v, events[1..], r, seen);
      }
    }
  }

  /** In every run each request has been granted or refused exactly as what it found at its turns says. */
  lemma RequestsEndAsFound(start: nat, events: seq<Event>, r: ReqId)
    requires r in Run(Init(start), events).requests
    ensures var q := Run(Init(start), events).requests[r];
            AnswerOf(q) == Ends(q.input, Finds(Init(start), events, r))
  {
    RunStands(Init(start), events, r, []);
    assert [] + Finds(Init(start), events, r) == Finds(Init(start), events, r);
  }

  // ----- what each turn writes

  /** Ten codes, none of them handed out before or used, beside those that are there. */
  ghost predicate TenIssued(before: Factor, after: Factor) {
    && after.row == before.row
    && (forall h :: h in after.codes <==>
          h in before.codes || (before.supply <= h.preimage < before.supply + 10))
    && (forall h :: h in after.codes ==>
          after.codes[h] == (h in before.codes && before.codes[h]
                             && !(before.supply <= h.preimage < before.supply + 10)))
  }

  /** The same row and codes. */
  predicate Same(before: Factor, after: Factor) {
    after.row == before.row && after.codes == before.codes
  }

  /** What a turn of a request writes to the row and the codes. */
  ghost predicate WritesAsMeant(before: Factor, after: Factor, q: Request) {
    && after.step == before.step
    && match q.pc
       case Matched(step) =>
         if before.row.Some? && before.row.value.lastStep < step
         then after.row == Some(before.row.value.(lastStep := step)) && after.codes == before.codes
         else Same(before, after)
       case Spending(hash) =>
         if hash in before.codes && !before.codes[hash]
         then after.row == before.row && after.codes == before.codes[hash := true]
         else Same(before, after)
       case Replacing =>
         after.row == (if IsPending(before) then None else before.row) && after.codes == before.codes
       case Pending =>
         after.row == (if before.row.None? then Some(Row(false, 0)) else before.row) && after.codes == before.codes
       case Enabling(step) =>
         after.row == (if IsPending(before) then Some(Row(true, step)) else before.row) && after.codes == before.codes
       case Clearing => after.row == before.row && after.codes == map[]
       case Issuing => TenIssued(before, after)
       case Removing => after.row == before.row && after.codes == map[]
       case RemovingRow => after.row == None && after.codes == before.codes
       case _ => Same(before, after)
  }

  /** Together with where requests stand, this is all a run can do to the factor. */
  lemma TurnsWriteAsMeant(w: World, r: ReqId, offset: Option<int>)
    requires r in w.requests
    ensures WritesAsMeant(w.factor, Step(w, Turn(r, offset)).factor, w.requests[r])
  {
    if w.requests[r].pc.Issuing? {
      IssueWrites(w.factor, r);
    }
  }

  lemma IssueWrites(f: Factor, r: ReqId)
    ensures TenIssued(f, Apply(f, r, IssueCodes))
  {
    forall h ensures h in NewCodes(f.supply) <==> f.supply <= h.preimage < f.supply + 10 {
      assert h == HashToken(h.preimage);
    }
  }

  /** Between turns requests arrive, and only the clock moves. */
  lemma OutsideWritesNothing(w: World, e: Event)
    requires !e.Turn?
    ensures Step(w, e).factor == w.factor.(step := w.factor.step + if e.Tick? then e.steps else 0)
    ensures Step(w, e).requests == if e.Arrive? && e.r !in w.requests
                                   then w.requests[e.r := Request(e.input, Start, NoWin)] else w.requests
  {
  }
}
