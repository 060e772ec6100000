/** What emailed links can and cannot do, in every interleaving. */
module LinkTheorems {
  import opened Base
  import opened Users
  import opened Links
  import opened LinkRedemption

  /** Each link lets at most one request through, and only at an endpoint its purpose is meant for. */
  lemma LinksActOnce(now: Time, users: UserTable, events: seq<Event>, r: ReqId, s: ReqId)
    requires var w := Run(Init(now, users), events); r in w.requests && s in w.requests
    ensures var w := Run(Init(now, users), events);
            var q := w.requests[r];
            && (q.used.Some? && q.used == w.requests[s].used ==> r == s)
            && (q.used.Some? ==>
                  q.used.value in w.db.minted && w.db.minted[q.used.value].purpose in Accepts(q.input)
                  && HashToken(q.input.token) == w.db.minted[q.used.value].tokenHash)
  {
    RunKeeps(Init(now, users), events);
    var w := Run(Init(now, users), events);
    assert RequestOk(w.db.minted, w.db.usedBy, r, w.requests[r])
           && RequestOk(w.db.minted, w.db.usedBy, s, w.requests[s]);
  }

  /** A weak password, a taken address or an expired link costs the user no link. */
  lemma CheapRefusalsKeepTheLink(now: Time, users: UserTable, events: seq<Event>, r: ReqId)
    requires var w := Run(Init(now, users), events);
             r in w.requests && w.requests[r].pc.Done? && w.requests[r].pc.outcome.Refused?
             && Cheap(w.requests[r].pc.outcome.error)
    ensures var w := Run(Init(now, users), events); forall l :: l in w.db.usedBy ==> w.db.usedBy[l] != r
  {
    RunKeeps(Init(now, users), events);
    var w := Run(Init(now, users), events);
    assert RequestOk(w.db.minted, w.db.usedBy, r, w.requests[r]);
  }

  /** Whatever happens to the address meanwhile, a verification link marks only the address it names. */
  lemma VerificationMarksItsAddress(w: World, r: ReqId, id: Id)
    requires Inv(w) && r in w.requests && w.requests[r].input.Verify?
    requires id in w.db.users && id in Step(w, Turn(r)).db.users
    requires Step(w, Turn(r)).db.users[id] != w.db.users[id]
    ensures var used := w.requests[r].used;
            && used.Some? && used.value in w.db.minted
            && w.db.minted[used.value].purpose == VerifyEmail && w.db.minted[used.value].userId == id
            && CiEquals(w.db.users[id].email, Some(w.db.minted[used.value].email))
            && Step(w, Turn(r)).db.users[id] == w.db.users[id].(emailVerified := true)
  {
  }

  // ----- what a check is worth when the write comes later

  /** Event i of the run takes the condition from `from` to its opposite. */
  ghost predicate Flips(w: World, events: seq<Event>, i: int, p: World -> bool, from: bool) {
    && 0 <= i < |events|
    && p(Run(w, events[..i])) == from && p(Step(Run(w, events[..i]), events[i])) != from
  }

  /** Event i of the run is one of these writes. */
  ghost predicate IsWrite(w: World, events: seq<Event>, i: int, writes: (World, Event) -> bool) {
    0 <= i < |events| && writes(Run(w, events[..i]), events[i])
  }

  /** One of the writes makes the condition true, and none of them after it makes it false again. */
  ghost predicate Switched(w: World, events: seq<Event>, p: World -> bool, writes: (World, Event) -> bool) {
    exists i ::
      && Flips(w, events, i, p, false) && IsWrite(w, events, i, writes)
      && forall j :: i < j < |events| && IsWrite(w, events, j, writes) ==> !Flips(w, events, j, p, true)
  }

  /** Nothing but these writes changes the condition. */
  ghost predicate OnlyBy(p: World -> bool, writes: (World, Event) -> bool) {
    forall v, e :: p(v) != p(Step(v, e)) ==> writes(v, e)
  }

  lemma {:induction false} RunsOn(w: World, events: seq<Event>, e: Event)
    ensures Run(w, events + [e]) == Step(Run(w, events), e)
    decreases events
  {
    if events == [] {
      assert events + [e] == [e];
      assert Run(w, [e]) == Run(Step(w, e), []);
    } else {
      assert (events + [e])[0] == events[0] && (events + [e])[1..] == events[1..] + [e];
      RunsOn(Step(w, events[0]), events[1..], e);
    }
  }

  lemma FlipsBefore(w: World, init: seq<Event>, e: Event, p: World -> bool, from: bool)
    ensures forall i :: i < |init| ==> (Flips(w, init + [e], i, p, from) <==> Flips(w, init, i, p, from))
    ensures Flips(w, init + [e], |init|, p, from) <==> p(Run(w, init)) == from && p(Step(Run(w, init), e)) != from
  {
    var events := init + [e];
    assert events[..|init|] == init;
    assert forall i :: 0 <= i < |init| ==> events[..i] == init[..i] && events[i] == init[i];
  }

  /** A condition that was false ends up true exactly when the last event to change it made it true. */
  lemma {:induction false} LastFlipDecides(w: World, events: seq<Event>, p: World -> bool)
    requires !p(w)
    ensures p(Run(w, events)) <==>
              exists i ::
                Flips(w, events, i, p, false) && forall j :: i < j < |events| ==> !Flips(w, events, j, p, true)
    decreases events
  {
    if events != [] {
      var n := |events| - 1;
      var init, e := events[..n], events[n];
      assert events == init + [e];
      LastFlipDecides(w, init, p);
      RunsOn(w, init, e);
      FlipsBefore(w, init, e, p, false);
      FlipsBefore(w, init, e, p, true);
      if p(Run(w, events)) {
        var i: int;
        if p(Run(w, init)) {
          i :| Flips(w, init, i, p, false) && forall j :: i < j < n ==> !Flips(w, init, j, p, true);
        } else {
          i := n;
        }
        assert Flips(w, events, i, p, false);
        assert forall j :: i < j < |events| ==> !Flips(w, events, j, p, true);
      }
    }
  }

  /** So when only certain writes can change it, it is the last of those to change it that decides. */
  lemma LastWriteDecides(w: World, events: seq<Event>, p: World -> bool, writes: (World, Event) -> bool)
    requires !p(w) && OnlyBy(p, writes)
    ensures p(Run(w, events)) <==> Switched(w, events, p, writes)
  {
    LastFlipDecides(w, events, p);
    forall i, from | Flips(w, events, i, p, from) ensures IsWrite(w, events, i, writes) {
      var v := Run(w, events[..i]);
      assert p(v) != p(Step(v, events[i]));
    }
  }

  function AddressOf(users: UserTable, id: Id): Option<Address> {
    if id in users then users[id].email else None
  }

  /** The account has come to another address than this. */
  function Elsewhere(id: Id, address: Address): World -> bool {
    (w: World) => AddressOf(w.db.users, id) != Some(address)
  }

  /** Somebody else has come to hold the address. */
  function Occupied(id: Id, address: Address): World -> bool {
    (w: World) => TakenByOther(w.db.users, id, address)
  }

  /** The writes that can take the account to another address, or back: a table edit, or a confirmed change. */
  function MovesOf(id: Id): (World, Event) -> bool {
    (w: World, e: Event) => e.EditUsers? || (Changing(w, e) && w.requests[e.r].pc.record.userId == id)
  }

  /** The writes that can give an address to another account, or take it away from one. */
  function MovesOfOthers(id: Id): (World, Event) -> bool {
    (w: World, e: Event) => e.EditUsers? || (Changing(w, e) && w.requests[e.r].pc.record.userId != id)
  }

  /** The event is the turn in which a confirmation writes the new address of its link. */
  predicate Changing(w: World, e: Event) {
    && e.Turn? && e.r in w.requests && w.requests[e.r].pc.Acting?
    && w.requests[e.r].pc.record.purpose == EmailChange
  }

  /** The rows and their addresses are the same, but perhaps for the address of one account. */
  predicate SameAddresses(before: UserTable, after: UserTable, but: Option<Id>) {
    after.Keys == before.Keys && forall k :: k in before && Some(k) != but ==> after[k].email == before[k].email
  }

  function Readdressed(effect: Effect): Option<Id> {
    if effect.UpdateUser? && effect.patch.email.Some? then Some(effect.userId) else None
  }

  lemma EffectOnAddresses(db: Db, r: ReqId, effect: Effect)
    ensures SameAddresses(db.users, Apply(db, r, effect).users, Readdressed(effect))
  {
  }

  lemma OnlyChangesReaddress(db: Db, q: Request)
    ensures var who := Readdressed(Advance(db, q).effect);
            who.Some? ==> q.pc.Acting? && q.pc.record.purpose == EmailChange && who.value == q.pc.record.userId
  {
  }

  lemma StepOnAddresses(v: World, e: Event)
    requires !e.EditUsers?
    ensures SameAddresses(v.db.users, Step(v, e).db.users,
                          if Changing(v, e) then Some(v.requests[e.r].pc.record.userId) else None)
  {
    if e.Turn? && e.r in v.requests {
      EffectOnAddresses(v.db, e.r, Advance(v.db, v.requests[e.r]).effect);
      OnlyChangesReaddress(v.db, v.requests[e.r]);
    }
  }

  lemma OnlyMovesLeadElsewhere(id: Id, address: Address)
    ensures OnlyBy(Elsewhere(id, address), MovesOf(id))
  {
    forall v, e | Elsewhere(id, address)(v) != Elsewhere(id, address)(Step(v, e)) ensures MovesOf(id)(v, e) {
      if !e.EditUsers? {
        StepOnAddresses(v, e);
      }
    }
  }

  lemma OnlyMovesOccupy(id: Id, address: Address)
    ensures OnlyBy(Occupied(id, address), MovesOfOthers(id))
  {
    forall v, e | Occupied(id, address)(v) != Occupied(id, address)(Step(v, e)) ensures MovesOfOthers(id)(v, e) {
      if !e.EditUsers? {
        StepOnAddresses(v, e);
        SameOccupants(v.db.users, Step(v, e).db.users, id, address);
      }
    }
  }

  lemma SameOccupants(before: UserTable, after: UserTable, id: Id, address: Address)
    ensures SameAddresses(before, after, Some(id)) || SameAddresses(before, after, None) ==>
              (TakenByOther(before, id, address) <==> TakenByOther(after, id, address))
  {
    if SameAddresses(before, after, Some(id)) || SameAddresses(before, after, None) {
      assert forall k :: k in before && k != id ==> after[k].email == before[k].email;
    }
  }

  /** In the world the request has gone on, by its own turns among the events, to where it is about to write. */
  ghost predicate Underway(w: World, r: ReqId, during: seq<Event>) {
    && r in w.requests && w.requests[r].pc.Consuming?
    && var v := Run(w, during); r in v.requests && v.requests[r].pc.Acting?
  }

  /** A request keeps what it asked for, and the link it found, until it writes. */
  lemma StaysOnItsLink(w: World, e: Event, r: ReqId)
    requires Inv(w) && r in w.requests
    ensures var v := Step(w, e); r in v.requests && v.requests[r].input == w.requests[r].input
    ensures forall l :: l in w.db.minted ==> l in Step(w, e).db.minted && Step(w, e).db.minted[l] == w.db.minted[l]
  {
    KeepsItsInput(w, e, r);
    if e.Turn? {
      MintedStays(w, e);
    } else {
      OutsideKeeps(w.db, e);
    }
  }

  lemma KeepsItsInput(w: World, e: Event, r: ReqId)
    requires r in w.requests
    ensures var v := Step(w, e); r in v.requests && v.requests[r].input == w.requests[r].input
  {
    if e.Turn? && e.r in w.requests {
      assert Advance(w.db, w.requests[e.r]).request.input == w.requests[e.r].input;
    }
  }

  lemma MintedStays(w: World, e: Event)
    requires e.Turn?
    ensures Step(w, e).db.minted == w.db.minted
  {
    if e.r in w.requests {
      var effect := Advance(w.db, w.requests[e.r]).effect;
      WriteLeavesMinted(w.db, e.r, effect);
    }
  }

  lemma WriteLeavesMinted(db: Db, r: ReqId, effect: Effect)
    ensures Apply(db, r, effect).minted == db.minted
  {
  }

  lemma {:induction false} StaysOnItsLinkInRuns(w: World, events: seq<Event>, r: ReqId)
    requires Inv(w) && r in w.requests
    ensures var v := Run(w, events); Inv(v) && r in v.requests && v.requests[r].input == w.requests[r].input
    ensures forall l :: l in w.db.minted ==>
              l in Run(w, events).db.minted && Run(w, events).db.minted[l] == w.db.minted[l]
    decreases events
  {
    if events != [] {
      StepKeeps(w, events[0]);
      StaysOnItsLink(w, events[0], r);
      StaysOnItsLinkInRuns(Step(w, events[0]), events[1..], r);
    }
  }

  /** Where a request is that passed its checks and is about to write: it holds the link it had then. */
  lemma HoldsItsLink(w: World, r: ReqId, during: seq<Event>)
    requires Inv(w) && Underway(w, r, during)
    ensures var q, p := w.requests[r], Run(w, during).requests[r];
            && Inv(Run(w, during)) && p.input == q.input && p.pc.id == q.pc.id && p.pc.record == q.pc.record
            && p.used == Some(q.pc.id)
  {
    StaysOnItsLinkInRuns(w, during, r);
    var v := Run(w, during);
    assert RequestOk(w.db.minted, w.db.usedBy, r, w.requests[r]);
    assert RequestOk(v.db.minted, v.db.usedBy, r, v.requests[r]);
  }

  /**
    A reset checks the address when it finds the account and does not compare it again when
    it writes. In every run, for everything that runs between the two: whatever address the
    account has then is marked, and it is the one the link was mailed to if and only if no
    edit of the table and no confirmed change of that account in between left it elsewhere.
   */
  lemma ResetMarksProvenAddressIff(now: Time, users: UserTable, before: seq<Event>, r: ReqId, during: seq<Event>)
    requires var w := Run(Init(now, users), before);
             r in w.requests && w.requests[r].input.Reset? && w.requests[r].pc.Found?
    requires var checked := Step(Run(Init(now, users), before), Turn(r));
             Underway(checked, r, during)
    ensures var checked := Step(Run(Init(now, users), before), Turn(r));
            var link := checked.requests[r].pc.record;
            var after := Step(Run(checked, during), Turn(r)).db.users;
            && (link.userId in after ==> after[link.userId].emailVerified)
            && (AddressOf(after, link.userId) == Some(link.mailedTo) <==>
                !Switched(checked, during, Elsewhere(link.userId, link.mailedTo), MovesOf(link.userId)))
  {
    RunKeeps(Init(now, users), before);
    var w := Run(Init(now, users), before);
    var checked := Step(w, Turn(r));
    assert RequestOk(w.db.minted, w.db.usedBy, r, w.requests[r]);
    StepKeeps(w, Turn(r));
    var link := checked.requests[r].pc.record;
    assert AddressOf(checked.db.users, link.userId) == Some(link.mailedTo);
    HoldsItsLink(checked, r, during);
    OnlyMovesLeadElsewhere(link.userId, link.mailedTo);
    LastWriteDecides(checked, during, Elsewhere(link.userId, link.mailedTo), MovesOf(link.userId));
    ResetWrites(Run(checked, during), r);
  }

  lemma ResetWrites(w: World, r: ReqId)
    requires Inv(w) && r in w.requests && w.requests[r].input.Reset? && w.requests[r].pc.Acting?
    ensures var id := w.requests[r].pc.record.userId;
            var after := Step(w, Turn(r)).db.users;
            && after.Keys == w.db.users.Keys
            && (id in after ==> after[id] == w.db.users[id].(emailVerified := true,
                                                             passwordHash := Some(w.requests[r].input.passwordHash)))
  {
    assert RequestOk(w.db.minted, w.db.usedBy, r, w.requests[r]);
  }

  /** The run in which it goes wrong: the address changes between the check and the write. */
  function MovedDuringReset(user: User, to: Address, passwordHash: Digest): seq<Event>
    requires user.email.Some?
  {
    [Mint(0, user.email.value, PasswordReset, user.email.value, 1),
     Arrive(0, Reset(0, passwordHash, true)), Turn(0), Turn(0),
     EditUsers(map[0 := user.(email := Some(to), emailVerified := false)]), Turn(0), Turn(0)]
  }

  /** A link mailed to one address can leave another one marked that nobody ever proved. */
  lemma ResetCanMarkAnUnprovenAddress(now: Time, user: User, to: Address, passwordHash: Digest)
    requires user.email.Some? && user.deletedAt.None? && user.email != Some(to)
    ensures var end := Run(Init(now, map[0 := user]), MovedDuringReset(user, to, passwordHash));
            && 0 in end.db.users && end.db.users[0].email == Some(to) && end.db.users[0].emailVerified
            && 0 in end.requests && end.requests[0].used == Some(0)
            && end.db.minted.Keys == {0} && end.db.minted[0].mailedTo == user.email.value
  {
    var events := MovedDuringReset(user, to, passwordHash);
    var w0 := Init(now, map[0 := user]);
    var w1 := Step(w0, events[0]);
    var w2 := Step(w1, events[1]);
    var w3 := Step(w2, events[2]);
    assert w3.requests[0].pc == Found(0, w1.db.links[0]);
    var w4 := Step(w3, events[3]);
    var w5 := Step(w4, events[4]);
    var w6 := Step(w5, events[5]);
    var w7 := Step(w6, events[6]);
    SevenSteps(w0, events);
    assert events[7..] == [];
  }

  lemma SevenSteps(w: World, events: seq<Event>)
    requires |events| >= 7
    ensures Run(w, events) ==
            Run(Step(Step(Step(Step(Step(Step(Step(w, events[0]), events[1]), events[2]), events[3]), events[4]),
                          events[5]),
                     events[6]), events[7..])
  {
    var w1 := Step(w, events[0]);
    var w2 := Step(w1, events[1]);
    var w3 := Step(w2, events[2]);
    var w4 := Step(w3, events[3]);
    var w5 := Step(w4, events[4]);
    var w6 := Step(w5, events[5]);
    assert forall k :: 0 <= k < 7 ==> events[k..][0] == events[k] && events[k..][1..] == events[k + 1..];
    assert events[0..] == events;
    assert Run(w, events) == Run(w1, events[1..]);
    assert Run(w1, events[1..]) == Run(w2, events[2..]);
    assert Run(w2, events[2..]) == Run(w3, events[3..]);
    assert Run(w3, events[3..]) == Run(w4, events[4..]);
    assert Run(w4, events[4..]) == Run(w5, events[5..]);
    assert Run(w5, events[5..]) == Run(w6, events[6..]);
  }

  /**
    A confirmed change asks whether the address is free before it uses up the link, not when
    it writes. In every run, the link is used up; and the write is refused because the account
    is gone, or else, if and only if an edit of the table or another account's confirmed change
    in between left the address with somebody else, because the address is taken.
   */
  lemma TakenMeanwhileCostsTheLinkIff(now: Time, users: UserTable, before: seq<Event>, r: ReqId, during: seq<Event>)
    requires var w := Run(Init(now, users), before); r in w.requests && w.requests[r].pc.Vacant?
    requires var checked := Step(Run(Init(now, users), before), Turn(r));
             Underway(checked, r, during)
    ensures var checked := Step(Run(Init(now, users), before), Turn(r));
            var link := checked.requests[r].pc.record;
            var after := Step(Run(checked, during), Turn(r));
            && r in after.requests && after.requests[r].used == Some(checked.requests[r].pc.id)
            && after.requests[r].pc == Done(
                 if link.userId !in Run(checked, during).db.users then Refused(InvalidLink)
                 else if Switched(checked, during, Occupied(link.userId, link.email), MovesOfOthers(link.userId))
                 then Refused(DuplicateKey)
                 else Ok)
  {
    RunKeeps(Init(now, users), before);
    var checked := Step(Run(Init(now, users), before), Turn(r));
    FoundVacant(Run(Init(now, users), before), r);
    HoldsItsLink(checked, r, during);
    var link := checked.requests[r].pc.record;
    OnlyMovesOccupy(link.userId, link.email);
    LastWriteDecides(checked, during, Occupied(link.userId, link.email), MovesOfOthers(link.userId));
    ChangeWrites(Run(checked, during), r);
  }

  lemma FoundVacant(w: World, r: ReqId)
    requires Inv(w) && r in w.requests && w.requests[r].pc.Vacant?
    ensures var v := Step(w, Turn(r));
            && Inv(v) && r in v.requests
            && (v.requests[r].pc.Consuming? ==>
                  var link := v.requests[r].pc.record;
                  link.purpose == EmailChange && !TakenByOther(v.db.users, link.userId, link.email))
  {
    StepKeeps(w, Turn(r));
    assert RequestOk(w.db.minted, w.db.usedBy, r, w.requests[r]);
  }

  lemma ChangeWrites(w: World, r: ReqId)
    requires r in w.requests && w.requests[r].pc.Acting? && w.requests[r].pc.record.purpose == EmailChange
    ensures var link, v := w.requests[r].pc.record, Step(w, Turn(r));
            && r in v.requests && v.requests[r].used == w.requests[r].used
            && v.requests[r].pc == Done(
                 if link.userId !in w.db.users then Refused(InvalidLink)
                 else if TakenByOther(w.db.users, link.userId, link.email) then Refused(DuplicateKey)
                 else Ok)
  {
  }

  /** The run in which that happens: somebody registers with the address between the two. */
  function TakenDuringConfirm(user: User, to: Address): seq<Event>
    requires user.email.Some?
  {
    [Mint(0, to, EmailChange, user.email.value, 1), Arrive(0, Confirm(0)), Turn(0), Turn(0), Turn(0),
     EditUsers(map[0 := user, 1 := User(Some(to), None, None, false, None)]), Turn(0), Turn(0)]
  }

  lemma AConfirmationCanLoseItsLink(now: Time, user: User, to: Address)
    requires user.email.Some? && user.deletedAt.None? && !CiEquals(user.email, Some(to))
    ensures var end := Run(Init(now, map[0 := user]), TakenDuringConfirm(user, to));
            && 0 in end.requests && end.requests[0].used == Some(0) && end.requests[0].pc == Done(Refused(DuplicateKey))
            && 0 in end.db.users && end.db.users[0] == user
  {
    var events := TakenDuringConfirm(user, to);
    var w0 := Init(now, map[0 := user]);
    var w1 := Step(w0, events[0]);
    var w2 := Step(w1, events[1]);
    var w3 := Step(w2, events[2]);
    assert w3.requests[0].pc == Found(0, w1.db.links[0]);
    var w4 := Step(w3, events[3]);
    assert w4.requests[0].pc == Vacant(0, w1.db.links[0]);
    var w5 := Step(w4, events[4]);
    assert w5.requests[0].pc == Consuming(0, w1.db.links[0]);
    var w6 := Step(w5, events[5]);
    var w7 := Step(w6, events[6]);
    assert 1 in w7.db.users && CiEquals(w7.db.users[1].email, Some(to));
    SevenSteps(w0, events);
    assert Run(w0, events) == Run(w7, events[7..]) == Run(Step(w7, events[7]), []);
  }

  // ----- closing an account's links

  /** A link that can no longer be consumed stays that way, and so does who used it, if anyone. */
  lemma ShutStays(w: World, e: Event, l: Id)
    requires Inv(w) && l < w.db.supply && !Consumable(w.db.links, l)
    ensures var v := Step(w, e);
            && l < v.db.supply && !Consumable(v.db.links, l)
            && (l in v.db.usedBy <==> l in w.db.usedBy) && (l in w.db.usedBy ==> v.db.usedBy[l] == w.db.usedBy[l])
  {
    if e.Turn? && e.r in w.requests {
      AdvanceKeeps(w.db, e.r, w.requests[e.r]);
      WriteLeavesShut(w.db, e.r, Advance(w.db, w.requests[e.r]).effect, l);
    } else {
      assert Outside(w.db, e).supply >= w.db.supply;
    }
  }

  lemma WriteLeavesShut(db: Db, r: ReqId, effect: Effect, l: Id)
    requires !Consumable(db.links, l) && (effect.Consume? ==> Consumable(db.links, effect.link))
    ensures var d := Apply(db, r, effect);
            && d.supply == db.supply && !Consumable(d.links, l)
            && (l in d.usedBy <==> l in db.usedBy) && (l in db.usedBy ==> d.usedBy[l] == db.usedBy[l])
  {
  }

  lemma {:induction false} ShutForGood(w: World, events: seq<Event>, l: Id)
    requires Inv(w) && l < w.db.supply && !Consumable(w.db.links, l)
    ensures var v := Run(w, events);
            && !Consumable(v.db.links, l)
            && (l in v.db.usedBy <==> l in w.db.usedBy) && (l in w.db.usedBy ==> v.db.usedBy[l] == w.db.usedBy[l])
    decreases events
  {
    if events != [] {
      ShutStays(w, events[0], l);
      StepKeeps(w, events[0]);
      ShutForGood(Step(w, events[0]), events[1..], l);
    }
  }

  /**
    Once a password reset or change has closed the account's links, no account-changing
    link minted before that step is ever consumed by anyone.
   */
  lemma ClosedLinksStayClosed(now: Time, users: UserTable, before: seq<Event>, r: ReqId, later: seq<Event>, l: Id)
    requires var w := Run(Init(now, users), before);
             && r in w.requests && w.requests[r].pc.Closing?
             && l in w.db.minted && w.db.minted[l].userId == w.requests[r].pc.owner
             && AccountChanging(w.db.minted[l].purpose)
    ensures var w := Run(Init(now, users), before);
            var v := Run(Step(w, Turn(r)), later);
            && !Consumable(v.db.links, l)
            && (l in v.db.usedBy ==> l in w.db.usedBy && v.db.usedBy[l] == w.db.usedBy[l])
  {
    RunKeeps(Init(now, users), before);
    var w := Run(Init(now, users), before);
    StepKeeps(w, Turn(r));
    ShutForGood(Step(w, Turn(r)), later, l);
  }
}
