/**
 * The store's invariant holds in every reachable state. For each step, what it leaves alone carries
 * over, the parts of the invariant that it touches are proved one by one, and then they are put
 * together: accepting a wager and ending a round touch everything, the other steps only rooms, only
 * rounds, or only calls. The last lemma is the induction over runs, from which everything else that
 * is said of reachable states starts.
 */
module StoreRuns {
  import opened Base
  import opened Payout
  import opened PayoutLaws
  import opened Stakes
  import opened Events
  import opened Ledger
  import opened LedgerLaws
  import opened Store
  import opened StoreInvariant
  import opened StoreSteps

  // ---------- what carries over ----------

  /**
   * Rounds stay and keep their room and outcomes; once not open they keep their wagers, and once
   * terminal their status.
   */
  ghost predicate Frozen(s: Store, s': Store)
  {
    forall id :: id in s.rounds ==>
      && id in s'.rounds && s'.rounds[id].room == s.rounds[id].room
      && s'.rounds[id].outcomeCount == s.rounds[id].outcomeCount
      && (s.rounds[id].status != Open ==> s'.rounds[id].status != Open && s'.rounds[id].wagers == s.rounds[id].wagers)
      && (IsTerminal(s.rounds[id].status) ==> s'.rounds[id].status == s.rounds[id].status)
  }

  lemma AcceptFreezes(s: Store, req: WagerRequest)
    requires GoodWager(s, req)
    ensures Frozen(s, Accept(s, req).0)
  {
  }

  lemma OneRoundFreezes(s: Store, s': Store, id: string, r: Round)
    requires id in s.rounds && s'.rounds == s.rounds[id := r]
    requires r.room == s.rounds[id].room && r.outcomeCount == s.rounds[id].outcomeCount
             && r.wagers == s.rounds[id].wagers
    requires s.rounds[id].status == Locked && r.status != Open
    ensures Frozen(s, s')
  {
  }

  lemma ApplyFreezes(s: Store, c: Call)
    requires Ready(s, c)
    ensures Frozen(s, CompareAndSet(s, c).0)
  {
    var s' := CompareAndSet(s, c).0;
    OneRoundFreezes(s, s', c.round, s'.rounds[c.round]);
  }

  lemma EventsCarryOver(s: Store, s': Store)
    requires EventsOk(s) && s.outbox <= s'.outbox && Frozen(s, s')
    requires forall room :: Granted(s', room) >= Granted(s, room)
    requires forall i :: |s.outbox| <= i < |s'.outbox| ==> EventOk(s', s'.outbox[i])
    ensures EventsOk(s')
  {
    forall i | 0 <= i < |s.outbox| ensures EventOk(s', s'.outbox[i]) {
      assert EventOk(s, s.outbox[i]) && Granted(s', s.outbox[i].room) >= Granted(s, s.outbox[i].room);
    }
  }

  lemma EventsAppend(s: Store, s': Store, ev: Event)
    requires EventsOk(s) && s'.outbox == s.outbox + [ev] && Frozen(s, s') && EventOk(s', ev)
    requires forall room :: Granted(s', room) == Granted(s, room)
    ensures EventsOk(s')
  {
    EventsCarryOver(s, s');
  }

  lemma EndingsCarryOver(s: Store, s': Store)
    requires EndingsOk(s) && s'.outbox == s.outbox
    requires forall id :: id in s.rounds ==>
               id in s'.rounds && IsTerminal(s'.rounds[id].status) == IsTerminal(s.rounds[id].status)
    requires forall id :: id in s'.rounds && id !in s.rounds ==> !IsTerminal(s'.rounds[id].status)
    ensures EndingsOk(s')
  {
    forall id ensures EndedOnce(s', id) { assert EndedOnce(s, id); }
  }

  lemma KeysCarryOver(s: Store, s': Store)
    requires KeysOk(s) && s'.outbox == s.outbox && s'.calls.Keys == s.calls.Keys
    requires forall id :: id in s.calls ==>
               s'.calls[id].key == s.calls[id].key && (s.calls[id].at.Done? ==> s'.calls[id].at.Done?)
    requires forall key :: key in s.idem || key in s.forgotten ==> key in s'.idem || key in s'.forgotten
    ensures KeysOk(s')
  {
    forall key ensures CallKey(s', key) <==> CallKey(s, key) {
      if id :| id in s.calls && s.calls[id].key == key { assert s'.calls[id].key == key; }
      if id :| id in s'.calls && s'.calls[id].key == key { assert s.calls[id].key == key; }
    }
    forall key ensures EventKey(s', key) <==> EventKey(s, key) {}
  }

  lemma RoomsCarryOver(s: Store, s': Store)
    requires RoomsOk(s) && s'.rooms == s.rooms && s'.rounds == s.rounds && s'.outbox == s.outbox
    ensures RoomsOk(s')
  {
    forall r ensures RoomOk(s', r) {
      assert RoomOk(s, r);
      SameRoom(s, s', r);
    }
  }

  /** A step within the rooms keeps everything but, possibly, the rooms. */
  lemma OnlyRooms(s: Store, s': Store)
    requires Inv(s) && RoomsOk(s') && s'.rounds == s.rounds && s'.outbox == s.outbox && s'.calls == s.calls
    requires s'.idem == s.idem && s'.forgotten == s.forgotten
    requires forall room :: Granted(s', room) >= Granted(s, room)
    ensures Inv(s')
  {
    EventsCarryOver(s, s');
    EndingsCarryOver(s, s');
    KeysCarryOver(s, s');
  }

  ghost predicate EndsNone(s: Store, s': Store)
  {
    && s'.rooms == s.rooms && s'.outbox == s.outbox && s'.calls == s.calls
    && s'.idem == s.idem && s'.forgotten == s.forgotten && Frozen(s, s')
    && (forall id :: id in s.rounds ==> IsTerminal(s'.rounds[id].status) == IsTerminal(s.rounds[id].status))
    && (forall id :: id in s'.rounds && id !in s.rounds ==> !IsTerminal(s'.rounds[id].status))
  }

  /** A step within the rounds that ends none keeps everything but, possibly, the rooms and rounds. */
  lemma OnlyRounds(s: Store, s': Store)
    requires Inv(s) && RoomsOk(s') && RoundsOk(s') && EndsNone(s, s')
    ensures Inv(s')
  {
    EventsCarryOver(s, s');
    EndingsCarryOver(s, s');
    KeysCarryOver(s, s');
  }

  // ---------- room steps ----------

  lemma JoinKeepsRooms(s: Store, id: string, user: string, balance: int)
    requires RoomsOk(s) && balance > 0
    ensures RoomsOk(JoinRoom(s, id, user, balance))
    ensures forall room :: Granted(JoinRoom(s, id, user, balance), room) >= Granted(s, room)
  {
    forall room ensures RoomOk(JoinRoom(s, id, user, balance), room)
                        && Granted(JoinRoom(s, id, user, balance), room) >= Granted(s, room)
    {
      assert RoomOk(s, id) && RoomOk(s, room);
      JoinKeepsRoom(s, id, user, balance, room);
    }
  }

  lemma ClearKeepsRooms(s: Store, id: string, user: string)
    requires RoomsOk(s)
    ensures RoomsOk(ClearSession(s, id, user).0)
  {
    forall room ensures RoomOk(ClearSession(s, id, user).0, room) {
      assert RoomOk(s, id) && RoomOk(s, room);
      ClearKeepsRoom(s, id, user, room);
    }
  }

  lemma HostKeepsRoom(s: Store, id: string, host: string, room: string)
    requires RoomOk(s, room)
    ensures RoomOk(CreateRoom(s, id, host), room)
  {
    var s' := CreateRoom(s, id, host);
    forall u ensures Explained(s', room, u) && Uncleared(RoomOf(s', room), u) {
      assert Explained(s, room, u) && Uncleared(RoomOf(s, room), u);
    }
  }

  lemma HostKeepsRooms(s: Store, id: string, host: string)
    requires RoomsOk(s)
    ensures RoomsOk(CreateRoom(s, id, host))
  {
    forall room ensures RoomOk(CreateRoom(s, id, host), room) {
      assert RoomOk(s, room);
      HostKeepsRoom(s, id, host, room);
    }
  }

  lemma RoomStepsKeepInv(s: Store, step: Step)
    requires Inv(s) && Enabled(s, step) && (step.DoCreateRoom? || step.DoJoin? || step.DoClear?)
    ensures Inv(Next(s, step))
  {
    match step
    case DoCreateRoom(room, host) => HostKeepsRooms(s, room, host); OnlyRooms(s, Next(s, step));
    case DoClear(room, user) => ClearKeepsRooms(s, room, user); OnlyRooms(s, Next(s, step));
    case DoJoin(room, user, balance) =>
      if balance > 0 {
        JoinKeepsRooms(s, room, user, balance);
        OnlyRooms(s, Next(s, step));
      }
  }

  // ---------- round steps ----------

  lemma CreateRoundKeepsRooms(s: Store, id: string, room: string, count: int)
    requires RoomsOk(s) && id !in s.rounds
    ensures RoomsOk(CreateRound(s, id, room, count))
  {
    var s' := CreateRound(s, id, room, count);
    forall r ensures RoomOk(s', r) {
      assert RoomOk(s, r);
      if s' != s { CreateRoundKeepsRoom(s, id, NewRound(room, count), r); }
    }
  }

  lemma LockKeepsRooms(s: Store, id: string)
    requires RoomsOk(s)
    ensures RoomsOk(LockRound(s, id).0)
  {
    forall r ensures RoomOk(LockRound(s, id).0, r) {
      assert RoomOk(s, r);
      LockKeepsRoom(s, id, r);
    }
  }

  lemma LockKeepsRounds(s: Store, id: string)
    requires RoundsOk(s)
    ensures RoundsOk(LockRound(s, id).0)
  {
    if id in s.rounds { assert RoundOk(s.rounds[id]); }
  }

  lemma CreateRoundEndsNone(s: Store, id: string, room: string, count: int)
    requires id !in s.rounds
    ensures EndsNone(s, CreateRound(s, id, room, count))
  {
  }

  lemma CreateRoundKeepsRounds(s: Store, id: string, room: string, count: int)
    requires RoundsOk(s) && id !in s.rounds && id != "" && room != ""
    ensures RoundsOk(CreateRound(s, id, room, count))
  {
    if MIN_OUTCOMES <= count <= MAX_OUTCOMES {
      NewRoundOk(room, count);
    }
  }

  lemma CreateRoundKeepsInv(s: Store, id: string, room: string, count: int)
    requires Inv(s) && id !in s.rounds && id != "" && room != ""
    ensures Inv(CreateRound(s, id, room, count))
  {
    CreateRoundKeepsRooms(s, id, room, count);
    CreateRoundKeepsRounds(s, id, room, count);
    CreateRoundEndsNone(s, id, room, count);
    OnlyRounds(s, CreateRound(s, id, room, count));
  }

  lemma LockEndsNone(s: Store, id: string)
    ensures EndsNone(s, LockRound(s, id).0)
  {
    var s' := LockRound(s, id).0;
    if id !in s.rounds || s.rounds[id].status != Open {
      assert s' == s;
    }
  }

  lemma LockKeepsInv(s: Store, id: string)
    requires Inv(s)
    ensures Inv(LockRound(s, id).0)
  {
    LockKeepsRooms(s, id);
    LockKeepsRounds(s, id);
    LockEndsNone(s, id);
    OnlyRounds(s, LockRound(s, id).0);
  }

  // ---------- wagers ----------

  lemma AcceptEvent(s: Store, req: WagerRequest)
    requires RoundsOk(s) && EventsOk(s) && RoomOk(s, req.room) && GoodWager(s, req)
    ensures EventOk(Accept(s, req).0, Accept(s, req).0.outbox[|s.outbox|])
  {
    WalletWithin(s, req.room, req.user);
    assert RoundOk(s.rounds[req.round]);
  }

  lemma AcceptGrants(s: Store, req: WagerRequest)
    requires req.round in s.rounds
    ensures forall room :: Granted(Accept(s, req).0, room) == Granted(s, room)
  {
  }

  lemma AcceptKeys(s: Store, req: WagerRequest)
    requires KeysOk(s) && GoodWager(s, req)
    ensures KeysOk(Accept(s, req).0)
  {
    AcceptNewKeys(s, req);
    AcceptNamesOk(s, req);
  }

  lemma AcceptNamesOk(s: Store, req: WagerRequest)
    requires NamesOk(s) && GoodWager(s, req)
    ensures NamesOk(Accept(s, req).0)
  {
    AcceptNames(s, req);
  }

  lemma AcceptNewKeys(s: Store, req: WagerRequest)
    requires NewKeysOk(s) && GoodWager(s, req)
    ensures NewKeysOk(Accept(s, req).0)
  {
    AcceptNames(s, req);
    forall id | id in s.calls && !s.calls[id].at.Done? ensures !EventKey(Accept(s, req).0, s.calls[id].key) {
      assert CallKey(s, s.calls[id].key) && !EventKey(s, s.calls[id].key);
    }
  }

  lemma AcceptNames(s: Store, req: WagerRequest)
    requires req.round in s.rounds
    ensures forall key :: CallKey(Accept(s, req).0, key) <==> CallKey(s, key)
    ensures forall key :: EventKey(Accept(s, req).0, key) ==> EventKey(s, key) || key == req.key
  {
    var s' := Accept(s, req).0;
    forall key | EventKey(s', key) ensures EventKey(s, key) || key == req.key {
      var i :| 0 <= i < |s'.outbox| && s'.outbox[i].key == key;
      if i < |s.outbox| { assert s.outbox[i].key == key; }
    }
  }

  lemma AcceptEndings(s: Store, req: WagerRequest)
    requires EndingsOk(s) && GoodWager(s, req)
    ensures EndingsOk(Accept(s, req).0)
  {
    var s' := Accept(s, req).0;
    forall id ensures EndedOnce(s', id) {
      assert EndedOnce(s, id);
      SumBySnoc(s.outbox, s'.outbox[|s.outbox|], Settles(id));
    }
  }

  lemma AcceptRooms(s: Store, req: WagerRequest)
    requires RoomsOk(s) && GoodWager(s, req)
    ensures RoomsOk(Accept(s, req).0)
  {
    forall room ensures RoomOk(Accept(s, req).0, room) {
      assert RoomOk(s, room);
      AcceptKeepsRoom(s, req, room);
    }
  }

  lemma AcceptRounds(s: Store, req: WagerRequest)
    requires RoundsOk(s) && GoodWager(s, req)
    ensures RoundsOk(Accept(s, req).0)
  {
    assert RoundOk(s.rounds[req.round]);
    BetOk(s.rounds[req.round], req.user, req.outcome, req.amount);
  }

  lemma AcceptEvents(s: Store, req: WagerRequest)
    requires RoundsOk(s) && EventsOk(s) && RoomsOk(s) && GoodWager(s, req)
    ensures EventsOk(Accept(s, req).0)
  {
    assert RoomOk(s, req.room);
    AcceptEvent(s, req);
    AcceptGrants(s, req);
    AcceptFreezes(s, req);
    EventsAppend(s, Accept(s, req).0, Accept(s, req).0.outbox[|s.outbox|]);
  }

  lemma AcceptCalls(s: Store, req: WagerRequest)
    requires CallsOk(s) && GoodWager(s, req)
    ensures CallsOk(Accept(s, req).0)
  {
    AcceptFreezes(s, req);
  }

  lemma AcceptKeepsInv(s: Store, req: WagerRequest)
    requires Inv(s) && GoodWager(s, req)
    ensures Inv(Accept(s, req).0)
  {
    AcceptRounds(s, req);
    AcceptRooms(s, req);
    AcceptEvents(s, req);
    AcceptEndings(s, req);
    AcceptCalls(s, req);
    AcceptKeys(s, req);
  }

  lemma WagerKeepsInv(s: Store, req: WagerRequest, late: bool)
    requires Inv(s) && Enabled(s, DoWager(req, late))
    ensures Inv(PlaceWager(s, req, late).0)
  {
    if Takes(s, req, late) {
      AcceptKeepsInv(s, req);
    }
  }

  // ---------- calls ----------

  lemma ForgetKeepsInv(s: Store, key: string)
    requires Inv(s)
    ensures Inv(Forget(s, key))
  {
    var s' := Forget(s, key);
    RoomsCarryOver(s, s');
    EventsCarryOver(s, s');
    EndingsCarryOver(s, s');
    KeysCarryOver(s, s');
  }

  lemma BeginKeys(s: Store, id: nat, c: Call)
    requires KeysOk(s) && id !in s.calls && !CallKey(s, c.key) && !EventKey(s, c.key)
    ensures KeysOk(s.(calls := s.calls[id := c]))
  {
    var s' := s.(calls := s.calls[id := c]);
    forall key ensures CallKey(s', key) <==> CallKey(s, key) || key == c.key {
      assert s'.calls[id].key == c.key;
      if i :| i in s.calls && s.calls[i].key == key { assert s'.calls[i].key == key; }
    }
    forall key ensures EventKey(s', key) <==> EventKey(s, key) {}
    forall i, j | i in s'.calls && j in s'.calls && s'.calls[i].key == s'.calls[j].key ensures i == j {
      assert forall k :: k in s.calls ==> CallKey(s, s.calls[k].key);
    }
    forall i | 0 <= i < |s.outbox| && s.outbox[i].WagerPlaced? ensures !CallKey(s', s.outbox[i].key) {
      assert EventKey(s, s.outbox[i].key);
    }
  }

  lemma BeginKeepsInv(s: Store, id: nat, aim: Aim, round: string, key: string)
    requires Inv(s) && Enabled(s, DoBegin(id, aim, round, key))
    ensures Inv(Next(s, DoBegin(id, aim, round, key)))
  {
    var s' := Next(s, DoBegin(id, aim, round, key));
    RoomsCarryOver(s, s');
    EventsCarryOver(s, s');
    EndingsCarryOver(s, s');
    BeginKeys(s, id, Call(aim, round, key, Started));
  }

  lemma AdvanceKeepsInv(s: Store, id: nat, at: Progress)
    requires Inv(s) && id in s.calls && !s.calls[id].at.Done? && CallOk(s, s.calls[id].(at := at))
    ensures Inv(Advance(s, id, at))
  {
    var s' := Advance(s, id, at);
    AdvanceRest(s, id, at);
    KeysCarryOver(s, s');
  }

  lemma ReadsKeepInv(s: Store, step: Step)
    requires Inv(s) && Enabled(s, step) && (step.DoReadStatus? || step.DoReadStakes?)
    ensures Inv(Next(s, step))
  {
    var c := s.calls[step.id];
    assert CallOk(s, c);
    var at := if step.DoReadStatus? then AfterStatusRead(s, c.round) else AfterStakesRead(c, step.stakes);
    AdvanceKeepsInv(s, step.id, at);
  }

  // ---------- applying ----------

  lemma ApplyEvent(s: Store, c: Call)
    requires Ready(s, c) && RoundsOk(s) && EventsOk(s) && RoomOk(s, c.at.room) && c.round in s.rounds
    ensures EventOk(CompareAndSet(s, c).0, TerminalEvent(c))
  {
    PlansPayTheTotal(s, c);
    PoolWithin(s, c.round);
    var r := s.rounds[c.round];
    assert RoundOk(r);
    forall p | p in PlanFor(c.aim, c.at.stakes).payouts ensures p.user != "" {
      var o :| (p.user, o) in r.wagers;
    }
  }

  lemma ApplyGrants(s: Store, c: Call)
    requires c.at.HasStakes?
    ensures forall room :: Granted(CompareAndSet(s, c).0, room) == Granted(s, room)
  {
  }

  lemma ApplyEvents(s: Store, c: Call)
    requires Ready(s, c) && RoundsOk(s) && EventsOk(s) && RoomsOk(s)
    ensures EventsOk(CompareAndSet(s, c).0)
  {
    assert RoomOk(s, c.at.room);
    ApplyEvent(s, c);
    ApplyGrants(s, c);
    ApplyFreezes(s, c);
    EventsAppend(s, CompareAndSet(s, c).0, TerminalEvent(c));
  }

  lemma ApplyRooms(s: Store, c: Call)
    requires Ready(s, c) && RoundsOk(s) && RoomsOk(s)
    ensures RoomsOk(CompareAndSet(s, c).0)
  {
    forall room ensures RoomOk(CompareAndSet(s, c).0, room) {
      assert RoomOk(s, room);
      ApplyKeepsRoom(s, c, room);
    }
  }

  lemma ApplyRounds(s: Store, c: Call)
    requires Ready(s, c) && RoundsOk(s)
    ensures RoundsOk(CompareAndSet(s, c).0)
  {
    var plan := PlanFor(c.aim, c.at.stakes);
    var outcome := if plan.refund then None else Some(plan.winner);
    EndedIsOk(s.rounds[c.round], if plan.refund then Refunded else Resolved, outcome);
  }

  lemma EndedIsOk(r: Round, status: Status, outcome: Option<int>)
    requires RoundOk(r)
    ensures RoundOk(r.(status := status, resolvedOutcome := outcome))
  {
  }

  lemma ApplyEndings(s: Store, c: Call)
    requires Ready(s, c) && EndingsOk(s)
    ensures EndingsOk(CompareAndSet(s, c).0)
  {
    forall id ensures EndedOnce(CompareAndSet(s, c).0, id) {
      assert EndedOnce(s, id);
      ApplyEndsOnce(s, c, id);
    }
  }

  lemma ApplyEndsOnce(s: Store, c: Call, id: string)
    requires Ready(s, c) && EndedOnce(s, id)
    ensures EndedOnce(CompareAndSet(s, c).0, id)
  {
    SumBySnoc(s.outbox, TerminalEvent(c), Settles(id));
  }

  lemma ApplyKeys(s: Store, id: nat)
    requires id in s.calls && Ready(s, s.calls[id]) && KeysOk(s)
    ensures KeysOk(Advance(CompareAndSet(s, s.calls[id]).0, id, Done(Applied)))
  {
    assert CallKey(s, s.calls[id].key);
    ApplyNames(s, id);
    ApplySharedKeys(s, id);
  }

  lemma ApplySharedKeys(s: Store, id: nat)
    requires id in s.calls && Ready(s, s.calls[id]) && NewKeysOk(s) && SharedKeysOk(s)
    ensures SharedKeysOk(Advance(CompareAndSet(s, s.calls[id]).0, id, Done(Applied)))
  {
    var c := s.calls[id];
    var s' := Advance(CompareAndSet(s, c).0, id, Done(Applied));
    assert !EventKey(s, c.key);
    forall i, j | 0 <= i < j < |s'.outbox| && s'.outbox[i].key == s'.outbox[j].key
      ensures s'.outbox[i].WagerPlaced? && s'.outbox[j].WagerPlaced?
    {
      assert EventKey(s, s.outbox[i].key);
    }
  }

  /** Which keys calls and events have afterwards. */
  lemma ApplyNames(s: Store, id: nat)
    requires id in s.calls && Ready(s, s.calls[id])
    ensures var s' := Advance(CompareAndSet(s, s.calls[id]).0, id, Done(Applied));
            forall key :: (CallKey(s', key) <==> CallKey(s, key))
                          && (EventKey(s', key) <==> EventKey(s, key) || key == s.calls[id].key)
  {
    var c := s.calls[id];
    var s' := Advance(CompareAndSet(s, c).0, id, Done(Applied));
    forall key ensures CallKey(s', key) <==> CallKey(s, key) {
      if i :| i in s.calls && s.calls[i].key == key { assert s'.calls[i].key == key; }
      if i :| i in s'.calls && s'.calls[i].key == key { assert s.calls[i].key == key; }
    }
    forall key ensures EventKey(s', key) <==> EventKey(s, key) || key == c.key {
      assert s'.outbox[|s.outbox|].key == c.key;
      if i :| 0 <= i < |s.outbox| && s.outbox[i].key == key { assert s'.outbox[i].key == key; }
    }
  }

  lemma ApplyCalls(s: Store, id: nat)
    requires id in s.calls && Ready(s, s.calls[id]) && CallsOk(s)
    ensures CallsOk(Advance(CompareAndSet(s, s.calls[id]).0, id, Done(Applied)))
  {
    ApplyFreezes(s, s.calls[id]);
  }

  lemma AdvanceRest(s: Store, id: nat, at: Progress)
    requires id in s.calls && RoundsOk(s) && RoomsOk(s) && EventsOk(s) && EndingsOk(s)
    ensures var s' := Advance(s, id, at); RoundsOk(s') && RoomsOk(s') && EventsOk(s') && EndingsOk(s')
  {
    var s' := Advance(s, id, at);
    RoomsCarryOver(s, s');
    EventsCarryOver(s, s');
    EndingsCarryOver(s, s');
  }

  lemma ApplyKeepsInv(s: Store, id: nat)
    requires Inv(s) && id in s.calls && Ready(s, s.calls[id])
    ensures Inv(Advance(CompareAndSet(s, s.calls[id]).0, id, Done(Applied)))
  {
    var c := s.calls[id];
    ApplyRounds(s, c);
    ApplyRooms(s, c);
    ApplyEvents(s, c);
    ApplyEndings(s, c);
    AdvanceRest(CompareAndSet(s, c).0, id, Done(Applied));
    ApplyCalls(s, id);
    ApplyKeys(s, id);
  }

  lemma AttemptKeepsInv(s: Store, id: nat)
    requires Inv(s) && id in s.calls && s.calls[id].at.HasStakes?
    ensures Inv(Next(s, DoApply(id)))
  {
    var c := s.calls[id];
    assert CallOk(s, c);
    if s.rounds[c.round].status == Locked {
      ApplyKeepsInv(s, id);
    } else {
      AdvanceKeepsInv(s, id, Done(AlreadySettled));
    }
  }

  // ---------- every run ----------

  lemma StepKeepsInv(s: Store, step: Step)
    requires Inv(s) && Enabled(s, step)
    ensures Inv(Next(s, step))
  {
    match step
    case DoWager(req, late) => WagerKeepsInv(s, req, late);
    case DoForget(key) => ForgetKeepsInv(s, key);
    case DoBegin(id, aim, round, key) => BeginKeepsInv(s, id, aim, round, key);
    case DoReadStatus(_) => ReadsKeepInv(s, step);
    case DoReadStakes(_, _) => ReadsKeepInv(s, step);
    case DoApply(id) => AttemptKeepsInv(s, id);
    case DoCreateRound(round, room, count) => CreateRoundKeepsInv(s, round, room, count);
    case DoLock(round) => LockKeepsInv(s, round);
    case _ => RoomStepsKeepInv(s, step);
  }

  lemma EmptyIsOk()
    ensures Inv(EMPTY)
  {
    forall room ensures RoomOk(EMPTY, room) {
      assert PendingMap(EMPTY.rounds, room) == map[];
    }
  }

  lemma {:induction false} EveryStateIsOk(states: seq<Store>, steps: seq<Step>, n: nat)
    requires Run(states, steps) && n < |states|
    ensures Inv(states[n])
  {
    if n == 0 {
      EmptyIsOk();
    } else {
      EveryStateIsOk(states, steps, n - 1);
      StepKeepsInv(states[n - 1], steps[n - 1]);
    }
  }
}
