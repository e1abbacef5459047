/** What holds in every reachable state of the store, and between any two of them. */
module StoreLaws {
  import opened Base
  import opened Payout
  import opened PayoutLaws
  import opened Stakes
  import opened Events
  import opened Ledger
  import opened LedgerLaws
  import opened Store
  import opened StoreInvariant
  import opened StoreSteps
  import opened StoreRuns

  // ---------- conservation ----------

  /**
   * In every reachable state of a room: no wallet is negative, and the opening balances granted
   * are exactly the wallets, the pools of rounds not yet ended, the dust of ended ones, and what
   * cleared sessions took away.
   */
  lemma RoomsConserveTokens(states: seq<Store>, steps: seq<Step>, n: nat, room: string)
    requires Run(states, steps) && n < |states|
    ensures var s := states[n]; var r := RoomOf(s, room);
            && (forall u :: u in r.wallets ==> r.wallets[u] >= 0)
            && MapSum(r.wallets) + Live(s, room) + Moved(s, DustIn(room)) + MapSum(r.withdrawn) == SumBy(r.grants, Id())
  {
    EveryStateIsOk(states, steps, n);
    assert RoomOk(states[n], room);
  }

  /** Every round's pools, total and bettors agree with its wagers. */
  lemma PoolsMatchWagers(states: seq<Store>, steps: seq<Step>, n: nat, id: string)
    requires Run(states, steps) && n < |states| && id in states[n].rounds
    ensures var r := states[n].rounds[id];
            && r.total == MapSum(r.wagers) == MapSum(r.pools)
            && (forall o :: 0 <= o < r.outcomeCount ==> o in r.pools && r.pools[o] == MapSum(Weigh(r.wagers, On(o))))
            && (forall u :: u in r.bettors <==> exists o :: (u, o) in r.wagers)
  {
    EveryStateIsOk(states, steps, n);
    assert RoundOk(states[n].rounds[id]);
  }

  /**
   * place_wager.lua never compares the round's room with the wager's. An accepted wager conserves
   * the room's tokens if and only if they are the same, which the wager service sees to.
   */
  lemma WagerConservesIffOwnRound(s: Store, req: WagerRequest)
    requires Conserved(s, req.room) && WagerFault(s, req, false).None?
    ensures Conserved(Accept(s, req).0, req.room) <==> s.rounds[req.round].room == req.room
  {
    var s', r := Accept(s, req).0, RoomOf(s, req.room);
    PendingSet(s.rounds, req.round, s'.rounds[req.round], req.room);
    Appended(s, s', s'.outbox[|s.outbox|], DustIn(req.room));
    MapSumSet(r.wallets, req.user, Get(r.wallets, req.user) - req.amount);
  }

  // ---------- a round ends once ----------

  predicate TouchesRounds(step: Step)
  {
    step.DoWager? || step.DoLock? || step.DoCreateRound? || step.DoApply?
  }

  lemma OtherStepsAreQuiet(s: Store, step: Step)
    requires Enabled(s, step) && !TouchesRounds(step)
    ensures Next(s, step).rounds == s.rounds && Next(s, step).outbox == s.outbox
  {
  }

  lemma FailedApplyIsQuiet(s: Store, id: nat)
    requires Enabled(s, DoApply(id)) && (s.calls[id].round in s.rounds ==> s.rounds[s.calls[id].round].status != Locked)
    ensures Next(s, DoApply(id)).rounds == s.rounds && Next(s, DoApply(id)).outbox == s.outbox
  {
  }

  lemma WagerFreezes(s: Store, req: WagerRequest, late: bool)
    requires Enabled(s, DoWager(req, late))
    ensures Frozen(s, PlaceWager(s, req, late).0)
  {
    if Takes(s, req, late) {
      AcceptFreezes(s, req);
    }
  }

  lemma AttemptFreezes(s: Store, id: nat)
    requires CallsOk(s) && Enabled(s, DoApply(id))
    ensures Frozen(s, Next(s, DoApply(id)))
  {
    assert CallOk(s, s.calls[id]);
    if s.rounds[s.calls[id].round].status == Locked {
      ApplyFreezes(s, s.calls[id]);
    } else {
      FailedApplyIsQuiet(s, id);
    }
  }

  lemma StepFreezes(s: Store, step: Step)
    requires CallsOk(s) && Enabled(s, step)
    ensures Frozen(s, Next(s, step))
  {
    if !TouchesRounds(step) {
      OtherStepsAreQuiet(s, step);
    } else {
      match step
      case DoWager(req, late) => WagerFreezes(s, req, late);
      case DoLock(id) => LockEndsNone(s, id);
      case DoCreateRound(id, room, count) => CreateRoundEndsNone(s, id, room, count);
      case DoApply(id) => AttemptFreezes(s, id);
    }
  }

  lemma ApplyTransitions(s: Store, c: Call)
    requires Ready(s, c)
    ensures Transition(Locked, CompareAndSet(s, c).0.rounds[c.round].status).Ok?
    ensures forall id :: id in s.rounds && id != c.round ==> CompareAndSet(s, c).0.rounds[id] == s.rounds[id]
  {
  }

  /** Statuses only move along the round state machine. */
  lemma StatusFollowsTransitions(s: Store, step: Step, id: string)
    requires CallsOk(s) && Enabled(s, step) && id in s.rounds
    ensures var next := Next(s, step).rounds;
            id in next && (next[id].status == s.rounds[id].status ||
                           Transition(s.rounds[id].status, next[id].status) == Ok(next[id].status))
  {
    if !TouchesRounds(step) {
      OtherStepsAreQuiet(s, step);
    } else if step.DoApply? {
      assert CallOk(s, s.calls[step.id]);
      if s.rounds[s.calls[step.id].round].status == Locked {
        ApplyTransitions(s, s.calls[step.id]);
      } else {
        FailedApplyIsQuiet(s, step.id);
      }
    }
  }

  /** Rounds are never removed, and what is frozen at one moment of a run stays frozen. */
  lemma {:induction false} RunFreezes(states: seq<Store>, steps: seq<Step>, i: nat, j: nat)
    requires Run(states, steps) && i <= j < |states|
    ensures Frozen(states[i], states[j])
  {
    if i < j {
      RunFreezes(states, steps, i, j - 1);
      StateFreezes(states, steps, j - 1);
      FrozenTwice(states[i], states[j - 1], states[j]);
    }
  }

  lemma StateFreezes(states: seq<Store>, steps: seq<Step>, n: nat)
    requires Run(states, steps) && n < |steps|
    ensures Frozen(states[n], states[n + 1])
  {
    EveryStateIsOk(states, steps, n);
    StepFreezes(states[n], steps[n]);
  }

  lemma FrozenTwice(a: Store, b: Store, c: Store)
    requires Frozen(a, b) && Frozen(b, c)
    ensures Frozen(a, c)
  {
  }

  ghost predicate Applies(s: Store, step: Step)
  {
    step.DoApply? && Enabled(s, step) && CompareAndSet(s, s.calls[step.id]).1 == Applied
  }

  /** A round has one terminal event exactly when it has ended, and none before. */
  lemma OneTerminalEvent(states: seq<Store>, steps: seq<Step>, n: nat, round: string)
    requires Run(states, steps) && n < |states|
    ensures Endings(states[n], round) ==
              if round in states[n].rounds && IsTerminal(states[n].rounds[round].status) then 1 else 0
  {
    EveryStateIsOk(states, steps, n);
    assert EndedOnce(states[n], round);
  }

  /** However settle and refund calls, wagers and the lock interleave, two calls never end one round. */
  lemma RoundsEndOnce(states: seq<Store>, steps: seq<Step>, i: nat, j: nat)
    requires Run(states, steps) && i < j < |steps| && Applies(states[i], steps[i]) && Applies(states[j], steps[j])
    ensures states[i].calls[steps[i].id].round != states[j].calls[steps[j].id].round
  {
    var round := states[i].calls[steps[i].id].round;
    assert states[i + 1] == Next(states[i], steps[i]);
    assert round in states[i + 1].rounds && IsTerminal(states[i + 1].rounds[round].status);
    RunFreezes(states, steps, i + 1, j);
  }

  /**
   * A call that ends a round pays from stakes that are the round's wagers at that very moment,
   * and its payouts and dust are exactly what was staked.
   */
  lemma EndingUsesCurrentStakes(states: seq<Store>, steps: seq<Step>, n: nat)
    requires Run(states, steps) && n < |steps| && Applies(states[n], steps[n])
    ensures var s, s' := states[n], states[n + 1];
            var c := s.calls[steps[n].id];
            && c.round in s.rounds && Lists(c.at.stakes, s.rounds[c.round].wagers)
            && |s'.outbox| == |s.outbox| + 1
            && var ev := s'.outbox[|s.outbox|];
               && ev.RoundSettled? && ev.round == c.round && ev.room == s.rounds[c.round].room
               && ev.total == s.rounds[c.round].total == MapSum(s.rounds[c.round].wagers)
               && SumBy(ev.payouts, Paid()) + ev.dust == ev.total
  {
    EveryStateIsOk(states, steps, n);
    var s := states[n];
    var c := s.calls[steps[n].id];
    assert CallOk(s, c) && RoundOk(s.rounds[c.round]);
    PlansPayTheTotal(s, c);
  }

  /** The step of a call that applied, or that found its round settled at the first read or by the script. */
  ghost predicate FindsEnded(s: Store, step: Step, round: string)
  {
    Enabled(s, step) &&
    match step
    case DoReadStatus(id) => s.calls[id].round == round && AfterStatusRead(s, round) == Done(AlreadySettled)
    case DoApply(id) => s.calls[id].round == round && CompareAndSet(s, s.calls[id]).1 in {Applied, AlreadySettled}
    case _ => false
  }

  /** A round that a call settled, refunded, or found settled is terminal for good. */
  lemma SettledStaysSettled(states: seq<Store>, steps: seq<Step>, n: nat, m: nat, round: string)
    requires Run(states, steps) && n < |steps| && n < m < |states| && FindsEnded(states[n], steps[n], round)
    ensures round in states[m].rounds && IsTerminal(states[m].rounds[round].status)
  {
    assert states[n + 1] == Next(states[n], steps[n]);
    RunFreezes(states, steps, n + 1, m);
  }

  // ---------- replays ----------

  /** A cached reply stays as it is until the key is forgotten. */
  lemma {:induction false} RepliesAreKept(states: seq<Store>, steps: seq<Step>, i: nat, j: nat, key: string)
    requires Run(states, steps) && i <= j < |states| && key in states[i].idem
    requires forall k :: i <= k < j ==> steps[k] != DoForget(key)
    ensures key in states[j].idem && states[j].idem[key] == states[i].idem[key]
  {
    if i < j {
      RepliesAreKept(states, steps, i, j - 1, key);
      var s := states[j - 1];
      match steps[j - 1]
      case DoApply(id) => assert Next(s, steps[j - 1]).idem == s.idem;
      case DoForget(k) => assert k != key;
      case _ =>
    }
  }

  /**
   * Once a wager was accepted with some reply, every later request under its key, whatever it
   * asks for and whatever happened since, gets that reply and changes nothing, until the key is
   * forgotten.
   */
  lemma ReplaysGetTheSameReply(states: seq<Store>, steps: seq<Step>, i: nat, j: nat, req: WagerRequest, late: bool)
    requires Run(states, steps) && i < |steps| && i < j < |states| && steps[i].DoWager?
    requires PlaceWager(states[i], steps[i].req, steps[i].late).1.Ok? && req.key == steps[i].req.key
    requires forall k :: i < k < j ==> steps[k] != DoForget(req.key)
    ensures PlaceWager(states[j], req, late) == (states[j], PlaceWager(states[i], steps[i].req, steps[i].late).1)
  {
    assert Enabled(states[i], steps[i]) && states[i + 1] == Next(states[i], steps[i]);
    RepliesAreKept(states, steps, i + 1, j, req.key);
  }

  lemma AcceptKeepsDistinct(s: Store, req: WagerRequest)
    requires DistinctEventKeys(s.outbox) && req.round in s.rounds
    ensures DistinctEventKeys(Accept(s, req).0.outbox) <==> !EventKey(s, req.key)
  {
    var out := Accept(s, req).0.outbox;
    assert out[|s.outbox|].key == req.key;
    if i :| 0 <= i < |s.outbox| && s.outbox[i].key == req.key { assert out[i].key == req.key; }
  }

  /** Every key whose reply is cached, or was, is in the outbox. */
  ghost predicate CachedOk(s: Store)
  {
    forall key :: key in s.idem || key in s.forgotten ==> EventKey(s, key)
  }

  lemma OutboxGrows(s: Store, step: Step)
    requires Enabled(s, step)
    ensures s.outbox <= Next(s, step).outbox
    ensures forall key :: EventKey(s, key) ==> EventKey(Next(s, step), key)
  {
    var s' := Next(s, step);
    assert s.outbox <= s'.outbox;
    forall key | EventKey(s, key) ensures EventKey(s', key) {
      var i :| 0 <= i < |s.outbox| && s.outbox[i].key == key;
      assert s'.outbox[i].key == key;
    }
  }

  lemma AcceptedKeyIsUsed(s: Store, req: WagerRequest)
    requires req.round in s.rounds
    ensures EventKey(Accept(s, req).0, req.key)
  {
    assert Accept(s, req).0.outbox[|s.outbox|].key == req.key;
  }

  lemma CachedStep(s: Store, step: Step)
    requires CachedOk(s) && Enabled(s, step)
    ensures CachedOk(Next(s, step))
  {
    OutboxGrows(s, step);
    if step.DoWager? && Takes(s, step.req, step.late) { AcceptedKeyIsUsed(s, step.req); }
    if step.DoApply? { assert Next(s, step).idem == s.idem && Next(s, step).forgotten == s.forgotten; }
  }

  /** An accepted wager that uses a key whose cached reply has expired. */
  ghost predicate Reuses(s: Store, step: Step)
  {
    step.DoWager? && Takes(s, step.req, step.late) && step.req.key in s.forgotten
  }

  /** A step keeps the outbox keys distinct exactly when it does not accept a forgotten key. */
  lemma KeysStayDistinctIff(s: Store, step: Step)
    requires Inv(s) && CachedOk(s) && Enabled(s, step) && DistinctEventKeys(s.outbox)
    ensures DistinctEventKeys(Next(s, step).outbox) <==> !Reuses(s, step)
  {
    if !TouchesRounds(step) {
      OtherStepsAreQuiet(s, step);
    } else if step.DoApply? {
      ApplyKeepsDistinct(s, step.id);
    } else if step.DoWager? && Takes(s, step.req, step.late) {
      AcceptKeepsDistinct(s, step.req);
    }
  }

  lemma ApplyKeepsDistinct(s: Store, id: nat)
    requires Inv(s) && id in s.calls && s.calls[id].at.HasStakes? && DistinctEventKeys(s.outbox)
    ensures DistinctEventKeys(Next(s, DoApply(id)).outbox)
  {
    var c := s.calls[id];
    assert CallOk(s, c) && !EventKey(s, c.key);
    if s.rounds[c.round].status == Locked {
      assert Next(s, DoApply(id)).outbox == s.outbox + [TerminalEvent(c)];
      NewKeyKeepsDistinct(s.outbox, TerminalEvent(c));
    }
  }

  lemma NewKeyKeepsDistinct(evs: seq<Event>, ev: Event)
    requires DistinctEventKeys(evs) && forall i :: 0 <= i < |evs| ==> evs[i].key != ev.key
    ensures DistinctEventKeys(evs + [ev])
  {
  }

  // ---------- the outbox can always be relayed and posted ----------

  /**
   * Every entry of the outbox decodes to the event it was written for, as long as the room's
   * grants stay below the numbers Lua prints exactly; it validates if and only if it has at most
   * MAX_PAYOUTS payouts, of which there are never more than the round has wagers; and then it
   * maps to a sound transaction.
   */
  lemma NoPoisonEvents(states: seq<Store>, steps: seq<Step>, n: nat, i: nat)
    requires Run(states, steps) && n < |states| && i < |states[n].outbox|
    ensures var s := states[n]; var ev := s.outbox[i];
            && (Granted(s, ev.room) < LUA_EXACT ==> Decode(EntryOf(ev)) == Ok(ev))
            && (Valid(ev) <==> (ev.RoundSettled? ==> |ev.payouts| <= MAX_PAYOUTS))
            && (ev.RoundSettled? ==> ev.round in s.rounds && |ev.payouts| <= |s.rounds[ev.round].wagers|)
            && TransactionFor(ev).Ok? && (Valid(ev) ==> Sound(TransactionFor(ev).value))
  {
    EveryStateIsOk(states, steps, n);
    var ev := states[n].outbox[i];
    assert EventOk(states[n], ev);
    if Granted(states[n], ev.room) < LUA_EXACT {
      EntryDecodes(ev);
    }
    if Valid(ev) {
      ValidEventsBalance(ev);
    }
  }

  // ---------- machine integers ----------

  lemma {:induction false} SmallGrants(grants: seq<int>, most: int)
    requires forall i :: 0 <= i < |grants| ==> grants[i] <= most
    ensures SumBy(grants, Id()) <= |grants| * most
  {
    if grants != [] {
      SmallGrants(grants[..|grants| - 1], most);
    }
  }

  /** The largest opening balance: StakeCapMultiple times MaxBuyIn. */
  const MAX_GRANT := 3 * 10_000

  /**
   * In a room with at most 101,233 opening grants, settling any round that has not ended gives
   * the same result in 64-bit as in exact arithmetic.
   */
  lemma SmallRoomsSettleExactly(states: seq<Store>, steps: seq<Step>, n: nat, id: string, stakes: seq<Stake>,
                                winner: int)
    requires Run(states, steps) && n < |states| && id in states[n].rounds
    requires var r := RoomOf(states[n], states[n].rounds[id].room);
             |r.grants| <= 101_233 && forall i :: 0 <= i < |r.grants| ==> r.grants[i] <= MAX_GRANT
    requires !IsTerminal(states[n].rounds[id].status) && Lists(stakes, states[n].rounds[id].wagers)
    ensures var count := states[n].rounds[id].outcomeCount;
            Settlements(Int64, stakes, winner, count) == Settlements(Unbounded, stakes, winner, count)
  {
    EveryStateIsOk(states, steps, n);
    var s, r := states[n], states[n].rounds[id];
    var room := RoomOf(s, r.room);
    assert RoomOk(s, r.room) && RoundOk(r);
    SmallGrants(room.grants, MAX_GRANT);
    Scale(|room.grants|, 101_233, MAX_GRANT);
    PoolWithin(s, id);
    ListingIsValid(r, stakes);
    if ValidOutcome(winner, r.outcomeCount) {
      SmallTotalsFit(stakes, winner, r.outcomeCount);
    }
  }
}
