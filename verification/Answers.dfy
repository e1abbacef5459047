/** What a wager and an ending are answered, and what they leave in the hashes, said field by field. */
module Answers {
  import opened Base
  import opened Payout
  import opened PayoutLaws
  import opened Stakes
  import opened Events
  import opened Store
  import opened StoreInvariant
  import opened StoreSteps
  import opened StoreRuns
  import opened StoreLaws

  // ---------- wagers ----------

  /** The round takes bets. */
  predicate Betting(s: Store, round: string, late: bool)
  {
    round in s.rounds && s.rounds[round].status == Open && !late
  }

  /** A new wager is accepted if and only if all of the rules hold; otherwise nothing changes. */
  lemma WagerAcceptedIff(s: Store, req: WagerRequest, late: bool)
    requires req.key !in s.idem
    ensures PlaceWager(s, req, late).1.Ok?
       <==> && req.amount > 0
            && req.round in s.rounds && s.rounds[req.round].status == Open && !late
            && 0 <= req.outcome < s.rounds[req.round].outcomeCount
            && req.room in s.rooms && s.rooms[req.room].host != Some(req.user)
            && req.user in s.rooms[req.room].wallets && s.rooms[req.room].wallets[req.user] >= req.amount
    ensures PlaceWager(s, req, late).1.Err? ==> PlaceWager(s, req, late).0 == s
  {
  }

  /** The error of a refused wager names the first rule that it breaks. */
  lemma WagerErrorIs(s: Store, req: WagerRequest, late: bool)
    requires req.key !in s.idem
    ensures var e, room := PlaceWager(s, req, late).1, RoomOf(s, req.room);
            var inRange := Betting(s, req.round, late) && 0 <= req.outcome < s.rounds[req.round].outcomeCount;
            && (e == Err(BadStake) <==> req.amount <= 0)
            && (e == Err(PoolLocked) <==> req.amount > 0 && !Betting(s, req.round, late))
            && (e == Err(BadOutcome) <==> req.amount > 0 && Betting(s, req.round, late) && !inRange)
            && (e == Err(HostCannotBet) <==> req.amount > 0 && inRange && room.host == Some(req.user))
            && (e == Err(NotInRoom) <==>
                  req.amount > 0 && inRange && room.host != Some(req.user) && req.user !in room.wallets)
            && (e == Err(InsufficientFunds) <==>
                  && req.amount > 0 && inRange && room.host != Some(req.user)
                  && req.user in room.wallets && room.wallets[req.user] < req.amount)
  {
  }

  /** Over all runs, no wager that is accepted is by the user who is the host of its room at that moment. */
  lemma HostsNeverBet(states: seq<Store>, steps: seq<Step>, n: nat)
    requires Run(states, steps) && n < |steps| && steps[n].DoWager? && steps[n].req.key !in states[n].idem
    requires PlaceWager(states[n], steps[n].req, steps[n].late).1.Ok?
    ensures states[n].rooms[steps[n].req.room].host != Some(steps[n].req.user)
    ensures |states[n + 1].outbox| == |states[n].outbox| + 1
  {
    WagerAcceptedIff(states[n], steps[n].req, steps[n].late);
  }

  lemma HostStays(s: Store, step: Step, room: string)
    requires Enabled(s, step) && (step.DoCreateRoom? ==> step.room != room)
    ensures RoomOf(Next(s, step), room).host == RoomOf(s, room).host
  {
    match step
    case DoApply(id) =>
      assert Next(s, step).rooms == CompareAndSet(s, s.calls[id]).0.rooms;
    case _ =>
  }

  /** A room's host is whoever created it last, and a room that was not created has none. */
  lemma {:induction false} HostsCreatedTheRoom(states: seq<Store>, steps: seq<Step>, n: nat, room: string)
    requires Run(states, steps) && n < |states|
    ensures match RoomOf(states[n], room).host
            case None => forall i :: 0 <= i < n ==> !(steps[i].DoCreateRoom? && steps[i].room == room)
            case Some(host) =>
              exists i :: 0 <= i < n && steps[i] == DoCreateRoom(room, host)
                          && forall j :: i < j < n ==> !(steps[j].DoCreateRoom? && steps[j].room == room)
  {
    if n > 0 {
      HostsCreatedTheRoom(states, steps, n - 1, room);
      var step := steps[n - 1];
      assert Enabled(states[n - 1], step);
      if !(step.DoCreateRoom? && step.room == room) { HostStays(states[n - 1], step, room); }
    }
  }

  /** Everywhere else in the hash, `after` is `before`. */
  ghost predicate OnlyAt<K(!new), V>(before: map<K, V>, after: map<K, V>, k: K)
  {
    k in after && forall j :: j != k ==> (j in after <==> j in before) && (j in before ==> after[j] == before[j])
  }

  /**
   * An accepted wager moves its amount from the user's wallet to the outcome's pool, the round's
   * total and the user's stake, and adds the user to the bettors; nothing else in the store's rooms
   * and rounds changes.
   */
  lemma AcceptedWagerMoves(s: Store, req: WagerRequest, late: bool)
    requires req.key !in s.idem && PlaceWager(s, req, late).1.Ok?
    ensures var s' := PlaceWager(s, req, late).0;
            && OnlyAt(s.rooms, s'.rooms, req.room) && OnlyAt(s.rounds, s'.rounds, req.round)
            && var a, b, r, q := s.rooms[req.room], s'.rooms[req.room], s.rounds[req.round], s'.rounds[req.round];
               && b == a.(wallets := b.wallets) && OnlyAt(a.wallets, b.wallets, req.user)
               && b.wallets[req.user] == a.wallets[req.user] - req.amount
               && q == r.(pools := q.pools, total := r.total + req.amount, wagers := q.wagers,
                          bettors := r.bettors + {req.user})
               && OnlyAt(r.pools, q.pools, req.outcome)
               && q.pools[req.outcome] == Get(r.pools, req.outcome) + req.amount
               && OnlyAt(r.wagers, q.wagers, (req.user, req.outcome))
               && q.wagers[(req.user, req.outcome)] == Get(r.wagers, (req.user, req.outcome)) + req.amount
  {
  }

  /** It caches its reply, and appends one entry that says what was asked for and what is left. */
  lemma AcceptedWagerIsTold(s: Store, req: WagerRequest, late: bool)
    requires req.key !in s.idem && PlaceWager(s, req, late).1.Ok?
    ensures var s', reply := PlaceWager(s, req, late).0, PlaceWager(s, req, late).1.value;
            && OnlyAt(s.idem, s'.idem, req.key) && s'.idem[req.key] == reply
            && s'.forgotten == s.forgotten && s'.calls == s.calls
            && |s'.outbox| == |s.outbox| + 1 && s.outbox <= s'.outbox
            && var ev := s'.outbox[|s.outbox|];
               && ev.WagerPlaced? && ev.room == req.room && ev.round == req.round && ev.user == req.user
               && ev.key == req.key && ev.outcome == req.outcome && ev.amount == req.amount
               && ev.balance == s'.rooms[req.room].wallets[req.user]
  {
  }

  /** A reply says what a round's hashes hold, and the wallet. */
  ghost predicate Reports(s: Store, req: WagerRequest, reply: Reply)
  {
    && req.room in s.rooms && req.user in s.rooms[req.room].wallets && req.round in s.rounds
    && reply.balance == s.rooms[req.room].wallets[req.user]
    && reply.total == MapSum(s.rounds[req.round].wagers) && |reply.pools| == s.rounds[req.round].outcomeCount
    && (forall o :: 0 <= o < |reply.pools| ==> reply.pools[o] == MapSum(Weigh(s.rounds[req.round].wagers, On(o))))
    && exists users :: |users| == reply.bettorCount && AreBettors(users, s.rounds[req.round].wagers)
  }

  ghost predicate AreBettors(users: set<string>, w: Wagers)
  {
    forall u :: u in users <==> exists o :: (u, o) in w
  }

  lemma AcceptReports(s: Store, req: WagerRequest)
    requires RoundsOk(s) && WagerFault(s, req, false).None? && req.user != ""
    ensures Reports(Accept(s, req).0, req, Accept(s, req).1)
  {
    assert RoundOk(s.rounds[req.round]);
    BetOk(s.rounds[req.round], req.user, req.outcome, req.amount);
    var q := Accept(s, req).0.rounds[req.round];
    assert AreBettors(q.bettors, q.wagers);
  }

  /**
   * Over all runs, the reply of an accepted wager holds the user's wallet, the sum of the round's
   * wagers, the sum on each outcome in index order, and how many users have a wager.
   */
  lemma RepliesReport(states: seq<Store>, steps: seq<Step>, n: nat)
    requires Run(states, steps) && n < |steps| && steps[n].DoWager? && steps[n].req.key !in states[n].idem
    requires PlaceWager(states[n], steps[n].req, steps[n].late).1.Ok?
    ensures Reports(states[n + 1], steps[n].req, PlaceWager(states[n], steps[n].req, steps[n].late).1.value)
  {
    EveryStateIsOk(states, steps, n);
    assert Enabled(states[n], steps[n]);
    AcceptReports(states[n], steps[n].req);
  }

  // ---------- how rounds end ----------

  /** The status and the outcome in a round's hash are those of its terminal event. */
  ghost predicate EndedAs(s: Store, ev: Event)
  {
    ev.RoundSettled? ==>
      && ev.round in s.rounds
      && s.rounds[ev.round].status == (if ev.refunded then Refunded else Resolved)
      && s.rounds[ev.round].resolvedOutcome == (if ev.refunded then None else Some(ev.winningOutcome))
  }

  /** A round that has not ended has no outcome. */
  ghost predicate Undecided(r: Round)
  {
    r.status != Resolved && r.status != Refunded ==> r.resolvedOutcome == None
  }

  ghost predicate EndingsAgree(s: Store)
  {
    && (forall i :: 0 <= i < |s.outbox| ==> EndedAs(s, s.outbox[i]))
    && (forall id :: id in s.rounds ==> Undecided(s.rounds[id]))
  }

  /** A step that leaves ended rounds and the outbox's terminal events as they are keeps them in agreement. */
  lemma AgreementCarriesOver(s: Store, s': Store)
    requires EndingsAgree(s) && s.outbox <= s'.outbox
    requires forall i :: |s.outbox| <= i < |s'.outbox| ==> s'.outbox[i].WagerPlaced?
    requires forall id :: id in s.rounds && IsTerminal(s.rounds[id].status) ==>
               id in s'.rounds && s'.rounds[id].status == s.rounds[id].status
               && s'.rounds[id].resolvedOutcome == s.rounds[id].resolvedOutcome
    requires forall id :: id in s'.rounds ==> Undecided(s'.rounds[id])
    ensures EndingsAgree(s')
  {
    forall i | 0 <= i < |s'.outbox| ensures EndedAs(s', s'.outbox[i]) {
      if i < |s.outbox| { assert EndedAs(s, s.outbox[i]); }
    }
  }

  lemma AcceptAgrees(s: Store, req: WagerRequest)
    requires EndingsAgree(s) && WagerFault(s, req, false).None?
    ensures EndingsAgree(Accept(s, req).0)
  {
    assert Undecided(s.rounds[req.round]);
    AgreementCarriesOver(s, Accept(s, req).0);
  }

  lemma EndingAgrees(s: Store, c: Call)
    requires EndingsAgree(s) && Ready(s, c)
    ensures EndingsAgree(CompareAndSet(s, c).0)
  {
    var s' := CompareAndSet(s, c).0;
    forall i | 0 <= i < |s'.outbox| ensures EndedAs(s', s'.outbox[i]) {
      if i < |s.outbox| { assert EndedAs(s, s.outbox[i]); }
    }
    forall id | id in s'.rounds ensures Undecided(s'.rounds[id]) {
      if id != c.round { assert Undecided(s.rounds[id]); }
    }
  }

  lemma ApplyAgrees(s: Store, id: nat)
    requires EndingsAgree(s) && CallsOk(s) && Enabled(s, DoApply(id))
    ensures EndingsAgree(Next(s, DoApply(id)))
  {
    assert CallOk(s, s.calls[id]);
    if s.rounds[s.calls[id].round].status == Locked {
      EndingAgrees(s, s.calls[id]);
      AgreementCarriesOver(CompareAndSet(s, s.calls[id]).0, Next(s, DoApply(id)));
    } else {
      FailedApplyIsQuiet(s, id);
      AgreementCarriesOver(s, Next(s, DoApply(id)));
    }
  }

  lemma QuietStepAgrees(s: Store, step: Step)
    requires EndingsAgree(s) && Enabled(s, step) && !TouchesRounds(step)
    ensures EndingsAgree(Next(s, step))
  {
    OtherStepsAreQuiet(s, step);
    AgreementCarriesOver(s, Next(s, step));
  }

  lemma LockAgrees(s: Store, id: string)
    requires EndingsAgree(s)
    ensures EndingsAgree(LockRound(s, id).0)
  {
    AgreementCarriesOver(s, LockRound(s, id).0);
  }

  lemma CreateRoundAgrees(s: Store, id: string, room: string, count: int)
    requires EndingsAgree(s) && id !in s.rounds
    ensures EndingsAgree(CreateRound(s, id, room, count))
  {
    AgreementCarriesOver(s, CreateRound(s, id, room, count));
  }

  lemma StepAgrees(s: Store, step: Step)
    requires EndingsAgree(s) && CallsOk(s) && Enabled(s, step)
    ensures EndingsAgree(Next(s, step))
  {
    if !TouchesRounds(step) {
      QuietStepAgrees(s, step);
    } else if step.DoApply? {
      ApplyAgrees(s, step.id);
    } else if step.DoLock? {
      LockAgrees(s, step.round);
    } else if step.DoCreateRound? {
      CreateRoundAgrees(s, step.round, step.room, step.count);
    } else if Takes(s, step.req, step.late) {
      AcceptAgrees(s, step.req);
    }
  }

  lemma {:induction false} EndingsAlwaysAgree(states: seq<Store>, steps: seq<Step>, n: nat)
    requires Run(states, steps) && n < |states|
    ensures EndingsAgree(states[n])
  {
    if n > 0 {
      EndingsAlwaysAgree(states, steps, n - 1);
      EveryStateIsOk(states, steps, n - 1);
      assert Enabled(states[n - 1], steps[n - 1]);
      StepAgrees(states[n - 1], steps[n - 1]);
    }
  }

  /**
   * In every reachable state a round's hash and its terminal event agree on how it ended: refunded,
   * with no outcome, or resolved, with the event's; and before it has ended it has no outcome.
   */
  lemma StatusIsTheEvents(states: seq<Store>, steps: seq<Step>, n: nat, id: string)
    requires Run(states, steps) && n < |states| && id in states[n].rounds
    ensures var s, r := states[n], states[n].rounds[id];
            && (forall i :: 0 <= i < |s.outbox| && s.outbox[i].RoundSettled? && s.outbox[i].round == id ==>
                  && r.status == (if s.outbox[i].refunded then Refunded else Resolved)
                  && r.resolvedOutcome == (if s.outbox[i].refunded then None else Some(s.outbox[i].winningOutcome)))
            && (r.status == Open || r.status == Locked ==> r.resolvedOutcome == None)
  {
    EndingsAlwaysAgree(states, steps, n);
    var s := states[n];
    forall i | 0 <= i < |s.outbox| && s.outbox[i].RoundSettled? && s.outbox[i].round == id
      ensures s.rounds[id].status == (if s.outbox[i].refunded then Refunded else Resolved)
      ensures s.rounds[id].resolvedOutcome == (if s.outbox[i].refunded then None else Some(s.outbox[i].winningOutcome))
    {
      assert EndedAs(s, s.outbox[i]);
    }
    assert Undecided(s.rounds[id]);
  }

  /** Nobody has a wager on the outcome. */
  ghost predicate Unbacked(w: Wagers, outcome: int)
  {
    forall u :: (u, outcome) !in w
  }

  lemma {:induction false} NobodyWins(stakes: seq<Stake>, winner: int)
    ensures WinningStakes(stakes, winner) == [] <==> forall s :: s in stakes ==> s.outcome != winner
  {
    if stakes != [] {
      var n := |stakes| - 1;
      NobodyWins(stakes[..n], winner);
      assert stakes == stakes[..n] + [stakes[n]];
    }
  }

  /** Settling a round's wagers refunds them exactly when nobody has one on the winner. */
  lemma RefundedIffUnbacked(r: Round, stakes: seq<Stake>, winner: int)
    requires RoundOk(r) && Lists(stakes, r.wagers) && ValidOutcome(winner, r.outcomeCount)
    ensures Settled(Unbounded, stakes, winner).refunded <==> Unbacked(r.wagers, winner)
  {
    ListingIsValid(r, stakes);
    SettlementConserves(stakes, winner, r.outcomeCount);
    NobodyWins(stakes, winner);
    if u :| (u, winner) in r.wagers { assert Stake(u, winner, r.wagers[(u, winner)]) in stakes; }
    if s :| s in stakes && s.outcome == winner { assert (s.user, winner) in r.wagers; }
  }

  /**
   * A call that ends a round leaves it refunded exactly when it is a refund, or a settlement on an
   * outcome that nobody has a wager on; otherwise it is resolved, on the outcome that was asked for.
   */
  lemma EndsAsAsked(states: seq<Store>, steps: seq<Step>, n: nat)
    requires Run(states, steps) && n < |steps| && Applies(states[n], steps[n])
    ensures var s, s' := states[n], states[n + 1];
            var c := s.calls[steps[n].id];
            var back := c.aim.RefundAll? || Unbacked(s.rounds[c.round].wagers, c.aim.winner);
            && c.round in s'.rounds && s'.rounds[c.round].status == (if back then Refunded else Resolved)
            && s'.rounds[c.round].resolvedOutcome == (if back then None else Some(c.aim.winner))
            && |s'.outbox| == |s.outbox| + 1
            && var ev := s'.outbox[|s.outbox|];
               && ev.RoundSettled? && ev.round == c.round && ev.key == c.key
               && ev.refunded == back && ev.winningOutcome == (if back then -1 else c.aim.winner)
  {
    EveryStateIsOk(states, steps, n);
    var s := states[n];
    var c := s.calls[steps[n].id];
    assert CallOk(s, c) && RoundOk(s.rounds[c.round]);
    if c.aim.SettleOn? { RefundedIffUnbacked(s.rounds[c.round], c.at.stakes, c.aim.winner); }
  }
}
