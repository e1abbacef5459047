/**
 * Each kind of step keeps the part of the invariant that is about one room. A join, a clear and a
 * wager change the room's own hashes, and ending a round credits its stakers. For each there are
 * lemmas about sums, about what the outbox says of a user (`Explained`), about sessions that were
 * never cleared (`Uncleared`), and about the rooms that the step does not touch (`SameRoom`); they
 * are put together in the lemmas named `KeepsRoom`. The plan that a settle or refund call has made
 * is shown to pay out, with its dust, exactly what the round holds.
 */
module StoreSteps {
  import opened Base
  import opened Payout
  import opened PayoutLaws
  import opened Stakes
  import opened Events
  import opened Ledger
  import opened LedgerLaws
  import opened Store
  import opened StoreInvariant

  // ---------- joining and clearing ----------

  lemma SeedAccounts(r: Room, user: string, balance: int)
    requires Positive(r) && balance > 0
    ensures var r' := Seed(r, user, balance);
            && Positive(r') && MapSum(r'.granted) >= MapSum(r.granted)
            && MapSum(r'.wallets) - MapSum(r.wallets) == MapSum(r'.granted) - MapSum(r.granted)
  {
    if user !in r.wallets {
      MapSumSet(r.wallets, user, balance);
      MapSumSet(r.granted, user, Get(r.granted, user) + balance);
      SumBySnoc(r.grants, balance, Id());
    }
  }

  lemma JoinKeepsRoom(s: Store, id: string, user: string, balance: int, room: string)
    requires RoomOk(s, id) && RoomOk(s, room) && balance > 0
    ensures RoomOk(JoinRoom(s, id, user, balance), room)
    ensures Granted(JoinRoom(s, id, user, balance), room) >= Granted(s, room)
  {
    if room == id {
      JoinKeepsOwnRoom(s, id, user, balance);
    } else {
      SameRoom(s, JoinRoom(s, id, user, balance), room);
    }
  }

  lemma JoinKeepsOwnRoom(s: Store, room: string, user: string, balance: int)
    requires RoomOk(s, room) && balance > 0
    ensures RoomOk(JoinRoom(s, room, user, balance), room)
    ensures Granted(JoinRoom(s, room, user, balance), room) >= Granted(s, room)
  {
    var s' := JoinRoom(s, room, user, balance);
    SeedAccounts(RoomOf(s, room), user, balance);
    forall u ensures Explained(s', room, u) && Uncleared(RoomOf(s', room), u) {
      assert Explained(s, room, u) && Uncleared(RoomOf(s, room), u);
    }
  }

  /** A room whose hashes, live pools and outbox effects did not change is still in order. */
  lemma SameRoom(s: Store, s': Store, room: string)
    requires RoomOk(s, room) && RoomOf(s', room) == RoomOf(s, room)
    requires Live(s', room) == Live(s, room)
    requires forall v: View :: v.room == room ==> Moved(s', v) == Moved(s, v)
    requires Seated(s', room)
    ensures RoomOk(s', room)
  {
    forall u ensures Explained(s', room, u) {
      assert Explained(s, room, u);
    }
  }

  lemma ClearAccounts(r: Room, user: string)
    requires Positive(r)
    ensures Positive(Clear(r, user))
    ensures MapSum(Clear(r, user).wallets) + MapSum(Clear(r, user).withdrawn) == MapSum(r.wallets) + MapSum(r.withdrawn)
  {
    MapSumSet(r.withdrawn, user, Get(r.withdrawn, user) + Get(r.wallets, user));
    if user in r.wallets {
      MapSumRemove(r.wallets, user);
    } else {
      assert r.wallets - {user} == r.wallets;
    }
  }

  lemma ClearKeepsRoom(s: Store, id: string, user: string, room: string)
    requires RoomOk(s, id) && RoomOk(s, room)
    ensures RoomOk(ClearSession(s, id, user).0, room)
  {
    var s' := ClearSession(s, id, user).0;
    if room == id {
      ClearAccounts(RoomOf(s, id), user);
      forall u ensures Explained(s', room, u) && Uncleared(RoomOf(s', room), u) {
        assert Explained(s, room, u) && Uncleared(RoomOf(s, room), u);
      }
    } else {
      SameRoom(s, s', room);
    }
  }

  // ---------- rounds ----------

  lemma CreateRoundKeepsRoom(s: Store, id: string, r: Round, room: string)
    requires RoomOk(s, room) && id !in s.rounds && r.wagers == map[] && r.total == 0
    ensures RoomOk(s.(rounds := s.rounds[id := r]), room)
  {
    PendingSet(s.rounds, id, r, room);
    SameRoom(s, s.(rounds := s.rounds[id := r]), room);
  }

  lemma LockKeepsRoom(s: Store, id: string, room: string)
    requires RoomOk(s, room)
    ensures RoomOk(LockRound(s, id).0, room)
  {
    var s' := LockRound(s, id).0;
    if s' != s {
      PendingSet(s.rounds, id, s'.rounds[id], room);
      SameRoom(s, s', room);
    }
  }

  // ---------- wagers ----------

  /** Every part of a room's accounts is non-negative, so none exceeds what was granted. */
  lemma AccountsWithin(s: Store, room: string)
    requires RoundsOk(s) && EventsOk(s) && RoomOk(s, room)
    ensures 0 <= MapSum(RoomOf(s, room).wallets) <= Granted(s, room)
    ensures 0 <= Live(s, room) <= Granted(s, room)
  {
    var r := RoomOf(s, room);
    MapSumBounds(r.withdrawn, "");
    MapSumBounds(r.wallets, "");
    DustIsPositive(s, room, s.outbox);
    PendingIsPositive(s, room);
    MapSumBounds(PendingMap(s.rounds, room), "");
  }

  lemma WalletWithin(s: Store, room: string, u: string)
    requires RoundsOk(s) && EventsOk(s) && RoomOk(s, room)
    ensures 0 <= Get(RoomOf(s, room).wallets, u) <= Granted(s, room)
  {
    AccountsWithin(s, room);
    MapSumBounds(RoomOf(s, room).wallets, u);
  }

  lemma PoolWithin(s: Store, id: string)
    requires RoundsOk(s) && EventsOk(s) && id in s.rounds && !IsTerminal(s.rounds[id].status)
    requires RoomOk(s, s.rounds[id].room)
    ensures 0 <= s.rounds[id].total <= Granted(s, s.rounds[id].room)
  {
    var room := s.rounds[id].room;
    AccountsWithin(s, room);
    PendingIsPositive(s, room);
    MapSumBounds(PendingMap(s.rounds, room), id);
  }

  lemma PendingIsPositive(s: Store, room: string)
    requires RoundsOk(s)
    ensures forall id :: id in PendingMap(s.rounds, room) ==> PendingMap(s.rounds, room)[id] >= 0
  {
    forall id | id in s.rounds ensures s.rounds[id].total >= 0 {
      assert RoundOk(s.rounds[id]);
      MapSumBounds(s.rounds[id].wagers, ("", 0));
    }
  }

  lemma {:induction false} DustIsPositive(s: Store, room: string, events: seq<Event>)
    requires forall i :: 0 <= i < |events| ==> EventOk(s, events[i])
    ensures SumBy(events, EffectOn(DustIn(room))) >= 0
  {
    if events != [] {
      DustIsPositive(s, room, events[..|events| - 1]);
      assert EventOk(s, events[|events| - 1]);
    }
  }

  lemma Appended(s: Store, s': Store, ev: Event, v: View)
    requires s'.outbox == s.outbox + [ev]
    ensures Moved(s', v) == Moved(s, v) + Effect(ev, v)
  {
    SumBySnoc(s.outbox, ev, EffectOn(v));
  }

  ghost predicate GoodWager(s: Store, req: WagerRequest)
  {
    && WagerFault(s, req, false).None? && req.key !in s.idem && !CallKey(s, req.key)
    && req.key != "" && req.room != "" && req.user != ""
    && s.rounds[req.round].room == req.room
  }

  lemma AcceptMoves(s: Store, req: WagerRequest)
    requires GoodWager(s, req)
    ensures var s' := Accept(s, req).0;
            && Live(s', req.room) == Live(s, req.room) + req.amount
            && Moved(s', PoolIn(req.room)) == Moved(s, PoolIn(req.room)) + req.amount
            && Moved(s', DustIn(req.room)) == Moved(s, DustIn(req.room))
  {
    var s' := Accept(s, req).0;
    PendingSet(s.rounds, req.round, s'.rounds[req.round], req.room);
    Appended(s, s', s'.outbox[|s.outbox|], PoolIn(req.room));
    Appended(s, s', s'.outbox[|s.outbox|], DustIn(req.room));
  }

  lemma AcceptDebits(s: Store, req: WagerRequest)
    requires Positive(RoomOf(s, req.room)) && GoodWager(s, req)
    ensures var s' := Accept(s, req).0;
            && Positive(RoomOf(s', req.room))
            && MapSum(RoomOf(s', req.room).wallets) == MapSum(RoomOf(s, req.room).wallets) - req.amount
  {
    var r := RoomOf(s, req.room);
    MapSumSet(r.wallets, req.user, Get(r.wallets, req.user) - req.amount);
  }

  lemma AcceptElsewhere(s: Store, req: WagerRequest, room: string)
    requires RoomOk(s, room) && GoodWager(s, req) && room != req.room
    ensures RoomOk(Accept(s, req).0, room)
  {
    var s' := Accept(s, req).0;
    PendingSet(s.rounds, req.round, s'.rounds[req.round], room);
    forall v: View | v.room == room ensures Moved(s', v) == Moved(s, v) {
      Appended(s, s', s'.outbox[|s.outbox|], v);
    }
    SameRoom(s, s', room);
  }

  lemma AcceptKeepsRoom(s: Store, req: WagerRequest, room: string)
    requires RoomOk(s, room) && GoodWager(s, req)
    ensures RoomOk(Accept(s, req).0, room)
  {
    if room == req.room {
      AcceptMoves(s, req);
      AcceptDebits(s, req);
      AcceptExplained(s, req);
    } else {
      AcceptElsewhere(s, req, room);
    }
  }

  lemma AcceptExplained(s: Store, req: WagerRequest)
    requires RoomOk(s, req.room) && req.round in s.rounds && req.user in RoomOf(s, req.room).wallets
    ensures var s' := Accept(s, req).0;
            forall u :: Explained(s', req.room, u) && Uncleared(RoomOf(s', req.room), u)
  {
    var s' := Accept(s, req).0;
    forall u ensures Explained(s', req.room, u) && Uncleared(RoomOf(s', req.room), u) {
      assert Explained(s, req.room, u) && Uncleared(RoomOf(s, req.room), u);
      Appended(s, s', s'.outbox[|s.outbox|], WalletIn(req.room, u));
    }
  }

  // ---------- settling ----------

  lemma {:induction false} CreditSum(wallets: map<string, int>, payouts: seq<Payment>)
    ensures MapSum(CreditAll(wallets, payouts)) == MapSum(wallets) + SumBy(payouts, Paid())
  {
    if payouts != [] {
      var rest, p := payouts[..|payouts| - 1], payouts[|payouts| - 1];
      CreditSum(wallets, rest);
      MapSumSet(CreditAll(wallets, rest), p.user, Get(CreditAll(wallets, rest), p.user) + p.amount);
    }
  }

  lemma {:induction false} CreditEach(wallets: map<string, int>, payouts: seq<Payment>, u: string)
    requires forall p :: p in payouts ==> p.amount > 0
    ensures Get(CreditAll(wallets, payouts), u) == Get(wallets, u) + SumBy(payouts, PaidTo(u))
    ensures u in CreditAll(wallets, payouts) <==> u in wallets || exists p :: p in payouts && p.user == u
    ensures SumBy(payouts, PaidTo(u)) >= 0
  {
    if payouts != [] {
      var n := |payouts| - 1;
      assert payouts == payouts[..n] + [payouts[n]];
      CreditEach(wallets, payouts[..n], u);
    }
  }

  /** A call that has its stakes has decided on payments worth exactly the round's total. */
  lemma PlansPayTheTotal(s: Store, c: Call)
    requires RoundsOk(s) && CallOk(s, c) && c.at.HasStakes?
    ensures var plan, r := PlanFor(c.aim, c.at.stakes), s.rounds[c.round];
            && SumBy(plan.payouts, Paid()) + plan.dust == Total(c.at.stakes) == r.total
            && 0 <= plan.dust <= r.total
            && (forall p :: p in plan.payouts ==> p.amount > 0 && exists o :: (p.user, o) in r.wagers)
            && (if plan.refund then plan.winner == -1 && plan.dust == 0 else ValidOutcome(plan.winner, r.outcomeCount))
            && |plan.payouts| <= |r.wagers|
  {
    var r, stakes := s.rounds[c.round], c.at.stakes;
    ListingIsValid(r, stakes);
    var ps := PlanFor(c.aim, stakes).payouts;
    match c.aim
    case SettleOn(winner) =>
      SettlementConserves(stakes, winner, r.outcomeCount);
      PaymentsArePositive(stakes, winner, r.outcomeCount);
      PaidToBounds(ps, "");
    case RefundAll =>
      RefundPathsAgree(stakes, "");
      AggregateIsOrdered(stakes, r.outcomeCount);
  }

  ghost predicate Ready(s: Store, c: Call)
  {
    c.at.HasStakes? && CallOk(s, c) && s.rounds[c.round].status == Locked
  }

  lemma ApplyElsewhere(s: Store, c: Call, room: string)
    requires RoomOk(s, room) && Ready(s, c) && room != c.at.room
    ensures RoomOk(CompareAndSet(s, c).0, room)
  {
    var s' := CompareAndSet(s, c).0;
    PendingSet(s.rounds, c.round, s'.rounds[c.round], room);
    forall v: View | v.room == room ensures Moved(s', v) == Moved(s, v) {
      Appended(s, s', TerminalEvent(c), v);
    }
    assert Seated(s', room);
    SameRoom(s, s', room);
  }

  lemma ApplyMoves(s: Store, c: Call)
    requires Ready(s, c)
    ensures var s', room := CompareAndSet(s, c).0, c.at.room;
            && Live(s', room) == Live(s, room) - s.rounds[c.round].total
            && Moved(s', PoolIn(room)) == Moved(s, PoolIn(room)) - Total(c.at.stakes)
            && Moved(s', DustIn(room)) == Moved(s, DustIn(room)) + PlanFor(c.aim, c.at.stakes).dust
  {
    var s', room := CompareAndSet(s, c).0, c.at.room;
    PendingSet(s.rounds, c.round, s'.rounds[c.round], room);
    Appended(s, s', TerminalEvent(c), PoolIn(room));
    Appended(s, s', TerminalEvent(c), DustIn(room));
  }

  lemma ApplyAccounts(s: Store, c: Call)
    requires Ready(s, c) && RoundsOk(s) && RoomOk(s, c.at.room)
    ensures Conserved(CompareAndSet(s, c).0, c.at.room) && PoolsMoved(CompareAndSet(s, c).0, c.at.room)
  {
    PlansPayTheTotal(s, c);
    ApplyMoves(s, c);
    CreditSum(RoomOf(s, c.at.room).wallets, PlanFor(c.aim, c.at.stakes).payouts);
  }

  lemma ApplyKeepsRoom(s: Store, c: Call, room: string)
    requires RoundsOk(s) && RoomOk(s, room) && Ready(s, c)
    ensures RoomOk(CompareAndSet(s, c).0, room)
  {
    if room == c.at.room {
      ApplyKeepsOwnRoom(s, c);
    } else {
      ApplyElsewhere(s, c, room);
    }
  }

  lemma ApplyKeepsOwnRoom(s: Store, c: Call)
    requires RoundsOk(s) && Ready(s, c) && RoomOk(s, c.at.room)
    ensures RoomOk(CompareAndSet(s, c).0, c.at.room)
  {
    var room, s' := c.at.room, CompareAndSet(s, c).0;
    ApplyAccounts(s, c);
    forall u ensures Explained(s', room, u) && Uncleared(RoomOf(s', room), u) {
      assert Explained(s, room, u) && Uncleared(RoomOf(s, room), u);
      ApplyExplained(s, c, u);
      ApplyUncleared(s, c, u);
    }
    ApplySeats(s, c);
  }

  lemma ApplySeats(s: Store, c: Call)
    requires RoundsOk(s) && Ready(s, c) && Seated(s, c.at.room) && Positive(RoomOf(s, c.at.room))
    ensures Seated(CompareAndSet(s, c).0, c.at.room) && Positive(RoomOf(CompareAndSet(s, c).0, c.at.room))
  {
    forall u { ApplyWallets(s, c, u); }
  }

  lemma ApplyWallets(s: Store, c: Call, u: string)
    requires Ready(s, c) && RoundsOk(s) && Positive(RoomOf(s, c.at.room))
    ensures var s', room := CompareAndSet(s, c).0, c.at.room;
            && (u in RoomOf(s, room).wallets ==> u in RoomOf(s', room).wallets)
            && (u in RoomOf(s', room).wallets ==> RoomOf(s', room).wallets[u] >= 0)
  {
    PlansPayTheTotal(s, c);
    CreditEach(RoomOf(s, c.at.room).wallets, PlanFor(c.aim, c.at.stakes).payouts, u);
  }

  lemma ApplyExplained(s: Store, c: Call, u: string)
    requires Ready(s, c) && RoundsOk(s) && Explained(s, c.at.room, u)
    ensures Explained(CompareAndSet(s, c).0, c.at.room, u)
  {
    PlansPayTheTotal(s, c);
    Appended(s, CompareAndSet(s, c).0, TerminalEvent(c), WalletIn(c.at.room, u));
    CreditEach(RoomOf(s, c.at.room).wallets, PlanFor(c.aim, c.at.stakes).payouts, u);
  }

  /** Crediting stakers never brings back the wallet of a session that was not cleared. */
  lemma ApplyUncleared(s: Store, c: Call, u: string)
    requires Ready(s, c) && RoundsOk(s) && Seated(s, c.at.room) && Uncleared(RoomOf(s, c.at.room), u)
    ensures Uncleared(RoomOf(CompareAndSet(s, c).0, c.at.room), u)
  {
    var r, ps := RoomOf(s, c.at.room), PlanFor(c.aim, c.at.stakes).payouts;
    PaidAreSeated(s, c);
    CreditEach(r.wallets, ps, u);
  }

  lemma PaidAreSeated(s: Store, c: Call)
    requires Ready(s, c) && RoundsOk(s) && Seated(s, c.at.room)
    ensures forall p :: p in PlanFor(c.aim, c.at.stakes).payouts ==>
              p.amount > 0 && (p.user in RoomOf(s, c.at.room).wallets || p.user in RoomOf(s, c.at.room).cleared)
  {
    PlansPayTheTotal(s, c);
    forall p | p in PlanFor(c.aim, c.at.stakes).payouts
      ensures p.user in RoomOf(s, c.at.room).wallets || p.user in RoomOf(s, c.at.room).cleared
    {
      var o :| (p.user, o) in s.rounds[c.round].wagers;
    }
  }
}
