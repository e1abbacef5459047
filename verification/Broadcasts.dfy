/** What one user's socket is sent when the store changes, step by step. */
module Broadcasts {
  import opened Base
  import opened Payout
  import opened Stakes
  import opened Store
  import opened StoreInvariant
  import opened StoreSteps
  import StoreRuns
  import C = Client

  /** The user's tokens in a round. */
  ghost function StakeIn(w: Wagers, me: string): int
  {
    MapSum(Weigh(w, By(me)))
  }

  /** The store as one user of a room sees it, with the rounds opened since the user connected. */
  ghost function Seen(s: Store, room: string, me: string, round: Option<string>, rounds: set<string>): C.Server
  {
    var known := round.Some? && round.value in s.rounds;
    C.Server(Get(RoomOf(s, room).wallets, me), round,
             if known then StakeIn(s.rounds[round.value].wagers, me) else 0,
             known && !IsTerminal(s.rounds[round.value].status), rounds)
  }

  lemma StakeGrows(w: Wagers, user: string, outcome: int, amount: int, me: string)
    ensures StakeIn(Bump(w, (user, outcome), amount), me) == StakeIn(w, me) + if user == me then amount else 0
  {
    var k := (user, outcome);
    var v := By(me)(Stake(user, outcome, Get(w, k) + amount));
    assert Weigh(Bump(w, k, amount), By(me)) == Weigh(w, By(me))[k := v];
    MapSumSet(Weigh(w, By(me)), k, v);
  }

  /** Opening a round is what a client is told when it is told so. */
  lemma OpeningIsSent(s: Store, id: string, room: string, outcomes: seq<string>, me: string, round: Option<string>,
                      rounds: set<string>)
    requires MIN_OUTCOMES <= |outcomes| <= MAX_OUTCOMES && id !in rounds && !Seen(s, room, me, round, rounds).live
    ensures C.Sends(me, Seen(s, room, me, round, rounds), C.RoundOpened(id, outcomes),
                    Seen(CreateRound(s, id, room, |outcomes|), room, me, Some(id), rounds + {id}))
  {
    assert Weigh(map[], By(me)) == map[];
  }

  /** The acknowledgement of the user's own wager says what it did to the wallet and the stake. */
  lemma OwnWagerIsSent(s: Store, req: WagerRequest, rounds: set<string>)
    requires WagerFault(s, req, false).None?
    ensures var (s', reply) := Accept(s, req);
            C.Sends(req.user, Seen(s, req.room, req.user, Some(req.round), rounds),
                    C.WagerAccepted(req.round, req.amount, reply.balance),
                    Seen(s', req.room, req.user, Some(req.round), rounds))
  {
    StakeGrows(s.rounds[req.round].wagers, req.user, req.outcome, req.amount, req.user);
  }

  /** Someone else's wager changes neither. */
  lemma OthersWagerIsNotSeen(s: Store, req: WagerRequest, me: string, rounds: set<string>)
    requires WagerFault(s, req, false).None? && req.user != me
    ensures Seen(Accept(s, req).0, req.room, me, Some(req.round), rounds) ==
            Seen(s, req.room, me, Some(req.round), rounds)
  {
    StakeGrows(s.rounds[req.round].wagers, req.user, req.outcome, req.amount, me);
  }

  lemma PlanPays(s: Store, c: Call, me: string)
    requires RoundsOk(s) && Ready(s, c)
    ensures SumBy(c.at.stakes, By(me)) == StakeIn(s.rounds[c.round].wagers, me)
    ensures var after := CompareAndSet(s, c).0;
            Get(RoomOf(after, c.at.room).wallets, me) ==
              Get(RoomOf(s, c.at.room).wallets, me) + SumBy(PlanFor(c.aim, c.at.stakes).payouts, PaidTo(me))
  {
    ListingSum(c.at.stakes, s.rounds[c.round].wagers, By(me));
    PlansPayTheTotal(s, c);
    CreditEach(RoomOf(s, c.at.room).wallets, PlanFor(c.aim, c.at.stakes).payouts, me);
  }

  lemma RoundEnds(s: Store, c: Call)
    requires Ready(s, c)
    ensures var after := CompareAndSet(s, c).0;
            && c.round in after.rounds && after.rounds[c.round].wagers == s.rounds[c.round].wagers
            && IsTerminal(after.rounds[c.round].status) && !IsTerminal(s.rounds[c.round].status)
  {
  }

  /** Ending a round credits the user's part of the plan and touches nothing else the user sees. */
  lemma EndingIsSeen(s: Store, c: Call, me: string, rounds: set<string>)
    requires RoundsOk(s) && Ready(s, c)
    ensures var a := Seen(s, c.at.room, me, Some(c.round), rounds);
            var paid := SumBy(PlanFor(c.aim, c.at.stakes).payouts, PaidTo(me));
            && a.live && a.round == Some(c.round) && a.stake == SumBy(c.at.stakes, By(me))
            && Seen(CompareAndSet(s, c).0, c.at.room, me, Some(c.round), rounds) ==
              a.(wallet := a.wallet + paid, live := false)
  {
    PlanPays(s, c, me);
    RoundEnds(s, c);
  }

  /** A settled round is revealed with rows that account for what the settlement credited. */
  lemma RevealIsSent(s: Store, c: Call, me: string, rounds: set<string>)
    requires RoundsOk(s) && Ready(s, c) && c.aim.SettleOn?
    ensures var after := CompareAndSet(s, c).0;
            var st := Settled(Unbounded, c.at.stakes, c.aim.winner);
            C.Sends(me, Seen(s, c.at.room, me, Some(c.round), rounds),
                    C.RoundResolved(c.round, c.aim.winner, st.results, st.dust, st.refunded),
                    Seen(after, c.at.room, me, Some(c.round), rounds))
  {
    EndingIsSeen(s, c, me, rounds);
    SettlementIsRevealed(me, c.at.stakes, c.aim.winner);
  }

  lemma SettlementIsRevealed(me: string, stakes: seq<Stake>, winner: int)
    ensures var st := Settled(Unbounded, stakes, winner);
            C.Settles(me, SumBy(stakes, By(me)), st.results, SumBy(st.payouts, PaidTo(me)))
  {
    var st := Settled(Unbounded, stakes, winner);
    assert C.Reveals(me, stakes, winner, st.results, SumBy(st.payouts, PaidTo(me)));
  }

  /** A refunded round gives back exactly what the client thinks it staked. */
  lemma RefundIsSent(s: Store, c: Call, me: string, rounds: set<string>)
    requires RoundsOk(s) && Ready(s, c) && c.aim.RefundAll?
    ensures C.Sends(me, Seen(s, c.at.room, me, Some(c.round), rounds),
                    C.RoundRefunded(c.round, Total(c.at.stakes)),
                    Seen(CompareAndSet(s, c).0, c.at.room, me, Some(c.round), rounds))
  {
    EndingIsSeen(s, c, me, rounds);
    RefundPathsAgree(c.at.stakes, me);
  }
}
