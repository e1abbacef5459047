/**
 * A reachable round in which a winner stakes what it won, more than any session can start with: one
 * player has the most that a join can grant, another a single token; they bet all they have on
 * different outcomes of a first round; it is settled for the rich one, who bets everything on a
 * second round.
 */
module Winnings {
  import opened Base
  import opened Text
  import opened Payout
  import opened PayoutLaws
  import opened Stakes
  import opened Store
  import opened Witness

  /** Three times the largest buy-in. */
  const MOST := 30_000

  /** A room with two rounds and two players. */
  datatype Game = Game(room: string, first: string, second: string, rich: string, poor: string)

  predicate Proper(g: Game)
  {
    && g.room != "" && g.first != "" && g.second != "" && g.first != g.second && g.rich != "" && Less(g.rich, g.poor)
  }

  function BetOn(g: Game, round: string, user: string, outcome: int, amount: int, key: string): WagerRequest
  {
    WagerRequest(g.room, round, user, outcome, amount, key)
  }

  /** Both rounds are open, and only wagers on the first were placed so far, under these keys. */
  ghost predicate Placed(g: Game, s: Store, wagers: Wagers, wallets: map<string, int>, keys: set<string>)
  {
    && Reachable(s) && s.calls == map[] && s.forgotten == {} && s.idem.Keys == keys
    && (forall i :: 0 <= i < |s.outbox| ==> s.outbox[i].key in keys)
    && g.first in s.rounds && s.rounds[g.first].status == Open && s.rounds[g.first].room == g.room
    && s.rounds[g.first].outcomeCount == 2 && s.rounds[g.first].wagers == wagers
    && g.second in s.rounds && s.rounds[g.second] == NewRound(g.room, 2) && Purses(g, s, wallets)
  }

  /** What the players hold; no join granted more than MOST. */
  ghost predicate Purses(g: Game, s: Store, wallets: map<string, int>)
  {
    && RoomOf(s, g.room).wallets == wallets && RoomOf(s, g.room).host == None
    && forall x :: x in RoomOf(s, g.room).grants ==> x <= MOST
  }

  /** One player with the most a session can start with, the other with a single token. */
  function Seats(g: Game): Store
  {
    JoinRoom(JoinRoom(EMPTY, g.room, g.rich, MOST), g.room, g.poor, 1)
  }

  lemma CanSit(g: Game)
    requires Proper(g)
    ensures Reachable(Seats(g)) && Purses(g, Seats(g), map[g.rich := MOST, g.poor := 1])
    ensures Seats(g) == EMPTY.(rooms := Seats(g).rooms)
  {
    EmptyIsReachable();
    OneMore(EMPTY, DoJoin(g.room, g.rich, MOST));
    OneMore(JoinRoom(EMPTY, g.room, g.rich, MOST), DoJoin(g.room, g.poor, 1));
    LessIrreflexive(g.rich);
  }

  lemma CanDeal(g: Game)
    requires Proper(g)
    ensures exists s :: Placed(g, s, map[], map[g.rich := MOST, g.poor := 1], {})
  {
    CanSit(g);
    var s := CreateRound(Seats(g), g.first, g.room, 2);
    OneMore(Seats(g), DoCreateRound(g.first, g.room, 2));
    OneMore(s, DoCreateRound(g.second, g.room, 2));
    assert Placed(g, CreateRound(s, g.second, g.room, 2), map[], map[g.rich := MOST, g.poor := 1], {});
  }

  lemma OneBet(g: Game, s: Store, wagers: Wagers, wallets: map<string, int>, keys: set<string>, req: WagerRequest)
    requires Proper(g) && Placed(g, s, wagers, wallets, keys) && req.room == g.room && req.round == g.first
    requires 0 <= req.outcome < 2 && req.user != "" && req.user in wallets && 0 < req.amount <= wallets[req.user]
    requires req.key != "" && req.key !in keys
    ensures Placed(g, Accept(s, req).0, Bump(wagers, (req.user, req.outcome), req.amount),
                   Bump(wallets, req.user, -req.amount), keys + {req.key})
  {
    OneMore(s, DoWager(req, false));
  }

  /** Both have bet all they have, on different outcomes. */
  ghost predicate Staked(g: Game, s: Store, k: string, l: string)
  {
    Placed(g, s, map[(g.rich, 0) := MOST, (g.poor, 1) := 1], map[g.rich := 0, g.poor := 0], {k, l})
  }

  ghost predicate RichHasBet(g: Game, s: Store, k: string)
  {
    Placed(g, s, Bump(map[], (g.rich, 0), MOST), Bump(map[g.rich := MOST, g.poor := 1], g.rich, -MOST), {k})
  }

  lemma RichBets(g: Game, k: string)
    requires Proper(g) && k != ""
    ensures exists s :: RichHasBet(g, s, k)
  {
    CanDeal(g);
    var dealt: map<string, int> := map[g.rich := MOST, g.poor := 1];
    var s :| Placed(g, s, map[], dealt, {});
    assert {} + {k} == {k};
    LessIrreflexive(g.rich);
    var req := BetOn(g, g.first, g.rich, 0, MOST, k);
    OneBet(g, s, map[], dealt, {}, req);
    assert RichHasBet(g, Accept(s, req).0, k);
  }

  lemma TheirBets(g: Game)
    requires Proper(g)
    ensures Bump(Bump(map[], (g.rich, 0), MOST), (g.poor, 1), 1) == map[(g.rich, 0) := MOST, (g.poor, 1) := 1]
    ensures Bump(Bump(map[g.rich := MOST, g.poor := 1], g.rich, -MOST), g.poor, -1) == map[g.rich := 0, g.poor := 0]
  {
    LessIrreflexive(g.rich);
  }

  lemma CanStake(g: Game, k: string, l: string)
    requires Proper(g) && k != "" && l != "" && k != l
    ensures exists s :: Staked(g, s, k, l)
  {
    RichBets(g, k);
    var wagers: Wagers := Bump(map[], (g.rich, 0), MOST);
    var wallets := Bump(map[g.rich := MOST, g.poor := 1], g.rich, -MOST);
    var s :| RichHasBet(g, s, k);
    var req := BetOn(g, g.first, g.poor, 1, 1, l);
    LessIrreflexive(g.rich);
    OneBet(g, s, wagers, wallets, {k}, req);
    TheirBets(g);
    assert {k} + {l} == {k, l};
    assert Staked(g, Accept(s, req).0, k, l);
  }

  lemma SumOfTwo(stakes: seq<Stake>, f: Stake -> int)
    requires |stakes| == 2
    ensures SumBy(stakes, f) == f(stakes[0]) + f(stakes[1])
  {
    assert stakes[..1][..0] == [];
    assert SumBy(stakes[..1], f) == f(stakes[0]);
  }

  /** Two stakes of which the first wins everything. */
  lemma AllToOne(stakes: seq<Stake>, most: int)
    requires |stakes| == 2 && stakes[0].outcome == 0 && stakes[1].outcome == 1
    requires stakes[0].amount == most > 0 && stakes[1].amount == 1
    ensures Settlements(Unbounded, stakes, 0, 2).Ok?
    ensures PlanFor(SettleOn(0), stakes).payouts == [Payment(stakes[0].user, most + 1)]
  {
    FaultFree(stakes, 2);
    SumOfTwo(stakes, Amount());
    SumOfTwo(stakes, On(0));
    WholeShare(most, most + 1);
    var one := stakes[..1];
    assert stakes[..|stakes| - 1] == one && one[..|one| - 1] == [];
    assert Winnings(Unbounded, one, 0, most + 1, most) == [Payment(stakes[0].user, most + 1)];
  }

  lemma WholeShare(pool: int, total: int)
    requires pool > 0 && total > 0
    ensures Share(Unbounded, pool, total, pool) == total
  {
    var x := pool * total;
    assert x == total * pool > 0;
    QuotientUnique(x, total, pool);
  }

  lemma StakesAreListed(g: Game, stakes: seq<Stake>)
    requires Proper(g) && stakes == [Stake(g.rich, 0, MOST), Stake(g.poor, 1, 1)]
    ensures Lists(stakes, map[(g.rich, 0) := MOST, (g.poor, 1) := 1])
  {
    LessIrreflexive(g.rich);
  }

  lemma OneCredit(wallets: map<string, int>, p: Payment)
    ensures CreditAll(wallets, [p]) == Bump(wallets, p.user, p.amount)
  {
    assert [p][..0] == [];
  }

  /** The first round has been settled on the rich player's outcome. */
  lemma CanWin(g: Game, s: Store, k: string, l: string, key: string, stakes: seq<Stake>)
    requires Proper(g) && Staked(g, s, k, l) && key != "" && key !in {k, l}
    requires stakes == [Stake(g.rich, 0, MOST), Stake(g.poor, 1, 1)]
    ensures Reachable(Won(g, s, key, stakes))
  {
    StakesAreListed(g, stakes);
    AllToOne(stakes, MOST);
    assert CanCall(s, g.first, key);
    CanAsk(s, g.first, SettleOn(0), key, stakes);
    OneMore(Asking(s, g.first, SettleOn(0), key, HasStakes(g.room, stakes)), DoApply(0));
  }

  lemma WinnerIsPaid(g: Game, s: Store, k: string, l: string, key: string, stakes: seq<Stake>)
    requires Proper(g) && Staked(g, s, k, l) && stakes == [Stake(g.rich, 0, MOST), Stake(g.poor, 1, 1)]
    ensures var won := Won(g, s, key, stakes);
            && Purses(g, won, map[g.rich := MOST + 1, g.poor := 0])
            && won.rounds[g.second] == NewRound(g.room, 2)
            && won.idem.Keys == {k, l} && won.calls.Keys == {0} && won.calls[0].key == key
  {
    LessIrreflexive(g.rich);
    AllToOne(stakes, MOST);
    OneCredit(map[g.rich := 0, g.poor := 0], Payment(g.rich, MOST + 1));
    assert Bump(map[g.rich := 0, g.poor := 0], g.rich, MOST + 1) == map[g.rich := MOST + 1, g.poor := 0];
  }

  ghost function Won(g: Game, s: Store, key: string, stakes: seq<Stake>): Store
    requires g.first in s.rounds
  {
    Next(Asking(s, g.first, SettleOn(0), key, HasStakes(g.room, stakes)), DoApply(0))
  }

  /** A round in which someone staked more than anyone in its room was granted. */
  ghost predicate StakesWinnings(s: Store, round: string, user: string)
  {
    && Reachable(s) && round in s.rounds && (user, 0) in s.rounds[round].wagers
    && (forall x :: x in RoomOf(s, s.rounds[round].room).grants ==> x <= MOST)
    && s.rounds[round].wagers[(user, 0)] > MOST
  }

  /** The rich player holds everything, the second round is new, and no other keys than these were used. */
  ghost predicate HasWon(g: Game, won: Store, keys: set<string>)
  {
    && Reachable(won) && Purses(g, won, map[g.rich := MOST + 1, g.poor := 0])
    && g.second in won.rounds && won.rounds[g.second] == NewRound(g.room, 2)
    && won.idem.Keys <= keys && forall id :: id in won.calls ==> won.calls[id].key in keys
  }

  lemma RichWins(g: Game, s: Store, k: string, l: string, key: string)
    requires Proper(g) && Staked(g, s, k, l) && key != "" && key !in {k, l}
    ensures HasWon(g, Won(g, s, key, [Stake(g.rich, 0, MOST), Stake(g.poor, 1, 1)]), {k, l, key})
  {
    CanWin(g, s, k, l, key, [Stake(g.rich, 0, MOST), Stake(g.poor, 1, 1)]);
    WinnerIsPaid(g, s, k, l, key, [Stake(g.rich, 0, MOST), Stake(g.poor, 1, 1)]);
  }

  lemma WinnerStakes(g: Game, won: Store, keys: set<string>, bet: WagerRequest)
    requires Proper(g) && HasWon(g, won, keys) && bet.key != "" && bet.key !in keys
    requires bet == BetOn(g, g.second, g.rich, 0, MOST + 1, bet.key)
    ensures StakesWinnings(Accept(won, bet).0, g.second, g.rich)
  {
    LessIrreflexive(g.rich);
    OneMore(won, DoWager(bet, false));
  }

  /** Whatever the names: the winner of one round stakes everything on the next. */
  lemma WinningsCanBeStaked(g: Game, k: string, l: string, key: string, m: string)
    requires Proper(g) && k != "" && l != "" && key != "" && m != "" && k != l && key !in {k, l} && m !in {k, l, key}
    ensures exists s :: StakesWinnings(s, g.second, g.rich)
  {
    CanStake(g, k, l);
    var s :| Staked(g, s, k, l);
    RichWins(g, s, k, l, key);
    var won := Won(g, s, key, [Stake(g.rich, 0, MOST), Stake(g.poor, 1, 1)]);
    WinnerStakes(g, won, {k, l, key}, BetOn(g, g.second, g.rich, 0, MOST + 1, m));
  }
}
