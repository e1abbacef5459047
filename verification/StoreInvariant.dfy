/**
 * What every step of the store keeps: a round's pools, total and bettors are determined by its
 * wagers; a room's wallets, live pools, dust and withdrawals add up to what its joins granted, and
 * agree user by user with what the outbox says; every event is one that the ledger can post; a
 * round has one terminal event exactly when it is terminal; a call that has its stakes has those
 * of a round that is locked; and keys are shared by wagers only.
 */
module StoreInvariant {
  import opened Base
  import opened Payout
  import opened PayoutLaws
  import opened Stakes
  import opened Events
  import opened Ledger
  import opened LedgerLaws
  import opened Store

  // ---------- rounds ----------

  /** Pools, total and bettors are all determined by the wagers. */
  ghost predicate RoundOk(r: Round)
  {
    && MIN_OUTCOMES <= r.outcomeCount <= MAX_OUTCOMES && r.room != ""
    && (forall o :: o in r.pools <==> 0 <= o < r.outcomeCount)
    && (forall k :: k in r.wagers ==> r.wagers[k] > 0 && ValidOutcome(k.1, r.outcomeCount) && k.0 != "")
    && r.total == MapSum(r.wagers) == MapSum(r.pools)
    && (forall o :: o in r.pools ==> r.pools[o] == MapSum(Weigh(r.wagers, On(o))))
    && (forall u :: u in r.bettors <==> exists o :: (u, o) in r.wagers)
  }

  lemma {:induction false} ZeroPoolsAre(count: int)
    requires count >= 0
    ensures forall o :: o in ZeroPools(count) <==> 0 <= o < count
    ensures forall o :: o in ZeroPools(count) ==> ZeroPools(count)[o] == 0
    ensures MapSum(ZeroPools(count)) == 0
  {
    if count > 0 {
      ZeroPoolsAre(count - 1);
      MapSumSet(ZeroPools(count - 1), count - 1, 0);
    }
  }

  lemma NewRoundOk(room: string, count: int)
    requires room != "" && MIN_OUTCOMES <= count <= MAX_OUTCOMES
    ensures RoundOk(NewRound(room, count))
  {
    ZeroPoolsAre(count);
    forall o ensures Weigh(map[], On(o)) == map[] {}
  }

  lemma WeighBet(w: Wagers, user: string, outcome: int, amount: int, o: int)
    ensures MapSum(Weigh(Bump(w, (user, outcome), amount), On(o))) ==
              MapSum(Weigh(w, On(o))) + if o == outcome then amount else 0
  {
    var k := (user, outcome);
    var v := On(o)(Stake(user, outcome, Get(w, k) + amount));
    assert Weigh(Bump(w, k, amount), On(o)) == Weigh(w, On(o))[k := v];
    MapSumSet(Weigh(w, On(o)), k, v);
  }

  lemma BetTotals(r: Round, user: string, outcome: int, amount: int)
    requires r.total == MapSum(r.wagers) == MapSum(r.pools)
    ensures var r' := Bet(r, user, outcome, amount); r'.total == MapSum(r'.wagers) == MapSum(r'.pools)
  {
    MapSumSet(r.wagers, (user, outcome), Get(r.wagers, (user, outcome)) + amount);
    MapSumSet(r.pools, outcome, Get(r.pools, outcome) + amount);
  }

  lemma BetPools(r: Round, user: string, outcome: int, amount: int)
    requires RoundOk(r) && ValidOutcome(outcome, r.outcomeCount)
    ensures var r' := Bet(r, user, outcome, amount);
            forall o :: o in r'.pools ==> r'.pools[o] == MapSum(Weigh(r'.wagers, On(o)))
  {
    forall o { WeighBet(r.wagers, user, outcome, amount, o); }
  }

  lemma BetBettors(r: Round, user: string, outcome: int, amount: int)
    requires RoundOk(r)
    ensures var r' := Bet(r, user, outcome, amount);
            forall u :: u in r'.bettors <==> exists o :: (u, o) in r'.wagers
  {
    var r' := Bet(r, user, outcome, amount);
    forall u ensures u in r'.bettors <==> exists o :: (u, o) in r'.wagers {
      if u == user { assert (u, outcome) in r'.wagers; }
      if o :| (u, o) in r.wagers { assert (u, o) in r'.wagers; }
    }
  }

  lemma BetOk(r: Round, user: string, outcome: int, amount: int)
    requires RoundOk(r) && ValidOutcome(outcome, r.outcomeCount) && amount > 0 && user != ""
    ensures RoundOk(Bet(r, user, outcome, amount))
  {
    BetTotals(r, user, outcome, amount);
    BetPools(r, user, outcome, amount);
    BetBettors(r, user, outcome, amount);
  }

  /** A listing of an invariant round's wagers is a list of valid stakes worth its total. */
  lemma ListingIsValid(r: Round, stakes: seq<Stake>)
    requires RoundOk(r) && Lists(stakes, r.wagers)
    ensures ValidStakes(stakes, r.outcomeCount) && Total(stakes) == r.total >= 0
    ensures forall u :: u in Players(stakes) ==> exists o :: (u, o) in r.wagers
    ensures |stakes| == |r.wagers|
  {
    forall i | 0 <= i < |stakes| ensures stakes[i].amount > 0 && ValidOutcome(stakes[i].outcome, r.outcomeCount)
                                         && Key(stakes[i]) in r.wagers
    {
      assert stakes[i] in stakes;
    }
    ListingTotal(stakes, r.wagers);
    MapSumBounds(r.wagers, ("", 0));
    PlayersAreTheStakers(stakes);
    forall u | u in Players(stakes) ensures exists o :: (u, o) in r.wagers {
      var i :| 0 <= i < |stakes| && stakes[i].user == u;
      assert Key(stakes[i]) in r.wagers;
      assert (u, stakes[i].outcome) in r.wagers;
    }
    ListingSize(stakes, r.wagers);
  }

  lemma {:induction false} ListingSize(stakes: seq<Stake>, w: Wagers)
    requires Lists(stakes, w)
    ensures |stakes| == |w|
  {
    if stakes == [] {
      ListingOfSome(stakes, w);
    } else {
      var s := stakes[|stakes| - 1];
      assert s in stakes;
      ListingDropLast(stakes, w);
      ListingSize(stakes[..|stakes| - 1], w - {Key(s)});
      assert (w - {Key(s)}).Keys == w.Keys - {Key(s)};
    }
  }

  // ---------- what a room's rounds still hold ----------

  ghost function Pending(r: Round, room: string): int
  {
    if r.room == room && !IsTerminal(r.status) then r.total else 0
  }

  ghost function PendingMap(rounds: map<string, Round>, room: string): map<string, int>
  {
    map id | id in rounds :: Pending(rounds[id], room)
  }

  /** Tokens in the pools of the room's rounds that are not terminal. */
  ghost function Live(s: Store, room: string): int
  {
    MapSum(PendingMap(s.rounds, room))
  }

  lemma PendingSet(rounds: map<string, Round>, id: string, r: Round, room: string)
    ensures MapSum(PendingMap(rounds[id := r], room)) ==
              MapSum(PendingMap(rounds, room))
              - (if id in rounds then Pending(rounds[id], room) else 0) + Pending(r, room)
  {
    assert PendingMap(rounds[id := r], room) == PendingMap(rounds, room)[id := Pending(r, room)];
    MapSumSet(PendingMap(rounds, room), id, Pending(r, room));
  }

  // ---------- a room's accounts ----------

  /** The sum of the outbox's effects on a balance. */
  ghost function Moved(s: Store, v: View): int
  {
    SumBy(s.outbox, EffectOn(v))
  }

  function Id(): int -> int { (n: int) => n }

  ghost function Granted(s: Store, room: string): int
  {
    MapSum(RoomOf(s, room).granted)
  }

  ghost predicate Positive(r: Room)
  {
    && (forall u :: u in r.wallets ==> r.wallets[u] >= 0)
    && (forall u :: u in r.withdrawn ==> r.withdrawn[u] >= 0)
    && (forall i :: 0 <= i < |r.grants| ==> r.grants[i] > 0)
    && MapSum(r.granted) == SumBy(r.grants, Id())
  }

  /** Tokens granted are in wallets, in live pools, in dust, or were withdrawn. */
  ghost predicate Conserved(s: Store, room: string)
  {
    var r := RoomOf(s, room);
    MapSum(r.wallets) + MapSum(r.withdrawn) + Live(s, room) + Moved(s, DustIn(room)) == MapSum(r.granted)
  }

  ghost predicate PoolsMoved(s: Store, room: string)
  {
    Live(s, room) == Moved(s, PoolIn(room))
  }

  /** A user's wallet is what was granted, less what was withdrawn, plus what the outbox moved. */
  ghost predicate Explained(s: Store, room: string, user: string)
  {
    var r := RoomOf(s, room);
    Get(r.wallets, user) + Get(r.withdrawn, user) == Get(r.granted, user) + Moved(s, WalletIn(room, user))
  }

  /** A session that was never cleared has its wallet and its opening stake together. */
  ghost predicate Uncleared(r: Room, user: string)
  {
    user !in r.cleared ==>
      && (user in r.wallets <==> user in r.opening)
      && Get(r.opening, user) == Get(r.granted, user) && Get(r.withdrawn, user) == 0
  }

  ghost predicate Seated(s: Store, room: string)
  {
    forall id, u, o :: id in s.rounds && s.rounds[id].room == room && (u, o) in s.rounds[id].wagers
                       ==> u in RoomOf(s, room).wallets || u in RoomOf(s, room).cleared
  }

  ghost predicate RoomOk(s: Store, room: string)
  {
    && Positive(RoomOf(s, room)) && Conserved(s, room) && PoolsMoved(s, room) && Seated(s, room)
    && (forall u :: Explained(s, room, u))
    && (forall u :: Uncleared(RoomOf(s, room), u))
  }

  // ---------- the outbox ----------

  /**
   * An event is valid but for its number of payouts, which is at most its round's wagers; it
   * maps to a transaction; and its amounts are within the room's grants.
   */
  ghost predicate EventOk(s: Store, ev: Event)
  {
    && ev.room != "" && ev.round != "" && ev.key != ""
    && match ev
       case WagerPlaced(room, _, user, _, outcome, amount, balance) =>
         && user != "" && 0 < amount <= Granted(s, room) && 0 <= outcome < MAX_OUTCOMES
         && 0 <= balance <= Granted(s, room)
       case RoundSettled(room, round, _, winner, total, dust, payouts, refunded) =>
         && round in s.rounds && s.rounds[round].status != Open && |payouts| <= |s.rounds[round].wagers|
         && 0 <= dust <= total <= Granted(s, room)
         && (forall p :: p in payouts ==> p.user != "" && p.amount > 0)
         && dust + SumBy(payouts, Paid()) == total
         && (if refunded then winner == -1 && dust == 0 else 0 <= winner < MAX_OUTCOMES)
  }

  function Settles(round: string): Event -> int
  {
    (ev: Event) => if ev.RoundSettled? && ev.round == round then 1 else 0
  }

  /** How many terminal events the outbox holds for a round. */
  function Endings(s: Store, round: string): int
  {
    SumBy(s.outbox, Settles(round))
  }

  ghost predicate EndedOnce(s: Store, round: string)
  {
    Endings(s, round) == if round in s.rounds && IsTerminal(s.rounds[round].status) then 1 else 0
  }

  // ---------- calls and keys ----------

  ghost predicate CallOk(s: Store, c: Call)
  {
    && c.key != ""
    && match c.at
       case SawLocked(room, count) =>
         c.round in s.rounds && s.rounds[c.round].status != Open
         && room == s.rounds[c.round].room && count == s.rounds[c.round].outcomeCount
       case HasStakes(room, stakes) =>
         && c.round in s.rounds && s.rounds[c.round].status != Open
         && room == s.rounds[c.round].room && Lists(stakes, s.rounds[c.round].wagers)
         && (c.aim.SettleOn? ==> ValidOutcome(c.aim.winner, s.rounds[c.round].outcomeCount))
       case _ => true
  }

  /** Settlement keys belong to one call each, and are used by at most one event. */
  ghost predicate KeysOk(s: Store)
  {
    NamesOk(s) && NewKeysOk(s) && SharedKeysOk(s)
  }

  /** Calls have different keys; a settlement has the key of a call, and a wager one that was cached. */
  ghost predicate NamesOk(s: Store)
  {
    && (forall i, j :: i in s.calls && j in s.calls && s.calls[i].key == s.calls[j].key ==> i == j)
    && (forall i :: 0 <= i < |s.outbox| && s.outbox[i].RoundSettled? ==> CallKey(s, s.outbox[i].key))
    && (forall i :: 0 <= i < |s.outbox| && s.outbox[i].WagerPlaced? ==>
          !CallKey(s, s.outbox[i].key) && (s.outbox[i].key in s.idem || s.outbox[i].key in s.forgotten))
  }

  /** The key of a call that is not done is in no event. */
  ghost predicate NewKeysOk(s: Store)
  {
    forall id :: id in s.calls && !s.calls[id].at.Done? ==> !EventKey(s, s.calls[id].key)
  }

  /** Only wagers share keys. */
  ghost predicate SharedKeysOk(s: Store)
  {
    forall i, j :: 0 <= i < j < |s.outbox| && s.outbox[i].key == s.outbox[j].key
                   ==> s.outbox[i].WagerPlaced? && s.outbox[j].WagerPlaced?
  }

  ghost predicate RoundsOk(s: Store)
  {
    forall id :: id in s.rounds ==> id != "" && RoundOk(s.rounds[id])
  }

  ghost predicate EventsOk(s: Store)
  {
    forall i :: 0 <= i < |s.outbox| ==> EventOk(s, s.outbox[i])
  }

  ghost predicate RoomsOk(s: Store) { forall room :: RoomOk(s, room) }

  ghost predicate EndingsOk(s: Store) { forall id :: EndedOnce(s, id) }

  ghost predicate CallsOk(s: Store) { forall id :: id in s.calls ==> CallOk(s, s.calls[id]) }

  ghost predicate Inv(s: Store)
  {
    RoundsOk(s) && RoomsOk(s) && EventsOk(s) && EndingsOk(s) && CallsOk(s) && KeysOk(s)
  }
}
