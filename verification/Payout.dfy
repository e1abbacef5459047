/** Pari-mutuel settlement arithmetic: who is paid what, and what rounding leaves behind. */
module Payout {
  import opened Base

  datatype Stake = Stake(user: string, outcome: int, amount: int)

  datatype Payment = Payment(user: string, amount: int)

  datatype PlayerResult = PlayerResult(user: string, staked: int, returned: int, net: int)

  datatype Settlement = Settlement(
    payouts: seq<Payment>, results: seq<PlayerResult>, dust: int, refunded: bool)

  datatype SettleError = InvalidOutcome | InvalidStake

  /** The arithmetic a settlement is carried out in. */
  datatype Width = Unbounded | Int64

  function Norm(w: Width, x: int): int
  {
    if w.Unbounded? then x else Wrap(x)
  }

  // ---------- what is summed ----------

  function Amount(): Stake -> int { (s: Stake) => s.amount }

  function On(outcome: int): Stake -> int
  {
    (s: Stake) => if s.outcome == outcome then s.amount else 0
  }

  function By(user: string): Stake -> int
  {
    (s: Stake) => if s.user == user then s.amount else 0
  }

  function Paid(): Payment -> int { (p: Payment) => p.amount }

  function PaidTo(user: string): Payment -> int
  {
    (p: Payment) => if p.user == user then p.amount else 0
  }

  function Total(stakes: seq<Stake>): int { SumBy(stakes, Amount()) }

  function PoolOn(stakes: seq<Stake>, outcome: int): int { SumBy(stakes, On(outcome)) }

  // ---------- the settlement function ----------

  predicate ValidOutcome(outcome: int, count: int) { 0 <= outcome < count }

  /** The first complaint about a stake, in the order the stakes come. */
  function FirstFault(stakes: seq<Stake>, count: int): Option<SettleError>
  {
    if stakes == [] then None
    else
      var earlier := FirstFault(stakes[..|stakes| - 1], count);
      var s := stakes[|stakes| - 1];
      if earlier.Some? then earlier
      else if s.amount <= 0 then Some(InvalidStake)
      else if !ValidOutcome(s.outcome, count) then Some(InvalidOutcome)
      else None
  }

  predicate ValidStakes(stakes: seq<Stake>, count: int)
  {
    forall i :: 0 <= i < |stakes| ==> stakes[i].amount > 0 && ValidOutcome(stakes[i].outcome, count)
  }

  function Share(w: Width, stake: int, total: int, pool: int): int
    requires pool != 0
  {
    Norm(w, TruncDiv(Norm(w, stake * total), pool))
  }

  /** One payment per winning stake, in stake order. */
  function Winnings(w: Width, stakes: seq<Stake>, winner: int, total: int, pool: int): seq<Payment>
    requires pool != 0
  {
    if stakes == [] then [] else
    var rest := Winnings(w, stakes[..|stakes| - 1], winner, total, pool);
    var s := stakes[|stakes| - 1];
    if s.outcome == winner then rest + [Payment(s.user, Share(w, s.amount, total, pool))] else rest
  }

  /** Every stake handed back. */
  function Refunds(stakes: seq<Stake>): seq<Payment>
  {
    seq(|stakes|, i requires 0 <= i < |stakes| => Payment(stakes[i].user, stakes[i].amount))
  }

  /** The stakers in the order they first appear. */
  function Players(stakes: seq<Stake>): seq<string>
  {
    if stakes == [] then [] else
    var rest := Players(stakes[..|stakes| - 1]);
    var u := stakes[|stakes| - 1].user;
    if u in rest then rest else rest + [u]
  }

  function Row(w: Width, stakes: seq<Stake>, payouts: seq<Payment>, user: string): PlayerResult
  {
    var staked := Norm(w, SumBy(stakes, By(user)));
    var returned := Norm(w, SumBy(payouts, PaidTo(user)));
    PlayerResult(user, staked, returned, Norm(w, returned - staked))
  }

  function Rows(w: Width, stakes: seq<Stake>, payouts: seq<Payment>): seq<PlayerResult>
  {
    var us := Players(stakes);
    seq(|us|, i requires 0 <= i < |us| => Row(w, stakes, payouts, us[i]))
  }

  function Settled(w: Width, stakes: seq<Stake>, winner: int): Settlement
  {
    var total := Norm(w, Total(stakes));
    var pool := Norm(w, PoolOn(stakes, winner));
    var payouts := if pool == 0 then Refunds(stakes) else Winnings(w, stakes, winner, total, pool);
    Settlement(payouts, Rows(w, stakes, payouts),
               Norm(w, total - Norm(w, SumBy(payouts, Paid()))), pool == 0)
  }

  function Settlements(w: Width, stakes: seq<Stake>, winner: int, count: int): Result<Settlement, SettleError>
  {
    if !ValidOutcome(winner, count) then Err(InvalidOutcome) else
    match FirstFault(stakes, count)
    case Some(e) => Err(e)
    case None => Ok(Settled(w, stakes, winner))
  }

  // ---------- the settlement loops, in 64-bit arithmetic ----------

  lemma WrapSum(a: int, b: int)
    ensures Wrap(Wrap(a) + b) == Wrap(a + b)
  {
  }

  lemma {:induction false} FaultPersists(stakes: seq<Stake>, i: nat, count: int)
    requires i <= |stakes| && FirstFault(stakes[..i], count).Some?
    ensures FirstFault(stakes, count) == FirstFault(stakes[..i], count)
    decreases |stakes|
  {
    if i < |stakes| {
      assert stakes[..|stakes| - 1][..i] == stakes[..i];
      FaultPersists(stakes[..|stakes| - 1], i, count);
    } else {
      assert stakes[..i] == stakes;
    }
  }

  method Totals(stakes: seq<Stake>, winner: int, count: int)
    returns (fault: Option<SettleError>, total: int, winningPool: int)
    ensures fault == FirstFault(stakes, count)
    ensures fault.None? ==> total == Wrap(Total(stakes)) && winningPool == Wrap(PoolOn(stakes, winner))
  {
    total, winningPool := 0, 0;
    for i := 0 to |stakes|
      invariant FirstFault(stakes[..i], count).None?
      invariant total == Wrap(Total(stakes[..i]))
      invariant winningPool == Wrap(PoolOn(stakes[..i], winner))
    {
      var s := stakes[i];
      assert stakes[..i + 1][..i] == stakes[..i];
      if s.amount <= 0 {
        FaultPersists(stakes, i + 1, count);
        return Some(InvalidStake), total, winningPool;
      }
      if !ValidOutcome(s.outcome, count) {
        FaultPersists(stakes, i + 1, count);
        return Some(InvalidOutcome), total, winningPool;
      }
      WrapSum(Total(stakes[..i]), s.amount);
      total := Wrap(total + s.amount);
      if s.outcome == winner {
        WrapSum(PoolOn(stakes[..i], winner), s.amount);
        winningPool := Wrap(winningPool + s.amount);
      }
    }
    assert stakes[..|stakes|] == stakes;
    fault := None;
  }

  method PayBack(stakes: seq<Stake>) returns (payouts: seq<Payment>, paid: int)
    ensures payouts == Refunds(stakes) && paid == Wrap(SumBy(payouts, Paid()))
    ensures ForStakers(payouts, stakes)
  {
    payouts, paid := [], 0;
    for i := 0 to |stakes|
      invariant payouts == Refunds(stakes)[..i]
      invariant paid == Wrap(SumBy(payouts, Paid()))
    {
      var p := Payment(stakes[i].user, stakes[i].amount);
      SumBySnoc(payouts, p, Paid());
      WrapSum(SumBy(payouts, Paid()), p.amount);
      payouts := payouts + [p];
      paid := Wrap(paid + p.amount);
    }
    RefundsAreForStakers(stakes);
  }

  method PayWinners(stakes: seq<Stake>, winner: int, total: int, winningPool: int)
    returns (payouts: seq<Payment>, paid: int)
    requires winningPool != 0
    ensures payouts == Winnings(Int64, stakes, winner, total, winningPool)
    ensures paid == Wrap(SumBy(payouts, Paid()))
    ensures ForStakers(payouts, stakes)
  {
    payouts, paid := [], 0;
    for i := 0 to |stakes|
      invariant payouts == Winnings(Int64, stakes[..i], winner, total, winningPool)
      invariant paid == Wrap(SumBy(payouts, Paid()))
    {
      assert stakes[..i + 1][..i] == stakes[..i];
      if stakes[i].outcome != winner {
        continue;
      }
      var p := Payment(stakes[i].user, Share(Int64, stakes[i].amount, total, winningPool));
      SumBySnoc(payouts, p, Paid());
      WrapSum(SumBy(payouts, Paid()), p.amount);
      payouts := payouts + [p];
      paid := Wrap(paid + p.amount);
    }
    assert stakes[..|stakes|] == stakes;
    WinnersAreStakers(Int64, stakes, winner, total, winningPool);
  }

  method PayOut(stakes: seq<Stake>, winner: int, total: int, winningPool: int) returns (settlement: Settlement)
    requires total == Wrap(Total(stakes)) && winningPool == Wrap(PoolOn(stakes, winner))
    ensures settlement == Settled(Int64, stakes, winner)
  {
    var payouts, paid;
    if winningPool == 0 {
      payouts, paid := PayBack(stakes);
    } else {
      payouts, paid := PayWinners(stakes, winner, total, winningPool);
    }
    var results := PlayerResults(stakes, payouts);
    settlement := Settlement(payouts, results, Wrap(total - paid), winningPool == 0);
  }

  method Settle(stakes: seq<Stake>, winner: int, count: int) returns (r: Result<Settlement, SettleError>)
    ensures r == Settlements(Int64, stakes, winner, count)
  {
    if !ValidOutcome(winner, count) {
      return Err(InvalidOutcome);
    }
    var fault, total, winningPool := Totals(stakes, winner, count);
    if fault.Some? {
      return Err(fault.value);
    }
    var settlement := PayOut(stakes, winner, total, winningPool);
    r := Ok(settlement);
  }

  // ---------- the per-player fold ----------

  ghost predicate ForStakers(payouts: seq<Payment>, stakes: seq<Stake>)
  {
    forall p :: p in payouts ==> p.user in Players(stakes)
  }

  lemma {:induction false} WinnersAreStakers(w: Width, stakes: seq<Stake>, winner: int, total: int, pool: int)
    requires pool != 0
    ensures ForStakers(Winnings(w, stakes, winner, total, pool), stakes)
  {
    if stakes != [] {
      WinnersAreStakers(w, stakes[..|stakes| - 1], winner, total, pool);
    }
  }

  lemma RefundsAreForStakers(stakes: seq<Stake>)
    ensures ForStakers(Refunds(stakes), stakes)
  {
    PlayersAreTheStakers(stakes);
  }

  /** Each staker has exactly one place in the reveal. */
  lemma {:induction false} PlayersAreTheStakers(stakes: seq<Stake>)
    ensures forall u :: u in Players(stakes) <==> exists i :: 0 <= i < |stakes| && stakes[i].user == u
    ensures forall i, j :: 0 <= i < j < |Players(stakes)| ==> Players(stakes)[i] != Players(stakes)[j]
  {
    if stakes != [] {
      var rest, s := stakes[..|stakes| - 1], stakes[|stakes| - 1];
      PlayersAreTheStakers(rest);
      forall u ensures u in Players(stakes) <==> exists i :: 0 <= i < |stakes| && stakes[i].user == u {
        if i :| 0 <= i < |stakes| && stakes[i].user == u {
          if i < |rest| { assert rest[i].user == u; }
        }
        if i :| 0 <= i < |rest| && rest[i].user == u { assert stakes[i].user == u; }
      }
    }
  }

  ghost predicate Indexes(index: map<string, nat>, users: seq<string>)
  {
    && (forall u :: u in index <==> u in users)
    && (forall u :: u in index ==> index[u] < |users| && users[index[u]] == u)
  }

  lemma {:induction false} NotAStaker(stakes: seq<Stake>, u: string)
    requires u !in Players(stakes)
    ensures SumBy(stakes, By(u)) == 0
  {
    if stakes != [] {
      NotAStaker(stakes[..|stakes| - 1], u);
    }
  }

  /** A row of the reveal once the stakes are counted, and once these payouts are added. */
  function PartRow(stakes: seq<Stake>, payouts: seq<Payment>, user: string): PlayerResult
  {
    PlayerResult(user, Wrap(SumBy(stakes, By(user))), Wrap(SumBy(payouts, PaidTo(user))), 0)
  }

  ghost predicate AreRows(rows: seq<PlayerResult>, users: seq<string>, stakes: seq<Stake>, payouts: seq<Payment>)
  {
    |rows| == |users| && forall j :: 0 <= j < |users| ==> rows[j] == PartRow(stakes, payouts, users[j])
  }

  lemma CountStake(before: seq<Stake>, s: Stake, u: string)
    ensures var row := PartRow(before, [], u);
            PartRow(before + [s], [], u) == if u == s.user then row.(staked := Wrap(row.staked + s.amount)) else row
  {
    SumBySnoc(before, s, By(u));
    WrapSum(SumBy(before, By(u)), s.amount);
  }

  lemma AddReturn(stakes: seq<Stake>, before: seq<Payment>, p: Payment, u: string)
    ensures var row := PartRow(stakes, before, u);
            PartRow(stakes, before + [p], u) ==
              if u == p.user then row.(returned := Wrap(row.returned + p.amount)) else row
  {
    SumBySnoc(before, p, PaidTo(u));
    WrapSum(SumBy(before, PaidTo(u)), p.amount);
  }

  ghost predicate At(users: seq<string>, j: nat, u: string)
  {
    j < |users| && users[j] == u && forall k :: 0 <= k < |users| && k != j ==> users[k] != u
  }

  /** Looking a user up, and adding a slot for a new one, keeps one slot per staker. */
  lemma {:induction false} IndexStep(index: map<string, nat>, before: seq<Stake>, s: Stake)
    requires Indexes(index, Players(before))
    ensures Players(before + [s]) == if s.user in index then Players(before) else Players(before) + [s.user]
    ensures var index' := if s.user in index then index else index[s.user := |Players(before)|];
            Indexes(index', Players(before + [s])) && At(Players(before + [s]), index'[s.user], s.user)
  {
    assert (before + [s])[..|before|] == before;
    PlayersAreTheStakers(before);
  }

  lemma CountInPlace(rows: seq<PlayerResult>, users: seq<string>, before: seq<Stake>, s: Stake, j: nat)
    requires AreRows(rows, users, before, []) && At(users, j, s.user)
    ensures AreRows(rows[j := rows[j].(staked := Wrap(rows[j].staked + s.amount))], users, before + [s], [])
  {
    forall k | 0 <= k < |users| { CountStake(before, s, users[k]); }
  }

  lemma AddInPlace(rows: seq<PlayerResult>, users: seq<string>, stakes: seq<Stake>, before: seq<Payment>, p: Payment,
                   j: nat)
    requires AreRows(rows, users, stakes, before) && At(users, j, p.user)
    ensures AreRows(rows[j := rows[j].(returned := Wrap(rows[j].returned + p.amount))], users, stakes, before + [p])
  {
    forall k | 0 <= k < |users| { AddReturn(stakes, before, p, users[k]); }
  }

  lemma NewRow(results: seq<PlayerResult>, before: seq<Stake>, u: string)
    requires AreRows(results, Players(before), before, []) && u !in Players(before)
    ensures AreRows(results + [PlayerResult(u, 0, 0, 0)], Players(before) + [u], before, [])
  {
    NotAStaker(before, u);
  }

  /** Count one stake in its user's row, opening a row for a user not seen before. */
  method CountOne(index: map<string, nat>, results: seq<PlayerResult>, ghost before: seq<Stake>, s: Stake)
    returns (index': map<string, nat>, results': seq<PlayerResult>)
    requires Indexes(index, Players(before)) && AreRows(results, Players(before), before, [])
    ensures Indexes(index', Players(before + [s])) && AreRows(results', Players(before + [s]), before + [s], [])
  {
    IndexStep(index, before, s);
    index', results' := index, results;
    if s.user !in index {
      NewRow(results, before, s.user);
      index' := index[s.user := |results|];
      results' := results + [PlayerResult(s.user, 0, 0, 0)];
    }
    var j := index'[s.user];
    CountInPlace(results', Players(before + [s]), before, s, j);
    results' := results'[j := results'[j].(staked := Wrap(results'[j].staked + s.amount))];
  }

  method CountStakes(stakes: seq<Stake>) returns (index: map<string, nat>, results: seq<PlayerResult>)
    ensures Indexes(index, Players(stakes)) && AreRows(results, Players(stakes), stakes, [])
  {
    index, results := map[], [];
    for i := 0 to |stakes|
      invariant Indexes(index, Players(stakes[..i]))
      invariant AreRows(results, Players(stakes[..i]), stakes[..i], [])
    {
      assert stakes[..i + 1] == stakes[..i] + [stakes[i]];
      index, results := CountOne(index, results, stakes[..i], stakes[i]);
    }
    assert stakes[..|stakes|] == stakes;
  }

  method AddReturns(ghost stakes: seq<Stake>, payouts: seq<Payment>, index: map<string, nat>,
                    counted: seq<PlayerResult>)
    returns (results: seq<PlayerResult>)
    requires Indexes(index, Players(stakes)) && AreRows(counted, Players(stakes), stakes, [])
    requires ForStakers(payouts, stakes)
    ensures AreRows(results, Players(stakes), stakes, payouts)
  {
    results := counted;
    PlayersAreTheStakers(stakes);
    for i := 0 to |payouts|
      invariant AreRows(results, Players(stakes), stakes, payouts[..i])
    {
      var p := payouts[i];
      assert p in payouts;
      assert payouts[..i + 1] == payouts[..i] + [p];
      var j := index[p.user];
      AddInPlace(results, Players(stakes), stakes, payouts[..i], p, j);
      results := results[j := results[j].(returned := Wrap(results[j].returned + p.amount))];
    }
    assert payouts[..|payouts|] == payouts;
  }

  method Net(rows: seq<PlayerResult>) returns (results: seq<PlayerResult>)
    ensures |results| == |rows|
    ensures forall j :: 0 <= j < |rows| ==> results[j] == rows[j].(net := Wrap(rows[j].returned - rows[j].staked))
  {
    results := rows;
    for i := 0 to |results|
      invariant |results| == |rows|
      invariant forall j :: 0 <= j < i ==> results[j] == rows[j].(net := Wrap(rows[j].returned - rows[j].staked))
      invariant forall j :: i <= j < |rows| ==> results[j] == rows[j]
    {
      results := results[i := results[i].(net := Wrap(results[i].returned - results[i].staked))];
    }
  }

  method PlayerResults(stakes: seq<Stake>, payouts: seq<Payment>) returns (results: seq<PlayerResult>)
    requires ForStakers(payouts, stakes)
    ensures results == Rows(Int64, stakes, payouts)
    ensures forall r :: r in results ==>
              && r.staked == Wrap(SumBy(stakes, By(r.user))) && r.returned == Wrap(SumBy(payouts, PaidTo(r.user)))
              && r.net == Wrap(r.returned - r.staked)
  {
    var index;
    index, results := CountStakes(stakes);
    results := AddReturns(stakes, payouts, index, results);
    results := Net(results);
    RowsSay(stakes, payouts);
  }

  lemma RowsSay(stakes: seq<Stake>, payouts: seq<Payment>)
    ensures forall r :: r in Rows(Int64, stakes, payouts) ==>
              && r.staked == Wrap(SumBy(stakes, By(r.user))) && r.returned == Wrap(SumBy(payouts, PaidTo(r.user)))
              && r.net == Wrap(r.returned - r.staked)
  {
  }
}
