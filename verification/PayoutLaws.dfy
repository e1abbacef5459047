/** What settling a round guarantees, and when 64-bit arithmetic is enough to guarantee it. */
module PayoutLaws {
  import opened Base
  import opened Payout

  lemma {:induction false} FaultFree(stakes: seq<Stake>, count: int)
    ensures FirstFault(stakes, count).None? <==> ValidStakes(stakes, count)
  {
    if stakes != [] {
      FaultFree(stakes[..|stakes| - 1], count);
    }
  }

  function WinningStakes(stakes: seq<Stake>, winner: int): seq<Stake>
  {
    if stakes == [] then [] else
    var rest := WinningStakes(stakes[..|stakes| - 1], winner);
    var s := stakes[|stakes| - 1];
    if s.outcome == winner then rest + [s] else rest
  }

  /** `amount` is the stake's share of the total, rounded down to a whole token. */
  ghost predicate FairShare(amount: int, stake: int, total: int, pool: int)
  {
    amount >= stake && amount * pool <= stake * total < (amount + 1) * pool
  }

  lemma Scale(a: int, b: int, p: int)
    ensures a <= b && p >= 0 ==> a * p <= b * p
  {
  }

  lemma Floor(x: int, p: int)
    requires p > 0
    ensures x / p * p <= x < x / p * p + p
  {
  }

  lemma ShareIsFair(stake: int, total: int, pool: int)
    requires 0 < stake <= pool <= total
    ensures FairShare(Share(Unbounded, stake, total, pool), stake, total, pool)
    ensures Share(Unbounded, stake, total, pool) <= total
  {
    var x := stake * total;
    Floor(x, pool);
    var q := x / pool;
    Scale(pool, total, stake);
    Scale(stake, pool, total);
    Scale(q + 1, stake, pool);
    Scale(total + 1, q, pool);
    Scale(1, pool, stake * total);
  }

  lemma {:induction false} PoolBounds(stakes: seq<Stake>, winner: int, count: int)
    requires ValidStakes(stakes, count)
    ensures 0 <= PoolOn(stakes, winner) <= Total(stakes)
    ensures forall s :: s in WinningStakes(stakes, winner) ==> 0 < s.amount <= PoolOn(stakes, winner)
    ensures PoolOn(stakes, winner) == 0 <==> WinningStakes(stakes, winner) == []
  {
    if stakes != [] {
      PoolBounds(stakes[..|stakes| - 1], winner, count);
    }
  }

  /** The payments are the fair shares of the winning stakes, in their order. */
  lemma {:induction false} WinningsAreShares(w: Width, stakes: seq<Stake>, winner: int, total: int, pool: int)
    requires pool != 0
    ensures var ps, ws := Winnings(w, stakes, winner, total, pool), WinningStakes(stakes, winner);
            |ps| == |ws| &&
            forall k :: 0 <= k < |ws| ==> ps[k] == Payment(ws[k].user, Share(w, ws[k].amount, total, pool))
  {
    if stakes != [] {
      WinningsAreShares(w, stakes[..|stakes| - 1], winner, total, pool);
    }
  }

  /** Flooring costs each winning stake less than one token. */
  lemma {:induction false} FlooringLoss(stakes: seq<Stake>, winner: int, count: int, total: int, pool: int)
    requires ValidStakes(stakes, count) && PoolOn(stakes, winner) <= pool <= total && 0 < pool
    ensures var paid := SumBy(Winnings(Unbounded, stakes, winner, total, pool), Paid());
            0 <= PoolOn(stakes, winner) * total - paid * pool <= |WinningStakes(stakes, winner)| * (pool - 1)
  {
    if stakes != [] {
      var rest, s := stakes[..|stakes| - 1], stakes[|stakes| - 1];
      PoolBounds(rest, winner, count);
      FlooringLoss(rest, winner, count, total, pool);
      if s.outcome == winner {
        var ps, q := Winnings(Unbounded, rest, winner, total, pool), Share(Unbounded, s.amount, total, pool);
        SumBySnoc(ps, Payment(s.user, q), Paid());
        ShareIsFair(s.amount, total, pool);
        LossStep(PoolOn(rest, winner), SumBy(ps, Paid()), |WinningStakes(rest, winner)|, s.amount, q, total, pool);
      }
    }
  }

  lemma LossStep(won: int, paid: int, n: int, stake: int, q: int, total: int, pool: int)
    requires 0 <= won * total - paid * pool <= n * (pool - 1)
    requires q * pool <= stake * total < (q + 1) * pool
    ensures 0 <= (won + stake) * total - (paid + q) * pool <= (n + 1) * (pool - 1)
  {
    assert (won + stake) * total == won * total + stake * total;
    assert (paid + q) * pool == paid * pool + q * pool;
    assert (q + 1) * pool == q * pool + pool;
    assert (n + 1) * (pool - 1) == n * (pool - 1) + (pool - 1);
  }

  // ---------- rows of the reveal ----------

  function Owed(payouts: seq<Payment>): string -> int
  {
    (u: string) => SumBy(payouts, PaidTo(u))
  }

  function Hit(p: Payment): string -> int
  {
    (u: string) => if p.user == u then p.amount else 0
  }

  ghost predicate Distinct(us: seq<string>)
  {
    forall i, j :: 0 <= i < j < |us| ==> us[i] != us[j]
  }

  lemma {:induction false} HitOnce(us: seq<string>, p: Payment)
    requires Distinct(us)
    ensures SumBy(us, Hit(p)) == if p.user in us then p.amount else 0
  {
    if us != [] {
      HitOnce(us[..|us| - 1], p);
    }
  }

  lemma {:induction false} NothingOwed(us: seq<string>)
    ensures SumBy(us, Owed([])) == 0
  {
    if us != [] {
      NothingOwed(us[..|us| - 1]);
    }
  }

  /** Grouping payments by user loses nothing. */
  lemma {:induction false} Regroup(us: seq<string>, payouts: seq<Payment>)
    requires Distinct(us) && forall p :: p in payouts ==> p.user in us
    ensures SumBy(us, Owed(payouts)) == SumBy(payouts, Paid())
  {
    if payouts == [] {
      NothingOwed(us);
    } else {
      var rest, p := payouts[..|payouts| - 1], payouts[|payouts| - 1];
      Regroup(us, rest);
      HitOnce(us, p);
      SumByAdd(us, Owed(rest), Hit(p), Owed(payouts));
    }
  }

  lemma {:induction false} RefundsMatchStakes(stakes: seq<Stake>, u: string)
    ensures SumBy(Refunds(stakes), PaidTo(u)) == SumBy(stakes, By(u))
    ensures SumBy(Refunds(stakes), Paid()) == Total(stakes)
  {
    if stakes != [] {
      var n := |stakes| - 1;
      RefundsMatchStakes(stakes[..n], u);
      assert Refunds(stakes)[..n] == Refunds(stakes[..n]);
    }
  }

  function StakedOf(): PlayerResult -> int { (r: PlayerResult) => r.staked }

  function ReturnedOf(): PlayerResult -> int { (r: PlayerResult) => r.returned }

  function NetOf(): PlayerResult -> int { (r: PlayerResult) => r.net }

  /** What a row says of its user, in the stakes' and the payments' own terms. */
  ghost predicate Accounts(r: PlayerResult, stakes: seq<Stake>, payouts: seq<Payment>)
  {
    && r.staked == SumBy(stakes, By(r.user)) && r.returned == SumBy(payouts, PaidTo(r.user))
    && r.net == r.returned - r.staked
  }

  /** Adding up the columns, user by user. */
  lemma {:induction false} ColumnsAre(us: seq<string>, stakes: seq<Stake>, payouts: seq<Payment>,
                                      rows: seq<PlayerResult>)
    requires |rows| == |us| && forall i :: 0 <= i < |us| ==> rows[i].user == us[i] && Accounts(rows[i], stakes, payouts)
    ensures SumBy(rows, StakedOf()) == SumBy(us, Owed(Refunds(stakes)))
    ensures SumBy(rows, ReturnedOf()) == SumBy(us, Owed(payouts))
    ensures SumBy(rows, NetOf()) == SumBy(us, Owed(payouts)) - SumBy(us, Owed(Refunds(stakes)))
  {
    if us != [] {
      var n := |us| - 1;
      ColumnsAre(us[..n], stakes, payouts, rows[..n]);
      RefundsMatchStakes(stakes, us[n]);
    }
  }

  lemma ColumnsSum(stakes: seq<Stake>, payouts: seq<Payment>)
    requires ForStakers(payouts, stakes)
    ensures var rows := Rows(Unbounded, stakes, payouts);
            && SumBy(rows, StakedOf()) == Total(stakes) && SumBy(rows, ReturnedOf()) == SumBy(payouts, Paid())
            && SumBy(rows, NetOf()) == SumBy(payouts, Paid()) - Total(stakes)
  {
    var us := Players(stakes);
    PlayersAreTheStakers(stakes);
    RefundsAreForStakers(stakes);
    RefundsMatchStakes(stakes, "");
    ColumnsAre(us, stakes, payouts, Rows(Unbounded, stakes, payouts));
    Regroup(us, payouts);
    Regroup(us, Refunds(stakes));
  }

  /**
   * Every row of the reveal says what its user staked in all, what the user is paid in all, and the
   * difference; there is one for each staker, and the columns add up to what was staked and paid.
   */
  lemma RowsAccount(stakes: seq<Stake>, winner: int, count: int)
    requires ValidStakes(stakes, count)
    ensures var st := Settled(Unbounded, stakes, winner);
            && (forall r :: r in st.results ==>
                  && r.staked == SumBy(stakes, By(r.user)) && r.returned == SumBy(st.payouts, PaidTo(r.user))
                  && r.net == r.returned - r.staked)
            && (forall s :: s in stakes ==> exists r :: r in st.results && r.user == s.user)
            && (forall i, j :: 0 <= i < j < |st.results| ==> st.results[i].user != st.results[j].user)
            && SumBy(st.results, StakedOf()) == Total(stakes)
            && SumBy(st.results, ReturnedOf()) == SumBy(st.payouts, Paid())
  {
    var st := Settled(Unbounded, stakes, winner);
    PaymentsArePositive(stakes, winner, count);
    ColumnsSum(stakes, st.payouts);
    PlayersAreTheStakers(stakes);
    forall s | s in stakes ensures exists r :: r in st.results && r.user == s.user {
      HasRow(stakes, st.payouts, s);
    }
  }

  lemma HasRow(stakes: seq<Stake>, payouts: seq<Payment>, s: Stake)
    requires s in stakes
    ensures exists r :: r in Rows(Unbounded, stakes, payouts) && r.user == s.user
  {
    PlayersAreTheStakers(stakes);
    assert s.user in Players(stakes);
    var j :| 0 <= j < |Players(stakes)| && Players(stakes)[j] == s.user;
    assert Rows(Unbounded, stakes, payouts)[j] in Rows(Unbounded, stakes, payouts);
  }

  /** Rows come in the order in which their users first staked. */
  lemma {:induction false} PlayersInOrder(stakes: seq<Stake>, i: nat)
    requires i < |Players(stakes)|
    ensures exists k :: 0 <= k < |stakes| && stakes[k].user == Players(stakes)[i]
                        && forall m :: 0 <= m < k ==> stakes[m].user in Players(stakes)[..i]
  {
    var n := |stakes| - 1;
    var rest := Players(stakes[..n]);
    if i < |rest| {
      PlayersInOrder(stakes[..n], i);
      var k :| 0 <= k < n && stakes[..n][k].user == rest[i]
               && forall m :: 0 <= m < k ==> stakes[..n][m].user in rest[..i];
      assert forall m :: 0 <= m < k ==> stakes[m] == stakes[..n][m];
      assert Players(stakes)[..i] == rest[..i];
    } else {
      PlayersAreTheStakers(stakes[..n]);
      assert Players(stakes)[..i] == rest;
      assert forall m :: 0 <= m < n ==> stakes[..n][m].user in rest;
      assert forall m :: 0 <= m < n ==> stakes[m] == stakes[..n][m];
    }
  }

  /** Settling fails on the winner first, and then on the first stake that is wrong, whose amount is looked at first. */
  lemma SettleFailsOnTheFirst(w: Width, stakes: seq<Stake>, winner: int, count: int, k: nat)
    requires k < |stakes| && ValidStakes(stakes[..k], count)
    requires stakes[k].amount <= 0 || !(0 <= stakes[k].outcome < count)
    ensures Settlements(w, stakes, winner, count) ==
              Err(if 0 <= winner < count && stakes[k].amount <= 0 then InvalidStake else InvalidOutcome)
  {
    FaultFree(stakes[..k], count);
    assert stakes[..k + 1][..k] == stakes[..k];
    FaultPersists(stakes, k + 1, count);
  }

  // ---------- the settlement laws ----------

  /** Nothing is created or lost: payments plus dust are the stakes, and dust is only rounding. */
  lemma {:induction false} SettlementConserves(stakes: seq<Stake>, winner: int, count: int)
    requires ValidStakes(stakes, count) && ValidOutcome(winner, count)
    ensures Settlements(Unbounded, stakes, winner, count) == Ok(Settled(Unbounded, stakes, winner))
    ensures var st, ws := Settled(Unbounded, stakes, winner), WinningStakes(stakes, winner);
            && SumBy(st.payouts, Paid()) + st.dust == Total(stakes)
            && (st.refunded <==> ws == [])
            && (if st.refunded then st.dust == 0 else 0 <= st.dust < |ws|)
            && SumBy(st.results, NetOf()) == -st.dust
  {
    FaultFree(stakes, count);
    PoolBounds(stakes, winner, count);
    var total, pool := Total(stakes), PoolOn(stakes, winner);
    var ps := Settled(Unbounded, stakes, winner).payouts;
    if pool == 0 {
      RefundsMatchStakes(stakes, "");
      RefundsAreForStakers(stakes);
    } else {
      FlooringLoss(stakes, winner, count, total, pool);
      DustFromLoss(total, SumBy(ps, Paid()), pool, |WinningStakes(stakes, winner)|);
      WinnersAreStakers(Unbounded, stakes, winner, total, pool);
    }
    ColumnsSum(stakes, ps);
  }

  lemma DustFromLoss(total: int, paid: int, pool: int, n: int)
    requires 0 < pool && 0 <= pool * total - paid * pool <= n * (pool - 1) && n > 0
    ensures 0 <= total - paid < n
  {
    assert pool * total - paid * pool == (total - paid) * pool;
    Scale(total - paid, -1, pool);
    Scale(n, total - paid, pool);
  }

  /** Each winning stake is paid its floored share of the total, never less than the stake. */
  lemma {:induction false} EachWinnerIsPaidFairly(stakes: seq<Stake>, winner: int, count: int, k: nat)
    requires ValidStakes(stakes, count) && k < |WinningStakes(stakes, winner)|
    ensures var st, s := Settled(Unbounded, stakes, winner), WinningStakes(stakes, winner)[k];
            && |st.payouts| == |WinningStakes(stakes, winner)| && st.payouts[k].user == s.user
            && FairShare(st.payouts[k].amount, s.amount, Total(stakes), PoolOn(stakes, winner))
  {
    PoolBounds(stakes, winner, count);
    var total, pool := Total(stakes), PoolOn(stakes, winner);
    WinningsAreShares(Unbounded, stakes, winner, total, pool);
    assert WinningStakes(stakes, winner)[k] in WinningStakes(stakes, winner);
    ShareIsFair(WinningStakes(stakes, winner)[k].amount, total, pool);
  }

  /** Every payment is positive, and there are no more of them than stakes. */
  lemma PaymentsArePositive(stakes: seq<Stake>, winner: int, count: int)
    requires ValidStakes(stakes, count)
    ensures var ps := Settled(Unbounded, stakes, winner).payouts;
            |ps| <= |stakes| && ForStakers(ps, stakes) && forall p :: p in ps ==> p.amount > 0
  {
    PoolBounds(stakes, winner, count);
    var total, pool := Total(stakes), PoolOn(stakes, winner);
    if pool == 0 {
      RefundsAreForStakers(stakes);
    } else {
      WinningsAreShares(Unbounded, stakes, winner, total, pool);
      WinnersAreStakers(Unbounded, stakes, winner, total, pool);
      FewerWinners(stakes, winner);
      forall k | 0 <= k < |WinningStakes(stakes, winner)|
        ensures Settled(Unbounded, stakes, winner).payouts[k].amount > 0
      {
        EachWinnerIsPaidFairly(stakes, winner, count, k);
        assert WinningStakes(stakes, winner)[k] in WinningStakes(stakes, winner);
      }
    }
  }

  lemma {:induction false} FewerWinners(stakes: seq<Stake>, winner: int)
    ensures |WinningStakes(stakes, winner)| <= |stakes|
  {
    if stakes != [] {
      FewerWinners(stakes[..|stakes| - 1], winner);
    }
  }

  // ---------- 64-bit arithmetic ----------

  /** No product of a winning stake with the total leaves the 64-bit range. */
  ghost predicate ProductsFit(stakes: seq<Stake>, winner: int, total: int)
  {
    forall s :: s in WinningStakes(stakes, winner) ==> s.amount * total <= MAX_INT64
  }

  lemma ShareFits(stake: int, total: int, pool: int)
    requires 0 < stake <= pool <= total <= MAX_INT64
    ensures Share(Int64, stake, total, pool) == Share(Unbounded, stake, total, pool)
            <==> stake * total <= MAX_INT64
  {
    ShareIsFair(stake, total, pool);
    var x := stake * total;
    assert x > 0;
    if x > MAX_INT64 {
      WrappedShareIsShort(x, pool);
      assert TruncDiv(Wrap(x), pool) < x / pool;
      WrappedQuotient(Wrap(x), pool);
    }
  }

  lemma WrappedQuotient(y: int, pool: int)
    requires MIN_INT64 <= y <= MAX_INT64 && pool > 0
    ensures Wrap(TruncDiv(y, pool)) == TruncDiv(y, pool)
  {
    var a := if y >= 0 then y else -y;
    var q := a / pool;
    assert q * pool <= a < q * pool + pool;
    Scale(q, -1, pool);
    Scale(1, pool, q);
  }

  /** Wrapping takes off at least 2^64, which is more than two pools, so the quotient drops. */
  lemma WrappedShareIsShort(x: int, pool: int)
    requires x > MAX_INT64 && 0 < pool <= MAX_INT64
    ensures TruncDiv(Wrap(x), pool) < x / pool
  {
    var y := Wrap(x);
    assert y <= x - 0x1_0000_0000_0000_0000 <= x - 2 * pool;
    assert y / pool <= (x - 2 * pool) / pool by { QuotientMonotone(y, x - 2 * pool, pool); }
    assert (x - 2 * pool) / pool == x / pool - 2 by { QuotientShift(x, pool); }
    assert TruncDiv(y, pool) <= y / pool + 1 by { TruncNearFloor(y, pool); }
  }

  lemma QuotientMonotone(a: int, b: int, p: int)
    requires p > 0 && a <= b
    ensures a / p <= b / p
  {
    Scale(b / p + 1, a / p, p);
  }

  lemma QuotientShift(x: int, p: int)
    requires p > 0
    ensures (x - 2 * p) / p == x / p - 2
  {
    var q := x / p;
    assert q * p <= x < q * p + p;
    assert (q - 2) * p == q * p - 2 * p;
    QuotientUnique(x - 2 * p, q - 2, p);
  }

  lemma QuotientUnique(x: int, q: int, p: int)
    requires p > 0 && q * p <= x < q * p + p
    ensures x / p == q
  {
    var d := x / p;
    Scale(d + 1, q, p);
    Scale(q + 1, d, p);
  }

  lemma TruncNearFloor(y: int, p: int)
    requires p > 0
    ensures TruncDiv(y, p) <= y / p + 1
  {
    if y < 0 {
      var q := (-y) / p;
      assert q * p <= -y < q * p + p;
      Scale(y / p + 1, -q - 1, p);
    }
  }

  lemma {:induction false} WinningsFit(stakes: seq<Stake>, winner: int, count: int, total: int, pool: int)
    requires ValidStakes(stakes, count) && 0 < pool <= total <= MAX_INT64 && PoolOn(stakes, winner) <= pool
    ensures Winnings(Int64, stakes, winner, total, pool) == Winnings(Unbounded, stakes, winner, total, pool)
            <==> ProductsFit(stakes, winner, total)
  {
    PoolBounds(stakes, winner, count);
    var a, b := Winnings(Int64, stakes, winner, total, pool), Winnings(Unbounded, stakes, winner, total, pool);
    var ws := WinningStakes(stakes, winner);
    WinningsAreShares(Int64, stakes, winner, total, pool);
    WinningsAreShares(Unbounded, stakes, winner, total, pool);
    forall k | 0 <= k < |ws| ensures a[k] == b[k] <==> ws[k].amount * total <= MAX_INT64 {
      assert ws[k] in ws;
      ShareFits(ws[k].amount, total, pool);
    }
    if a == b {
      forall s | s in ws ensures s.amount * total <= MAX_INT64 {
        var k :| 0 <= k < |ws| && ws[k] == s;
        assert a[k] == b[k];
      }
    }
  }

  lemma {:induction false} PaidToBounds(payouts: seq<Payment>, u: string)
    requires forall p :: p in payouts ==> p.amount >= 0
    ensures 0 <= SumBy(payouts, PaidTo(u)) <= SumBy(payouts, Paid())
  {
    if payouts != [] {
      PaidToBounds(payouts[..|payouts| - 1], u);
    }
  }

  lemma RowsFit(stakes: seq<Stake>, payouts: seq<Payment>, count: int)
    requires ValidStakes(stakes, count) && Total(stakes) <= MAX_INT64
    requires SumBy(payouts, Paid()) <= MAX_INT64 && forall p :: p in payouts ==> p.amount >= 0
    ensures Rows(Int64, stakes, payouts) == Rows(Unbounded, stakes, payouts)
  {
    forall u ensures Row(Int64, stakes, payouts, u) == Row(Unbounded, stakes, payouts, u) {
      PaidToBounds(payouts, u);
      PaidToBounds(Refunds(stakes), u);
      RefundsMatchStakes(stakes, u);
    }
  }

  /**
   * The code's 64-bit settlement is the exact one if and only if it refunds or the product of
   * every winning stake with the round total fits in 64 bits.
   */
  lemma MachineSettlementIsExact(stakes: seq<Stake>, winner: int, count: int)
    requires ValidStakes(stakes, count) && ValidOutcome(winner, count) && Total(stakes) <= MAX_INT64
    ensures Settlements(Int64, stakes, winner, count) == Settlements(Unbounded, stakes, winner, count)
            <==> ProductsFit(stakes, winner, Total(stakes))
  {
    FaultFree(stakes, count);
    PoolBounds(stakes, winner, count);
    SettlementConserves(stakes, winner, count);
    PaymentsArePositive(stakes, winner, count);
    var total, pool := Total(stakes), PoolOn(stakes, winner);
    var exact, machine := Settled(Unbounded, stakes, winner), Settled(Int64, stakes, winner);
    if pool != 0 {
      WinningsFit(stakes, winner, count, total, pool);
    }
    assert machine.payouts == exact.payouts <==> ProductsFit(stakes, winner, total);
    RowsFit(stakes, exact.payouts, count);
    PaidToBounds(exact.payouts, "");
  }

  /** A round total of at most 3,037,000,499 is always small enough. */
  lemma SmallTotalsFit(stakes: seq<Stake>, winner: int, count: int)
    requires ValidStakes(stakes, count) && ValidOutcome(winner, count) && Total(stakes) <= 3_037_000_499
    ensures Settlements(Int64, stakes, winner, count) == Settlements(Unbounded, stakes, winner, count)
  {
    PoolBounds(stakes, winner, count);
    var total := Total(stakes);
    forall s | s in WinningStakes(stakes, winner) ensures s.amount * total <= MAX_INT64 {
      Scale(s.amount, 3_037_000_499, total);
    }
    MachineSettlementIsExact(stakes, winner, count);
  }

  /** One token more and a lone winning stake already overflows. */
  lemma LargerTotalsNeedNot()
    ensures var stakes := [Stake("u", 0, 3_037_000_500)];
            Settlements(Int64, stakes, 0, 2) != Settlements(Unbounded, stakes, 0, 2)
  {
    var stakes := [Stake("u", 0, 3_037_000_500)];
    assert stakes[..0] == [];
    assert WinningStakes(stakes, 0) == [stakes[0]];
    MachineSettlementIsExact(stakes, 0, 2);
    assert stakes[0] in WinningStakes(stakes, 0);
  }
}
