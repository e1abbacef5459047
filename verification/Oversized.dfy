/**
 * A round with more players than a settlement message may list: it can come about, and a
 * pipeline that holds its settlement is never drained again unless a commit loses a message.
 * Players with names of different lengths join and bet one token each, one after the other; the
 * round is locked, and a refund call reads its stakes and applies.
 */
module Oversized {
  import opened Base
  import opened Payout
  import opened Stakes
  import opened Events
  import opened Store
  import opened Witness
  import opened KeyReuse
  import P = Pipeline
  import SL = StoreLaws
  import Recovery

  const ROOM := "r"
  const ROUND := "q"

  /** The players' names, all different. */
  function Name(i: nat): string
  {
    seq(i + 1, _ => 'x')
  }

  lemma NamesDiffer(i: nat, j: nat)
    ensures Name(i) == Name(j) <==> i == j
    ensures |Name(i)| > 0 && Name(i)[0] == 'x'
  {
    assert |Name(i)| == i + 1 && |Name(j)| == j + 1;
  }

  function OneTokenBy(i: nat): WagerRequest
  {
    WagerRequest(ROOM, ROUND, Name(i), 0, 1, Name(i))
  }

  /** One of the first `n` players. */
  ghost predicate Among(u: string, n: nat)
  {
    exists i: nat :: i < n && u == Name(i)
  }

  /** `n` players have joined and staked one token each, all on the same outcome. */
  ghost predicate Crowded(s: Store, n: nat)
  {
    && Reachable(s) && s.calls == map[] && s.forgotten == {} && RoomOf(s, ROOM).host == None
    && ROUND in s.rounds && s.rounds[ROUND].status == Open && s.rounds[ROUND].room == ROOM
    && s.rounds[ROUND].outcomeCount == 2
    && (forall u :: u in RoomOf(s, ROOM).wallets ==> Among(u, n))
    && (forall key :: key in s.idem ==> Among(key, n))
    && (forall i :: 0 <= i < |s.outbox| ==> Among(s.outbox[i].key, n))
    && (forall i: nat :: i < n ==> (Name(i), 0) in s.rounds[ROUND].wagers)
  }

  lemma EmptyTable()
    ensures Crowded(CreateRound(EMPTY, ROUND, ROOM, 2), 0)
  {
    EmptyIsReachable();
    OneMore(EMPTY, DoCreateRound(ROUND, ROOM, 2));
  }

  lemma AmongMore(u: string, n: nat)
    ensures Among(u, n) ==> Among(u, n + 1)
    ensures Among(Name(n), n + 1)
  {
  }

  lemma OneMoreJoins(s: Store, n: nat)
    requires Crowded(s, n)
    ensures Reachable(JoinRoom(s, ROOM, Name(n), 1)) && Takes(JoinRoom(s, ROOM, Name(n), 1), OneTokenBy(n), false)
    ensures Enabled(JoinRoom(s, ROOM, Name(n), 1), DoWager(OneTokenBy(n), false))
  {
    NamesDiffer(n, n);
    OneMore(s, DoJoin(ROOM, Name(n), 1));
  }

  lemma OneMoreBets(s: Store, n: nat)
    requires Crowded(s, n)
    ensures Crowded(Accept(JoinRoom(s, ROOM, Name(n), 1), OneTokenBy(n)).0, n + 1)
  {
    var s1 := JoinRoom(s, ROOM, Name(n), 1);
    OneMoreJoins(s, n);
    OneMore(s1, DoWager(OneTokenBy(n), false));
    forall u { AmongMore(u, n); }
  }

  ghost predicate CrowdIsPossible(n: nat)
  {
    exists s :: Crowded(s, n)
  }

  lemma CrowdGrows(n: nat)
    requires CrowdIsPossible(n)
    ensures CrowdIsPossible(n + 1)
  {
    var s :| Crowded(s, n);
    OneMoreBets(s, n);
  }

  lemma {:induction false} CrowdsCome(n: nat)
    ensures CrowdIsPossible(n)
  {
    if n == 0 {
      EmptyTable();
    } else {
      CrowdsCome(n - 1);
      CrowdGrows(n - 1);
    }
  }

  // ---------- refunding the round ----------

  lemma {:induction false} HasListing(w: Wagers)
    ensures exists read :: DistinctKeys(read) && forall s :: s in read <==> Key(s) in w && w[Key(s)] == s.amount
    decreases |w.Keys|
  {
    if w == map[] {
      assert DistinctKeys([]);
    } else {
      var k :| k in w;
      assert (w - {k}).Keys == w.Keys - {k};
      HasListing(w - {k});
      var read :| DistinctKeys(read) && forall s :: s in read <==> Key(s) in w - {k} && (w - {k})[Key(s)] == s.amount;
      var more := read + [Stake(k.0, k.1, w[k])];
      assert DistinctKeys(more) && forall s :: s in more <==> Key(s) in w && w[Key(s)] == s.amount;
    }
  }

  lemma CanBeListed(w: Wagers)
    ensures exists stakes :: Lists(stakes, w)
  {
    HasListing(w);
    var read :| DistinctKeys(read) && forall s :: s in read <==> Key(s) in w && w[Key(s)] == s.amount;
    SortKeeps(read);
    assert Lists(Sort(read), w);
  }

  lemma {:induction false} ManyNames(us: seq<string>, n: nat)
    requires forall i: nat :: i < n ==> Name(i) in us
    ensures |us| >= n
  {
    if n > 0 {
      var k :| 0 <= k < |us| && us[k] == Name(n - 1);
      var rest := us[..k] + us[k + 1..];
      forall i: nat | i < n - 1 ensures Name(i) in rest {
        NamesDiffer(i, n - 1);
        var j :| 0 <= j < |us| && us[j] == Name(i);
        assert j < k ==> rest[j] == us[j];
        assert j > k ==> rest[j - 1] == us[j];
      }
      ManyNames(rest, n - 1);
    }
  }

  /** Everybody is paid back, in a payout each. */
  lemma EverybodyIsPaid(stakes: seq<Stake>, w: Wagers, n: nat)
    requires Lists(stakes, w) && forall i: nat :: i < n ==> (Name(i), 0) in w
    ensures |Aggregate(stakes)| >= n
  {
    PlayersAreTheStakers(stakes);
    forall i: nat | i < n ensures Name(i) in Players(stakes) {
      var s := Stake(Name(i), 0, w[(Name(i), 0)]);
      assert s in stakes;
      var j :| 0 <= j < |stakes| && stakes[j] == s;
    }
    ManyNames(Players(stakes), n);
  }

  lemma FreshKey(s: Store, n: nat)
    requires Crowded(s, n)
    ensures "y" !in s.idem && !EventKey(s, "y")
  {
    forall i: nat ensures Name(i) != "y" { NamesDiffer(i, i); }
    assert !Among("y", n);
  }

  /** The round is locked, and a call to refund it has its stakes. */
  function Asked(s: Store, stakes: seq<Stake>): Store
    requires ROUND in s.rounds
  {
    Asking(s, ROUND, RefundAll, "y", HasStakes(ROOM, stakes))
  }

  lemma Refunding(s: Store, n: nat, stakes: seq<Stake>)
    requires Crowded(s, n) && n > MAX_PAYOUTS && Lists(stakes, s.rounds[ROUND].wagers)
    ensures var s' := Next(Asked(s, stakes), DoApply(0)); Reachable(s') && !Recovery.Postable(s'.outbox)
  {
    FreshKey(s, n);
    CanAsk(s, ROUND, RefundAll, "y", stakes);
    var a := Asked(s, stakes);
    OneMore(a, DoApply(0));
    EverybodyIsPaid(stakes, s.rounds[ROUND].wagers, n);
    var s' := Next(a, DoApply(0));
    var ev := s'.outbox[|s.outbox|];
    assert ev in s'.outbox && !P.SmallEnough(ev);
  }

  /** A run of the whole system that goes on from `states`; none of its commits loses a message. */
  ghost predicate Continues(hash: string -> nat, states: seq<P.System>, states': seq<P.System>, steps': seq<P.Step>)
  {
    P.Run(hash, states', steps') && P.LosesNothing(states', steps') && states <= states'
  }

  ghost predicate NeverDrained(states: seq<P.System>, from: nat)
  {
    forall n :: from <= n < |states| ==> !P.Drained(states[n])
  }

  /** A run of the whole system after which no state of any continuation is drained, whatever else happens in it. */
  ghost predicate CanGetStuck(hash: string -> nat)
  {
    exists states, steps, y :: CleanRun(hash, states, steps, y)
      && forall states', steps' :: Continues(hash, states, states', steps') ==> NeverDrained(states', |steps|)
  }

  /**
   * With more than MAX_PAYOUTS players in one round, its refund is appended to the outbox and can
   * never be posted.
   */
  lemma OversizedRoundsGetStuck(hash: string -> nat)
    ensures CanGetStuck(hash)
  {
    var n := MAX_PAYOUTS + 1;
    CrowdsCome(n);
    var s :| Crowded(s, n);
    CanBeListed(s.rounds[ROUND].wagers);
    var stakes :| Lists(stakes, s.rounds[ROUND].wagers);
    Refunding(s, n, stakes);
    StuckWith(hash, Next(Asked(s, stakes), DoApply(0)));
  }

  lemma {:induction false} OutboxOnlyGrows(hash: string -> nat, states: seq<P.System>, steps: seq<P.Step>, i: nat,
                                           n: nat)
    requires P.Run(hash, states, steps) && i <= n < |states|
    ensures states[i].store.outbox <= states[n].store.outbox
  {
    if i < n {
      OutboxOnlyGrows(hash, states, steps, i, n - 1);
      assert P.StepAt(hash, states, steps, n - 1);
      if steps[n - 1].StoreStep? { SL.OutboxGrows(states[n - 1].store, steps[n - 1].store); }
    }
  }

  lemma StaysStuck(hash: string -> nat, states: seq<P.System>, steps: seq<P.Step>, i: nat, n: nat)
    requires P.Run(hash, states, steps) && P.LosesNothing(states, steps) && i <= n < |states|
    requires !Recovery.Postable(states[i].store.outbox)
    ensures !P.Drained(states[n])
  {
    OutboxOnlyGrows(hash, states, steps, i, n);
    var ev :| ev in states[i].store.outbox && !P.SmallEnough(ev);
    assert ev in states[n].store.outbox;
    P.EveryStateIsOk(hash, states, steps, n);
    P.CommitsAreSafe(hash, states, steps, n);
    Recovery.OversizedStays(states[n]);
  }

  lemma StuckWith(hash: string -> nat, s: Store)
    requires Reachable(s) && !Recovery.Postable(s.outbox)
    ensures CanGetStuck(hash)
  {
    ReachableRun(hash, s);
    var states, steps :| CleanRun(hash, states, steps, Idle(s));
    forall states', steps' | Continues(hash, states, states', steps') ensures NeverDrained(states', |steps|) {
      assert states'[|steps|] == Idle(s);
      forall n | |steps| <= n < |states'| ensures !P.Drained(states'[n]) {
        StaysStuck(hash, states', steps', |steps|, n);
      }
    }
  }
}
