/** The browser's reducer over socket events, and how it follows the server's wallet. */
module Client {
  import opened Base
  import opened Payout

  datatype Phase = Idle | Open | Locked | Revealed

  datatype Event =
    | Connected(user: string, host: bool, balance: int)
    | RoundOpened(round: string, outcomes: seq<string>)
    | OddsUpdated(round: string, pools: seq<int>, total: int, bettors: int, players: int)
    | RoundLocked(round: string)
    | WagerAccepted(round: string, amount: int, balance: int)
    | RoundResolved(round: string, winner: int, results: seq<PlayerResult>, dust: int, refunded: bool)
    | RoundRefunded(round: string, total: int)

  datatype View = View(
    phase: Phase, me: Option<string>, isHost: bool, round: Option<string>, outcomes: seq<string>,
    pools: seq<int>, total: int, bettors: int, players: int,
    balance: int, balanceAtOpen: Option<int>, myStake: int,
    results: Option<seq<PlayerResult>>, dust: int, refunded: bool, refundTotal: Option<int>, winner: Option<int>)

  function Initial(balance: int): View
  {
    View(Idle, None, false, None, [], [], 0, 0, 0, balance, None, 0, None, 0, false, None, None)
  }

  predicate IsStale(v: View, round: string)
  {
    v.round.Some? && round != v.round.value
  }

  /** The first row of the results that is the user's. */
  function FindRow(results: seq<PlayerResult>, user: Option<string>): Option<PlayerResult>
  {
    if results == [] then None
    else if user == Some(results[0].user) then Some(results[0])
    else FindRow(results[1..], user)
  }

  function NetOf(results: seq<PlayerResult>, user: Option<string>): int
  {
    var row := FindRow(results, user);
    if row.Some? then row.value.net else 0
  }

  function OrElse(x: Option<int>, y: int): int { if x.Some? then x.value else y }

  function Reduce(v: View, e: Event): View
  {
    match e
    case Connected(user, host, balance) => v.(me := Some(user), isHost := host, balance := balance)
    case RoundOpened(round, outcomes) =>
      v.(phase := Open, round := Some(round), outcomes := outcomes, pools := seq(|outcomes|, _ => 0), total := 0,
         bettors := 0, balanceAtOpen := Some(v.balance), myStake := 0, results := None, dust := 0, refunded := false,
         refundTotal := None, winner := None)
    case OddsUpdated(round, pools, total, bettors, players) =>
      if IsStale(v, round) then v else v.(pools := pools, total := total, bettors := bettors, players := players)
    case RoundLocked(round) => if IsStale(v, round) then v else v.(phase := Locked)
    case WagerAccepted(round, amount, balance) =>
      if IsStale(v, round) then v else v.(balance := balance, myStake := v.myStake + amount)
    case RoundResolved(round, winner, results, dust, refunded) =>
      if IsStale(v, round) then v else
      v.(phase := Revealed, results := Some(results), dust := dust, refunded := refunded,
         balance := OrElse(v.balanceAtOpen, v.balance) + NetOf(results, v.me), winner := Some(winner))
    case RoundRefunded(round, total) =>
      if IsStale(v, round) then v else
      v.(phase := Revealed, balance := OrElse(v.balanceAtOpen, v.balance), refunded := true, refundTotal := Some(total),
         results := None, winner := None)
  }

  function Replay(v: View, events: seq<Event>): View
  {
    if events == [] then v else Reduce(Replay(v, events[..|events| - 1]), events[|events| - 1])
  }

  // ---------- what is shown until when ----------

  predicate Opens(e: Event) { e.RoundOpened? }

  predicate Connects(e: Event) { e.Connected? }

  predicate SetsOdds(e: Event) { e.OddsUpdated? || e.RoundOpened? }

  predicate SetsResult(e: Event) { e.RoundOpened? || e.RoundResolved? || e.RoundRefunded? }

  predicate SetsPhase(e: Event) { SetsResult(e) || e.RoundLocked? }

  ghost predicate NoneOf(events: seq<Event>, kind: Event -> bool)
  {
    forall i :: 0 <= i < |events| ==> !kind(events[i])
  }

  /** What is still shown, if nothing of these kinds came in between. */
  predicate Keeps(v: View, w: View, greeted: bool, another: bool, odds: bool, result: bool, phase: bool)
  {
    && (!greeted ==> w.me == v.me && w.isHost == v.isHost)
    && (!another ==> w.outcomes == v.outcomes && w.round == v.round)
    && (!odds ==> w.pools == v.pools && w.total == v.total && w.bettors == v.bettors && w.players == v.players)
    && (!result ==> w.results == v.results && w.dust == v.dust && w.refunded == v.refunded
                    && w.refundTotal == v.refundTotal && w.winner == v.winner)
    && (!phase ==> w.phase == v.phase)
  }

  lemma EventKeeps(v: View, e: Event)
    ensures Keeps(v, Reduce(v, e), Connects(e), Opens(e), SetsOdds(e), SetsResult(e), SetsPhase(e))
  {
  }

  lemma NoneOfMore(events: seq<Event>, kind: Event -> bool)
    requires events != []
    ensures NoneOf(events, kind) <==> NoneOf(events[..|events| - 1], kind) && !kind(events[|events| - 1])
  {
  }

  lemma {:induction false} ShownFieldsStay(v: View, rest: seq<Event>)
    ensures Keeps(v, Replay(v, rest), !NoneOf(rest, Connects), !NoneOf(rest, Opens), !NoneOf(rest, SetsOdds),
                  !NoneOf(rest, SetsResult), !NoneOf(rest, SetsPhase))
  {
    if rest != [] {
      var n := |rest| - 1;
      ShownFieldsStay(v, rest[..n]);
      EventKeeps(Replay(v, rest[..n]), rest[n]);
      NoneOfMore(rest, Connects);
      NoneOfMore(rest, Opens);
      NoneOfMore(rest, SetsOdds);
      NoneOfMore(rest, SetsResult);
      NoneOfMore(rest, SetsPhase);
    }
  }

  /**
   * Whatever comes before and after: odds are shown until the next odds or the next round, an
   * opening's round until the next one, a result or a refund until the next or the next round, and
   * the phase is that of the last opening, lock, reveal or refund; stale events show nothing.
   */
  lemma LatestEventShows(v: View, e: Event, rest: seq<Event>)
    ensures var w := Replay(Reduce(v, e), rest);
            match e
            case Connected(user, host, _) => NoneOf(rest, Connects) ==> w.me == Some(user) && w.isHost == host
            case RoundOpened(round, outcomes) =>
              && (NoneOf(rest, Opens) ==> w.round == Some(round) && w.outcomes == outcomes)
              && (NoneOf(rest, SetsOdds) ==> w.total == 0 && w.bettors == 0 && |w.pools| == |outcomes|
                                             && forall o :: 0 <= o < |outcomes| ==> w.pools[o] == 0)
              && (NoneOf(rest, SetsResult) ==> w.results == None && w.winner == None && w.refundTotal == None
                                               && w.dust == 0 && !w.refunded)
              && (NoneOf(rest, SetsPhase) ==> w.phase == Open)
            case OddsUpdated(round, pools, total, bettors, players) =>
              !IsStale(v, round) && NoneOf(rest, SetsOdds) ==>
                w.pools == pools && w.total == total && w.bettors == bettors && w.players == players
            case RoundLocked(round) => !IsStale(v, round) && NoneOf(rest, SetsPhase) ==> w.phase == Locked
            case WagerAccepted(_, _, _) => true
            case RoundResolved(round, winner, results, dust, refunded) =>
              && (!IsStale(v, round) && NoneOf(rest, SetsResult) ==>
                    w.results == Some(results) && w.winner == Some(winner) && w.dust == dust && w.refunded == refunded)
              && (!IsStale(v, round) && NoneOf(rest, SetsPhase) ==> w.phase == Revealed)
            case RoundRefunded(round, total) =>
              && (!IsStale(v, round) && NoneOf(rest, SetsResult) ==>
                    w.refunded && w.refundTotal == Some(total) && w.results == None && w.winner == None)
              && (!IsStale(v, round) && NoneOf(rest, SetsPhase) ==> w.phase == Revealed)
  {
    ShownFieldsStay(Reduce(v, e), rest);
  }

  // ---------- the server, as far as one user sees it ----------

  /** The user's wallet, the room's latest round, and the user's tokens in it. */
  datatype Server = Server(wallet: int, round: Option<string>, stake: int, live: bool, rounds: set<string>)

  /** The reveal that settling these stakes produces, and what it credits to the user. */
  ghost predicate Reveals(me: string, stakes: seq<Stake>, winner: int, results: seq<PlayerResult>, paid: int)
  {
    var st := Settled(Unbounded, stakes, winner);
    results == st.results && paid == SumBy(st.payouts, PaidTo(me))
  }

  ghost predicate Settles(me: string, stake: int, results: seq<PlayerResult>, paid: int)
  {
    exists stakes, winner :: SumBy(stakes, By(me)) == stake && Reveals(me, stakes, winner, results, paid)
  }

  /**
   * What the server did when it sent `e`. Broadcasts of earlier rounds seen on this connection may
   * come late; new rounds only open when the last one is over, and a connection starts then too.
   */
  ghost predicate Sends(me: string, a: Server, e: Event, b: Server)
  {
    match e
    case Connected(user, _, balance) => user == me && balance == a.wallet && !a.live && b == a
    case RoundOpened(round, _) =>
      !a.live && round !in a.rounds && b == Server(a.wallet, Some(round), 0, true, a.rounds + {round})
    case OddsUpdated(round, _, _, _, _) => round in a.rounds && b == a
    case RoundLocked(round) => round in a.rounds && b == a
    case WagerAccepted(round, amount, balance) =>
      a.live && a.round == Some(round) && 0 < amount <= a.wallet && balance == a.wallet - amount
      && b == a.(wallet := balance, stake := a.stake + amount)
    case RoundResolved(round, _, results, _, _) =>
      if a.round == Some(round)
      then a.live && exists paid :: Settles(me, a.stake, results, paid)
                                    && b == a.(wallet := a.wallet + paid, live := false)
      else round in a.rounds && b == a
    case RoundRefunded(round, _) =>
      if a.round == Some(round) then a.live && b == a.(wallet := a.wallet + a.stake, live := false)
      else round in a.rounds && b == a
  }

  /** The client shows what the server holds. */
  ghost predicate Mirrors(me: string, s: Server, v: View)
  {
    && v.me == Some(me) && v.balance == s.wallet && v.round == s.round && v.myStake == s.stake
    && (s.live ==> s.round.Some? && v.balanceAtOpen == Some(s.wallet + s.stake))
  }

  lemma {:induction false} FindInRows(w: Width, stakes: seq<Stake>, payouts: seq<Payment>, rows: seq<PlayerResult>,
                                      from: nat, me: string)
    requires rows == Rows(w, stakes, payouts) && from <= |rows|
    ensures FindRow(rows[from..], Some(me)) ==
              if me in Players(stakes)[from..] then Some(Row(w, stakes, payouts, me)) else None
    decreases |rows| - from
  {
    if from < |rows| {
      FindInRows(w, stakes, payouts, rows, from + 1, me);
      assert rows[from..][1..] == rows[from + 1..];
      assert Players(stakes)[from..] == [Players(stakes)[from]] + Players(stakes)[from + 1..];
    }
  }

  /** The net a player is shown is what the settlement pays them less what they staked. */
  lemma ShownNetIsPaidLessStaked(me: string, stake: int, results: seq<PlayerResult>, paid: int)
    requires Settles(me, stake, results, paid)
    ensures NetOf(results, Some(me)) == paid - stake
  {
    var stakes, winner :| SumBy(stakes, By(me)) == stake && Reveals(me, stakes, winner, results, paid);
    var st := Settled(Unbounded, stakes, winner);
    FindInRows(Unbounded, stakes, st.payouts, results, 0, me);
    assert results[0..] == results && Players(stakes)[0..] == Players(stakes);
    if me !in Players(stakes) {
      NotAStaker(stakes, me);
      RefundsAreForStakers(stakes);
      if !st.refunded { WinnersAreStakers(Unbounded, stakes, winner, Total(stakes), PoolOn(stakes, winner)); }
      NotPaid(st.payouts, me);
    }
  }

  lemma {:induction false} NotPaid(payouts: seq<Payment>, me: string)
    requires forall p :: p in payouts ==> p.user != me
    ensures SumBy(payouts, PaidTo(me)) == 0
  {
    if payouts != [] {
      assert payouts[|payouts| - 1] in payouts;
      NotPaid(payouts[..|payouts| - 1], me);
    }
  }

  lemma StepMirrors(me: string, a: Server, e: Event, b: Server, v: View)
    requires Sends(me, a, e, b) && Mirrors(me, a, v)
    requires a.round.Some? ==> a.round.value in a.rounds
    requires a.round.None? ==> a.rounds == {}
    ensures Mirrors(me, b, Reduce(v, e)) && (b.round.Some? ==> b.round.value in b.rounds)
            && (b.round.None? ==> b.rounds == {})
  {
    if e.RoundResolved? && a.round == Some(e.round) {
      var paid :| Settles(me, a.stake, e.results, paid) && b == a.(wallet := a.wallet + paid, live := false);
      ShownNetIsPaidLessStaked(me, a.stake, e.results, paid);
    }
  }

  /** A run of the server that starts between rounds, and the events it sends on one connection. */
  ghost predicate Session(me: string, servers: seq<Server>, events: seq<Event>)
  {
    && |servers| == |events| + 1 && |events| > 0 && events[0].Connected?
    && servers[0].round == None && servers[0].stake == 0 && !servers[0].live && servers[0].rounds == {}
    && forall i :: 0 <= i < |events| ==> Sends(me, servers[i], events[i], servers[i + 1])
  }

  lemma {:induction false} MirrorHolds(me: string, servers: seq<Server>, events: seq<Event>, shown: int, n: nat)
    requires Session(me, servers, events) && 0 < n <= |events|
    ensures Mirrors(me, servers[n], Replay(Initial(shown), events[..n]))
    ensures servers[n].round.Some? ==> servers[n].round.value in servers[n].rounds
    ensures servers[n].round.None? ==> servers[n].rounds == {}
  {
    assert events[..n][..n - 1] == events[..n - 1];
    if n == 1 {
      assert events[..0] == [];
    } else {
      MirrorHolds(me, servers, events, shown, n - 1);
      StepMirrors(me, servers[n - 1], events[n - 1], servers[n], Replay(Initial(shown), events[..n - 1]));
    }
  }

  /**
   * For a connection that starts between rounds, after every event: the balance shown is the
   * server's wallet, and the stake shown is what the user has in the latest round. Broadcasts of
   * other rounds change nothing at all.
   */
  lemma ClientMirrorsServer(me: string, servers: seq<Server>, events: seq<Event>, shown: int, n: nat)
    requires Session(me, servers, events) && 0 < n <= |events|
    ensures var v := Replay(Initial(shown), events[..n]);
            && v.balance == servers[n].wallet && v.myStake == servers[n].stake && v.round == servers[n].round
            && forall e: Event :: !e.Connected? && !e.RoundOpened? && v.round.Some? && e.round != v.round.value ==>
                 Reduce(v, e) == v
  {
    MirrorHolds(me, servers, events, shown, n);
  }

  // ---------- where the mirror breaks ----------

  /**
   * A reveal that arrives right after connecting, for a round whose payout the connection's
   * balance already included, is counted twice: the balance stays right if and only if the user's
   * net was zero.
   */
  lemma LateRevealIff(me: string, v: View, round: string, winner: int, results: seq<PlayerResult>, dust: int,
                      refunded: bool, stake: int, paid: int)
    requires v.round == None && v.balanceAtOpen == None && v.me == Some(me) && Settles(me, stake, results, paid)
    ensures Reduce(v, RoundResolved(round, winner, results, dust, refunded)).balance == v.balance <==> paid == stake
  {
    ShownNetIsPaidLessStaked(me, stake, results, paid);
  }

  /**
   * A connection made in the middle of a round never saw it open: the end of that round leaves
   * the balance right if and only if the user had nothing in it.
   */
  lemma MidRoundConnectIff(me: string, v: View, round: string, winner: int, results: seq<PlayerResult>, dust: int,
                           refunded: bool, stake: int, paid: int, total: int)
    requires v.round == None && v.balanceAtOpen == None && v.me == Some(me) && Settles(me, stake, results, paid)
    ensures Reduce(v, RoundResolved(round, winner, results, dust, refunded)).balance == v.balance + paid <==> stake == 0
    ensures Reduce(v, RoundRefunded(round, total)).balance == v.balance + stake <==> stake == 0
  {
    ShownNetIsPaidLessStaked(me, stake, results, paid);
  }

  // ---------- replayed wagers ----------

  /** A replayed key is acknowledged like a wager, with the cached balance, and changes nothing on the server. */
  ghost predicate Echoes(a: Server, e: Event, b: Server)
  {
    e.WagerAccepted? && a.live && a.round == Some(e.round) && e.amount > 0 && b == a
  }

  /** A session in which `echo` marks the acknowledgements that are of replays. */
  ghost predicate EchoingSession(me: string, servers: seq<Server>, events: seq<Event>, echo: seq<bool>)
  {
    && |servers| == |events| + 1 && |echo| == |events| > 0 && events[0].Connected? && !echo[0]
    && servers[0].round == None && servers[0].stake == 0 && !servers[0].live && servers[0].rounds == {}
    && forall i :: 0 <= i < |events| ==>
         if echo[i]
         then Echoes(servers[i], events[i], servers[i + 1])
         else Sends(me, servers[i], events[i], servers[i + 1])
  }

  /** What replays were acknowledged for since the latest round opened. */
  function Echoed(events: seq<Event>, echo: seq<bool>): int
    requires |events| == |echo|
  {
    if events == [] then 0 else
    var n := |events| - 1;
    if events[n].RoundOpened? then 0
    else Echoed(events[..n], echo[..n]) + if echo[n] && events[n].WagerAccepted? then events[n].amount else 0
  }

  /** The latest round opened before the last replay was acknowledged. */
  predicate EchoedSinceOpening(events: seq<Event>, echo: seq<bool>)
    requires |events| == |echo|
  {
    events != [] && !events[|events| - 1].RoundOpened?
    && (echo[|events| - 1] || EchoedSinceOpening(events[..|events| - 1], echo[..|events| - 1]))
  }

  /** The stake shown is off by `extra`, and between rounds the balance by `off`. */
  ghost predicate MirrorsBut(me: string, s: Server, v: View, extra: int, off: int)
  {
    && v.me == Some(me) && v.round == s.round && v.myStake == s.stake + extra
    && (s.live ==> s.round.Some? && v.balanceAtOpen == Some(s.wallet + s.stake + off))
    && (!s.live ==> v.balance == s.wallet + off)
    && (s.round.Some? ==> s.round.value in s.rounds) && (s.round.None? ==> s.rounds == {})
  }

  lemma StepMirrorsBut(me: string, a: Server, e: Event, b: Server, v: View, extra: int, off: int)
    requires Sends(me, a, e, b) && MirrorsBut(me, a, v, extra, off) && (e.Connected? ==> off == 0)
    ensures MirrorsBut(me, b, Reduce(v, e), if e.RoundOpened? then 0 else extra, off)
  {
    if e.RoundResolved? && a.round == Some(e.round) {
      var paid :| Settles(me, a.stake, e.results, paid) && b == a.(wallet := a.wallet + paid, live := false);
      ShownNetIsPaidLessStaked(me, a.stake, e.results, paid);
    }
  }

  lemma {:induction false} EchoesAddUp(me: string, servers: seq<Server>, events: seq<Event>, echo: seq<bool>,
                                       shown: int, n: nat)
    requires EchoingSession(me, servers, events, echo) && 0 < n <= |events|
    ensures MirrorsBut(me, servers[n], Replay(Initial(shown), events[..n]), Echoed(events[..n], echo[..n]), 0)
    ensures Echoed(events[..n], echo[..n]) >= 0
    ensures Echoed(events[..n], echo[..n]) == 0 <==> !EchoedSinceOpening(events[..n], echo[..n])
  {
    assert events[..n][..n - 1] == events[..n - 1] && echo[..n][..n - 1] == echo[..n - 1];
    if n == 1 {
      assert events[..0] == [];
    } else {
      EchoesAddUp(me, servers, events, echo, shown, n - 1);
      if !echo[n - 1] {
        StepMirrorsBut(me, servers[n - 1], events[n - 1], servers[n], Replay(Initial(shown), events[..n - 1]),
                       Echoed(events[..n - 1], echo[..n - 1]), 0);
      }
    }
  }

  /**
   * A replayed wager is added to the stake shown a second time: the stake is the server's if and
   * only if no replay was acknowledged since the round opened. The balance is the wallet again as
   * soon as the round has ended.
   */
  lemma ReplaysShowInTheStake(me: string, servers: seq<Server>, events: seq<Event>, echo: seq<bool>, shown: int, n: nat)
    requires EchoingSession(me, servers, events, echo) && 0 < n <= |events|
    ensures var v := Replay(Initial(shown), events[..n]);
            && (v.myStake == servers[n].stake <==> !EchoedSinceOpening(events[..n], echo[..n]))
            && (!servers[n].live ==> v.balance == servers[n].wallet)
  {
    EchoesAddUp(me, servers, events, echo, shown, n);
  }

  // ---------- rounds that open before the connection is greeted ----------

  /** The connected event reports the wallet, whatever the round is doing. */
  ghost predicate Greets(me: string, a: Server, e: Event, b: Server)
  {
    e.Connected? && e.user == me && e.balance == a.wallet && b == a
  }

  /**
   * A socket joins its room before it is greeted, so broadcasts may come first: the first `c`
   * events, none of which is about a wager of this connection.
   */
  ghost predicate GreetedSession(me: string, servers: seq<Server>, events: seq<Event>, c: nat)
  {
    && |servers| == |events| + 1 && c < |events| && Greets(me, servers[c], events[c], servers[c + 1])
    && servers[0].round == None && servers[0].stake == 0 && !servers[0].live && servers[0].rounds == {}
    && (forall i :: 0 <= i < |events| && i != c ==>
          Sends(me, servers[i], events[i], servers[i + 1]) && !events[i].Connected?)
    && forall i :: 0 <= i < c ==> !events[i].WagerAccepted?
  }

  /** Before the greeting the client shows what it started with, and opens rounds with that. */
  ghost predicate Ungreeted(s: Server, v: View, shown: int)
  {
    && v.me == None && v.balance == shown && v.round == s.round && v.myStake == s.stake == 0
    && (v.balanceAtOpen.Some? ==> v.balanceAtOpen == Some(shown)) && (s.live ==> s.round.Some? && v.balanceAtOpen.Some?)
    && (s.round.Some? ==> s.round.value in s.rounds) && (s.round.None? ==> s.rounds == {})
  }

  lemma {:induction false} NobodyIsNoRow(results: seq<PlayerResult>)
    ensures NetOf(results, None) == 0
  {
    if results != [] { NobodyIsNoRow(results[1..]); }
  }

  /** How far the client is off: what it showed at the opening, when the greeting came in mid-round. */
  function Offset(greeted: Server, shown: int): int
  {
    if greeted.live then shown - greeted.wallet else 0
  }

  /** Whether the greeting has come, and with what offset. */
  datatype Greeting = Before(shown: int) | After(off: int)

  ghost predicate Shows(me: string, s: Server, v: View, g: Greeting)
  {
    match g
    case Before(shown) => Ungreeted(s, v, shown)
    case After(off) => MirrorsBut(me, s, v, 0, off) && (off == 0 ==> Mirrors(me, s, v))
  }

  lemma UngreetedStep(me: string, a: Server, e: Event, b: Server, v: View, shown: int)
    requires Sends(me, a, e, b) && !e.Connected? && !e.WagerAccepted? && Ungreeted(a, v, shown)
    ensures Ungreeted(b, Reduce(v, e), shown)
  {
    if e.RoundResolved? { NobodyIsNoRow(e.results); }
  }

  lemma StepShows(me: string, a: Server, e: Event, b: Server, v: View, g: Greeting)
    requires Sends(me, a, e, b) && !e.Connected? && (g.Before? ==> !e.WagerAccepted?) && Shows(me, a, v, g)
    ensures Shows(me, b, Reduce(v, e), g)
  {
    match g
    case Before(shown) => UngreetedStep(me, a, e, b, v, shown);
    case After(off) =>
      StepMirrorsBut(me, a, e, b, v, 0, off);
      if off == 0 { StepMirrors(me, a, e, b, v); }
  }

  lemma GreetingShows(me: string, a: Server, e: Event, b: Server, v: View, shown: int)
    requires Greets(me, a, e, b) && Ungreeted(a, v, shown)
    ensures Shows(me, b, Reduce(v, e), After(Offset(a, shown)))
  {
  }

  /** Where event `c` of a connection is the greeting, sent by `greeted`: the client after `n` events. */
  function GreetingAt(greeted: Server, shown: int, c: nat, n: nat): Greeting
  {
    if n <= c then Before(shown) else After(Offset(greeted, shown))
  }

  lemma {:induction false} GreetedHolds(me: string, servers: seq<Server>, events: seq<Event>, c: nat, shown: int,
                                        n: nat)
    requires GreetedSession(me, servers, events, c) && n <= |events|
    ensures Shows(me, servers[n], Replay(Initial(shown), events[..n]), GreetingAt(servers[c], shown, c, n))
  {
    if n > 0 {
      assert events[..n][..n - 1] == events[..n - 1];
      GreetedHolds(me, servers, events, c, shown, n - 1);
      var v := Replay(Initial(shown), events[..n - 1]);
      if n - 1 == c {
        GreetingShows(me, servers[c], events[c], servers[c + 1], v, shown);
      } else {
        StepShows(me, servers[n - 1], events[n - 1], servers[n], v, GreetingAt(servers[c], shown, c, n - 1));
      }
    }
  }

  /**
   * When the greeting comes in the middle of a round that opened before it, the client has kept the
   * balance it showed at the opening for the end of the round: between rounds, from then on, the
   * balance is right if and only if what it showed was the wallet, and otherwise off by that much.
   */
  lemma EarlyOpeningIff(me: string, servers: seq<Server>, events: seq<Event>, c: nat, shown: int, n: nat)
    requires GreetedSession(me, servers, events, c) && c < n <= |events|
    ensures var v := Replay(Initial(shown), events[..n]);
            && v.myStake == servers[n].stake
            && (!servers[n].live ==>
                  && (v.balance == servers[n].wallet <==> (servers[c].live ==> shown == servers[c].wallet))
                  && (servers[c].live ==> v.balance - servers[n].wallet == shown - servers[c].wallet))
  {
    GreetedHolds(me, servers, events, c, shown, n);
  }
}
