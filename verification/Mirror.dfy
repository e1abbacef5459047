/**
 * A socket fed by a run of the store: what the client shows of what the store holds, after every
 * event. For each kind of step a lemma says that the event it is announced by tells this user what
 * changed, or that nothing did; the greeting may come at any moment after the socket has joined.
 */
module Mirror {
  import opened Base
  import opened Payout
  import opened Stakes
  import opened Store
  import opened StoreInvariant
  import opened StoreSteps
  import opened StoreRuns
  import opened Broadcasts
  import C = Client

  // ---------- what a step tells one user's socket ----------

  function EndingEvent(c: Call): C.Event
    requires c.at.HasStakes?
  {
    match c.aim
    case SettleOn(winner) =>
      var st := Settled(Unbounded, c.at.stakes, winner);
      C.RoundResolved(c.round, winner, st.results, st.dust, st.refunded)
    case RefundAll => C.RoundRefunded(c.round, Total(c.at.stakes))
  }

  predicate Opens(step: Step, room: string)
  {
    step.DoCreateRound? && step.room == room && MIN_OUTCOMES <= step.count <= MAX_OUTCOMES
  }

  predicate Bets(s: Store, step: Step, room: string, me: string)
  {
    step.DoWager? && step.req.room == room && step.req.user == me && Takes(s, step.req, step.late)
  }

  ghost predicate Ends(s: Store, step: Step, room: string)
  {
    && step.DoApply? && Enabled(s, step) && s.calls[step.id].at.room == room
    && CompareAndSet(s, s.calls[step.id]).1 == Applied
  }

  /** The event that announces a step to the user, if one does. */
  ghost predicate Tells(s: Store, step: Step, room: string, me: string, e: Option<C.Event>)
    requires Enabled(s, step)
  {
    if Opens(step, room) then
      e.Some? && e.value.RoundOpened? && e.value.round == step.round && |e.value.outcomes| == step.count
    else if Bets(s, step, room, me) then
      e == Some(C.WagerAccepted(step.req.round, step.req.amount, Accept(s, step.req).1.balance))
    else if Ends(s, step, room) then e == Some(EndingEvent(s.calls[step.id]))
    else e == None
  }

  /** The store, the rounds opened since the user connected, and what the client shows. */
  datatype Feed = Feed(store: Store, round: Option<string>, rounds: set<string>, view: C.View)

  /** A step of the store with what it sends, the greeting, or a broadcast that says nothing new to this user. */
  datatype Move = StoreMove(step: Step, told: Option<C.Event>) | Greeting(e: C.Event) | OtherBroadcast(e: C.Event)

  /** Odds and lock announcements, and late broadcasts of earlier rounds. */
  predicate SaysNothing(f: Feed, e: C.Event)
  {
    match e
    case OddsUpdated(round, _, _, _, _) => round in f.rounds
    case RoundLocked(round) => round in f.rounds
    case RoundResolved(round, _, _, _, _) => round in f.rounds && f.round != Some(round)
    case RoundRefunded(round, _) => round in f.rounds && f.round != Some(round)
    case _ => false
  }

  ghost function View(f: Feed, room: string, me: string): C.Server
  {
    Seen(f.store, room, me, f.round, f.rounds)
  }

  /** A round only opens once the room's last one has ended, and the user's session is not ended. */
  ghost predicate Orderly(f: Feed, step: Step, room: string, me: string)
  {
    step != DoClear(room, me) && (Opens(step, room) ==> !View(f, room, me).live)
  }

  ghost predicate Moves(room: string, me: string, a: Feed, m: Move, b: Feed)
  {
    match m
    case StoreMove(step, told) =>
      && Enabled(a.store, step) && Orderly(a, step, room, me) && Tells(a.store, step, room, me, told)
      && b == Feed(Next(a.store, step), if Opens(step, room) then Some(step.round) else a.round,
                   if Opens(step, room) then a.rounds + {step.round} else a.rounds,
                   if told.Some? then C.Reduce(a.view, told.value) else a.view)
    case Greeting(e) =>
      C.Greets(me, View(a, room, me), e, View(b, room, me)) && b == a.(view := C.Reduce(a.view, e))
    case OtherBroadcast(e) => SaysNothing(a, e) && b == a.(view := C.Reduce(a.view, e))
  }

  /** All rounds of the room but the latest one have ended. */
  ghost predicate OthersEnded(s: Store, room: string, round: Option<string>)
  {
    forall id :: id in s.rounds && s.rounds[id].room == room && Some(id) != round ==> IsTerminal(s.rounds[id].status)
  }

  /** The user's socket joins the room between rounds, still showing some earlier balance. */
  ghost predicate Joins(room: string, me: string, f: Feed, shown: int)
  {
    && f.round == None && f.rounds == {} && OthersEnded(f.store, room, None) && me in RoomOf(f.store, room).wallets
    && f.view == C.Initial(shown)
  }

  // ---------- what every move keeps ----------

  ghost predicate Present(f: Feed, room: string, me: string)
  {
    && me in RoomOf(f.store, room).wallets && OthersEnded(f.store, room, f.round) && f.rounds <= f.store.rounds.Keys
    && (f.round.None? ==> f.rounds == {})
    && (f.round.Some? ==> f.round.value in f.rounds && f.store.rounds[f.round.value].room == room)
  }

  ghost predicate Same(s: Store, s': Store, room: string, me: string, round: Option<string>)
  {
    && Get(RoomOf(s', room).wallets, me) == Get(RoomOf(s, room).wallets, me)
    && (me in RoomOf(s, room).wallets ==> me in RoomOf(s', room).wallets)
    && s.rounds.Keys <= s'.rounds.Keys
    && (forall id :: id in s'.rounds && s'.rounds[id].room == room ==>
          id in s.rounds && s.rounds[id].room == room && s'.rounds[id].wagers == s.rounds[id].wagers
          && IsTerminal(s'.rounds[id].status) == IsTerminal(s.rounds[id].status))
    && (forall id :: id in s.rounds && s.rounds[id].room == room ==> id in s'.rounds && s'.rounds[id].room == room)
  }

  lemma OtherRoundOpens(f: Feed, step: Step, room: string, me: string)
    requires Present(f, room, me) && Enabled(f.store, step) && step.DoCreateRound? && !Opens(step, room)
    ensures Same(f.store, Next(f.store, step), room, me, f.round)
  {
  }

  lemma RoomStep(f: Feed, step: Step, room: string, me: string)
    requires Present(f, room, me) && Enabled(f.store, step) && step != DoClear(room, me)
    requires step.DoCreateRoom? || step.DoJoin? || step.DoClear?
    ensures Same(f.store, Next(f.store, step), room, me, f.round)
  {
  }

  lemma LockStep(f: Feed, id: string, room: string, me: string)
    requires Present(f, room, me)
    ensures Same(f.store, LockRound(f.store, id).0, room, me, f.round)
  {
  }

  /** Steps that announce nothing to the user change nothing the user sees. */
  lemma QuietStep(f: Feed, step: Step, room: string, me: string)
    requires Present(f, room, me) && Enabled(f.store, step) && step != DoClear(room, me)
    requires !step.DoWager? && !step.DoApply? && !Opens(step, room)
    ensures Same(f.store, Next(f.store, step), room, me, f.round)
  {
    if step.DoCreateRound? {
      OtherRoundOpens(f, step, room, me);
    } else if step.DoCreateRoom? || step.DoJoin? || step.DoClear? {
      RoomStep(f, step, room, me);
    } else if step.DoLock? {
      LockStep(f, step.round, room, me);
    } else {
      assert Next(f.store, step).rooms == f.store.rooms && Next(f.store, step).rounds == f.store.rounds;
    }
  }

  lemma BetElsewhere(f: Feed, req: WagerRequest, room: string, me: string)
    requires Present(f, room, me) && req.room != room && WagerFault(f.store, req, false).None?
    requires f.store.rounds[req.round].room == req.room
    ensures Same(f.store, Accept(f.store, req).0, room, me, f.round)
  {
  }

  lemma BetKeepsPresent(f: Feed, req: WagerRequest, room: string, me: string)
    requires Present(f, room, me) && WagerFault(f.store, req, false).None? && f.store.rounds[req.round].room == req.room
    ensures Present(f.(store := Accept(f.store, req).0), room, me)
  {
    var s' := Accept(f.store, req).0;
    assert me in RoomOf(s', room).wallets;
  }

  lemma EndIsOfLatest(f: Feed, c: Call, room: string, me: string)
    requires Present(f, room, me) && Ready(f.store, c) && c.at.room == room
    ensures f.round == Some(c.round)
  {
    assert !IsTerminal(f.store.rounds[c.round].status);
  }

  lemma EndElsewhere(f: Feed, c: Call, room: string, me: string)
    requires Present(f, room, me) && Ready(f.store, c) && c.at.room != room
    ensures Same(f.store, CompareAndSet(f.store, c).0, room, me, f.round)
  {
  }

  /** What a step must come to: the event it sends tells what changed, or nothing did. */
  ghost predicate Sent(room: string, me: string, f: Feed, told: Option<C.Event>, f': Feed)
  {
    && Present(f', room, me)
    && if told.Some? then C.Sends(me, View(f, room, me), told.value, View(f', room, me))
       else View(f', room, me) == View(f, room, me)
  }

  function Stepped(f: Feed, s': Store): Feed
  {
    f.(store := s')
  }

  lemma OpeningSends(f: Feed, step: Step, e: C.Event, room: string, me: string)
    requires Present(f, room, me) && Enabled(f.store, step) && Opens(step, room) && !View(f, room, me).live
    requires e.RoundOpened? && e.round == step.round && |e.outcomes| == step.count
    ensures Sent(room, me, f, Some(e), Feed(Next(f.store, step), Some(step.round), f.rounds + {step.round}, f.view))
  {
    OpeningIsSent(f.store, step.round, room, e.outcomes, me, f.round, f.rounds);
  }

  lemma BetSends(f: Feed, req: WagerRequest, room: string, me: string)
    requires Present(f, room, me) && WagerFault(f.store, req, false).None? && f.store.rounds[req.round].room == req.room
    ensures var told := if req.room == room && req.user == me
                        then Some(C.WagerAccepted(req.round, req.amount, Accept(f.store, req).1.balance)) else None;
            Sent(room, me, f, told, Stepped(f, Accept(f.store, req).0))
  {
    BetKeepsPresent(f, req, room, me);
    if req.room != room {
      BetElsewhere(f, req, room, me);
    } else {
      if req.user == me {
        OwnWagerIsSent(f.store, req, f.rounds);
      } else {
        OthersWagerIsNotSeen(f.store, req, me, f.rounds);
      }
    }
  }

  lemma EndKeepsPresent(f: Feed, c: Call, room: string, me: string)
    requires Present(f, room, me) && RoundsOk(f.store) && Ready(f.store, c)
    ensures Present(Stepped(f, CompareAndSet(f.store, c).0), room, me)
  {
    RoundEnds(f.store, c);
    PlansPayTheTotal(f.store, c);
    CreditEach(RoomOf(f.store, c.at.room).wallets, PlanFor(c.aim, c.at.stakes).payouts, me);
  }

  lemma EndSends(f: Feed, c: Call, room: string, me: string)
    requires Present(f, room, me) && RoundsOk(f.store) && Ready(f.store, c)
    ensures var told := if c.at.room == room then Some(EndingEvent(c)) else None;
            Sent(room, me, f, told, Stepped(f, CompareAndSet(f.store, c).0))
  {
    EndKeepsPresent(f, c, room, me);
    if c.at.room != room {
      EndElsewhere(f, c, room, me);
    } else {
      EndIsOfLatest(f, c, room, me);
      if c.aim.SettleOn? {
        RevealIsSent(f.store, c, me, f.rounds);
      } else {
        RefundIsSent(f.store, c, me, f.rounds);
      }
    }
  }

  /** Only rooms and rounds are seen. */
  lemma CallsAreUnseen(room: string, me: string, f: Feed, told: Option<C.Event>, s1: Store, s2: Store)
    requires Sent(room, me, f, told, Stepped(f, s1)) && s1.rooms == s2.rooms && s1.rounds == s2.rounds
    ensures Sent(room, me, f, told, Stepped(f, s2))
  {
  }

  lemma NothingSent(room: string, me: string, f: Feed, s': Store)
    requires Present(f, room, me) && s'.rooms == f.store.rooms && s'.rounds == f.store.rounds
    ensures Sent(room, me, f, None, Stepped(f, s'))
  {
  }

  lemma ApplySends(f: Feed, id: nat, told: Option<C.Event>, room: string, me: string)
    requires Present(f, room, me) && RoundsOk(f.store) && CallsOk(f.store) && Enabled(f.store, DoApply(id))
    requires Tells(f.store, DoApply(id), room, me, told)
    ensures Sent(room, me, f, told, Stepped(f, Next(f.store, DoApply(id))))
  {
    var c := f.store.calls[id];
    assert CallOk(f.store, c);
    var s' := Next(f.store, DoApply(id));
    if f.store.rounds[c.round].status == Locked {
      EndSends(f, c, room, me);
      CallsAreUnseen(room, me, f, told, CompareAndSet(f.store, c).0, s');
    } else {
      NothingSent(room, me, f, s');
    }
  }

  lemma WagerSends(f: Feed, req: WagerRequest, late: bool, told: Option<C.Event>, room: string, me: string)
    requires Present(f, room, me) && Enabled(f.store, DoWager(req, late))
             && Tells(f.store, DoWager(req, late), room, me, told)
    ensures Sent(room, me, f, told, Stepped(f, Next(f.store, DoWager(req, late))))
  {
    if Takes(f.store, req, late) {
      BetSends(f, req, room, me);
    } else {
      NothingSent(room, me, f, f.store);
    }
  }

  lemma MoveSends(room: string, me: string, f: Feed, step: Step, told: Option<C.Event>, f': Feed)
    requires Present(f, room, me) && RoundsOk(f.store) && CallsOk(f.store)
             && Moves(room, me, f, StoreMove(step, told), f')
    ensures Sent(room, me, f, told, f'.(view := f.view))
  {
    if Opens(step, room) {
      OpeningSends(f, step, told.value, room, me);
    } else if step.DoWager? {
      WagerSends(f, step.req, step.late, told, room, me);
    } else if step.DoApply? {
      ApplySends(f, step.id, told, room, me);
    } else {
      QuietStep(f, step, room, me);
    }
  }

  /** The client shows of the store what a client with such a greeting shows. */
  ghost predicate InStep(f: Feed, room: string, me: string, g: C.Greeting)
  {
    && Inv(f.store) && Present(f, room, me) && C.Shows(me, View(f, room, me), f.view, g)
  }

  /** Nobody is told of a wager before the greeting. */
  predicate NotYet(m: Move, g: C.Greeting)
  {
    g.Before? && m.StoreMove? && m.told.Some? ==> !m.told.value.WagerAccepted?
  }

  lemma StoreStays(room: string, me: string, f: Feed, m: Move, f': Feed)
    requires Inv(f.store) && Moves(room, me, f, m, f')
    ensures Inv(f'.store)
  {
    if m.StoreMove? { StepKeepsInv(f.store, m.step); }
  }

  lemma StoreMoveShows(room: string, me: string, f: Feed, step: Step, told: Option<C.Event>, f': Feed, g: C.Greeting)
    requires Present(f, room, me) && RoundsOk(f.store) && CallsOk(f.store) && C.Shows(me, View(f, room, me), f.view, g)
    requires Moves(room, me, f, StoreMove(step, told), f') && NotYet(StoreMove(step, told), g)
    ensures Present(f', room, me) && C.Shows(me, View(f', room, me), f'.view, g)
  {
    MoveSends(room, me, f, step, told, f');
    ViewShows(room, me, f, told, f', g);
  }

  lemma MoveKeepsInStep(room: string, me: string, f: Feed, m: Move, f': Feed, g: C.Greeting)
    requires InStep(f, room, me, g) && Moves(room, me, f, m, f') && !m.Greeting? && NotYet(m, g)
    ensures InStep(f', room, me, g)
  {
    StoreStays(room, me, f, m, f');
    if m.StoreMove? {
      StoreMoveShows(room, me, f, m.step, m.told, f', g);
    } else {
      C.StepShows(me, View(f, room, me), m.e, View(f, room, me), f.view, g);
    }
  }

  lemma ViewShows(room: string, me: string, f: Feed, told: Option<C.Event>, f': Feed, g: C.Greeting)
    requires Present(f, room, me) && C.Shows(me, View(f, room, me), f.view, g)
             && Sent(room, me, f, told, f'.(view := f.view))
    requires f'.view == if told.Some? then C.Reduce(f.view, told.value) else f.view
    requires told.Some? ==> !told.value.Connected? && (g.Before? ==> !told.value.WagerAccepted?)
    ensures Present(f', room, me) && C.Shows(me, View(f', room, me), f'.view, g)
  {
    if told.Some? {
      C.StepShows(me, View(f, room, me), told.value, View(f', room, me), f.view, g);
    }
  }

  /** A connection whose move `c` is the greeting. */
  ghost predicate Watched(room: string, me: string, feeds: seq<Feed>, moves: seq<Move>, c: nat, shown: int)
  {
    && |feeds| == |moves| + 1 && c < |moves| && Joins(room, me, feeds[0], shown)
    && forall i :: 0 <= i < |moves| ==>
         && Moves(room, me, feeds[i], moves[i], feeds[i + 1]) && (moves[i].Greeting? <==> i == c)
         && (i < c ==> NotYet(moves[i], C.Before(shown)))
  }

  ghost function GreetingAt(room: string, me: string, feeds: seq<Feed>, c: nat, shown: int, n: nat): C.Greeting
    requires c < |feeds|
  {
    C.GreetingAt(View(feeds[c], room, me), shown, c, n)
  }

  lemma GreetingKeepsInStep(room: string, me: string, f: Feed, e: C.Event, f': Feed, shown: int)
    requires InStep(f, room, me, C.Before(shown)) && Moves(room, me, f, Greeting(e), f')
    ensures InStep(f', room, me, C.After(C.Offset(View(f, room, me), shown)))
  {
    C.GreetingShows(me, View(f, room, me), e, View(f', room, me), f.view, shown);
  }

  lemma {:induction false} StaysInStep(room: string, me: string, feeds: seq<Feed>, moves: seq<Move>, c: nat, shown: int,
                                       n: nat)
    requires Watched(room, me, feeds, moves, c, shown) && Inv(feeds[0].store) && n < |feeds|
    ensures InStep(feeds[n], room, me, GreetingAt(room, me, feeds, c, shown, n))
  {
    if n > 0 {
      StaysInStep(room, me, feeds, moves, c, shown, n - 1);
      NextInStep(room, me, feeds, moves, c, shown, n - 1);
    }
  }

  lemma NextInStep(room: string, me: string, feeds: seq<Feed>, moves: seq<Move>, c: nat, shown: int, i: nat)
    requires Watched(room, me, feeds, moves, c, shown) && i < |moves|
    requires InStep(feeds[i], room, me, GreetingAt(room, me, feeds, c, shown, i))
    ensures InStep(feeds[i + 1], room, me, GreetingAt(room, me, feeds, c, shown, i + 1))
  {
    if i == c {
      GreetingKeepsInStep(room, me, feeds[c], moves[c].e, feeds[i + 1], shown);
    } else {
      MoveKeepsInStep(room, me, feeds[i], moves[i], feeds[i + 1], GreetingAt(room, me, feeds, c, shown, i));
    }
  }

  /**
   * For any run of the store, from any reachable moment at which the socket of a user with a wallet
   * joins the room between rounds, as long as rounds open one at a time and the user's session is
   * not ended: after every step and every event that follows the greeting, the stake shown is what
   * the user has in the latest round; and the balance shown is the user's wallet in Redis at all
   * times if the greeting came between rounds, or found shown what it brings. Otherwise it is off by
   * the difference whenever no round is on.
   */
  lemma ClientMirrorsStore(history: seq<Store>, trace: seq<Step>, room: string, me: string, feeds: seq<Feed>,
                           moves: seq<Move>, c: nat, shown: int, n: nat)
    requires Run(history, trace) && Watched(room, me, feeds, moves, c, shown) && feeds[0].store == history[|trace|]
    requires c < n < |feeds|
    ensures var f, off := feeds[n], C.Offset(View(feeds[c], room, me), shown);
            && me in RoomOf(f.store, room).wallets
            && (off == 0 ==> f.view.balance == RoomOf(f.store, room).wallets[me])
            && (!View(f, room, me).live ==> f.view.balance == RoomOf(f.store, room).wallets[me] + off)
            && f.view.round == f.round && (f.round.None? ==> f.view.myStake == 0)
            && (f.round.Some? ==> f.round.value in f.store.rounds
                                  && f.view.myStake == StakeIn(f.store.rounds[f.round.value].wagers, me))
  {
    EveryStateIsOk(history, trace, |trace|);
    StaysInStep(room, me, feeds, moves, c, shown, n);
  }
}
