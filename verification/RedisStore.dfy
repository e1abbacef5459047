/**
 * The store as its callers use it: hashes changed in place by one script at a time, and settle
 * and refund calls made of three commands with the rest of the system running in between.
 */
module RedisStore {
  import opened Base
  import opened Payout
  import opened PayoutLaws
  import opened Stakes
  import opened Events
  import opened Store
  import S = Store
  import opened StoreInvariant
  import opened StoreRuns
  import opened StoreLaws
  import opened Answers

  /** `history` and `trace` are a run of the store's transition system that ends in `s`. */
  ghost predicate Traced(history: seq<Store>, trace: seq<Step>, s: Store)
  {
    Run(history, trace) && history[|trace|] == s
  }

  lemma TraceStep(history: seq<Store>, trace: seq<Step>, s: Store, step: Step)
    requires Traced(history, trace, s) && Enabled(s, step)
    ensures Traced(history + [Next(s, step)], trace + [step], Next(s, step))
  {
  }

  class RedisStore {
    var rooms: map<string, Room>
    var rounds: map<string, Round>
    var idem: map<string, Reply>
    var outbox: seq<Event>
    ghost var forgotten: set<string>
    ghost var calls: map<nat, Call>
    ghost var history: seq<Store>
    ghost var trace: seq<Step>
    /** Every settlement and refund so far was one that 64-bit arithmetic gets exactly right. */
    ghost var exact: bool

    ghost function State(): Store
      reads this
    {
      S.Store(rooms, rounds, idem, forgotten, outbox, calls)
    }

    ghost predicate Valid()
      reads this
    {
      exact ==> Traced(history, trace, State())
    }

    constructor ()
      ensures Valid() && exact && State() == EMPTY && trace == []
    {
      rooms, rounds, idem, outbox := map[], map[], map[], [];
      forgotten, calls, history, trace, exact := {}, map[], [EMPTY], [], true;
    }

    /** Book one atomic command as a step of the run. */
    ghost method Record(before: Store, step: Step)
      requires exact ==> Traced(history, trace, before) && Enabled(before, step) && State() == Next(before, step)
      modifies this`history, this`trace
      ensures Valid() && history == old(history) + [State()] && trace == old(trace) + [step]
    {
      if exact { TraceStep(history, trace, before, step); }
      history, trace := history + [State()], trace + [step];
    }

    // ---------- one-command operations ----------

    /** The wallet and the opening stake are written only if they are not there yet. */
    static method SetIfAbsent(room: Room, user: string, balance: int) returns (r: Room)
      ensures r == Seed(room, user, balance) && r.host == room.host
      ensures r.wallets == room.wallets[user := if user in room.wallets then room.wallets[user] else balance]
      ensures r.opening == room.opening[user := if user in room.opening then room.opening[user] else balance]
    {
      r := room;
      if user !in r.wallets {
        r := r.(wallets := r.wallets[user := balance]);
        r := r.(granted := Bump(r.granted, user, balance), grants := r.grants + [balance]);
      }
      if user !in r.opening {
        r := r.(opening := r.opening[user := balance]);
      }
    }

    method JoinRoom(id: string, user: string, balance: int) returns (effective: Option<int>)
      requires Valid() && id != "" && user != ""
      modifies this
      ensures Valid() && exact == old(exact) && trace == old(trace) + [DoJoin(id, user, balance)]
      ensures State() == S.JoinRoom(old(State()), id, user, balance)
      ensures effective.None? <==> balance <= 0
      ensures effective.Some? ==>
                && id in rooms && rooms == old(rooms)[id := rooms[id]]
                && SatDown(RoomOf(old(State()), id), rooms[id], user, balance, effective.value)
      ensures effective.None? ==> rooms == old(rooms)
    {
      ghost var before := State();
      effective := None;
      if balance > 0 {
        var room := SetIfAbsent(if id in rooms then rooms[id] else NO_ROOM, user, balance);
        rooms := rooms[id := room];
        effective := Some(room.wallets[user]);
      }
      Record(before, DoJoin(id, user, balance));
    }

    /** Whoever deletes the opening stake has claimed the session. */
    method ClearSession(id: string, user: string) returns (claimed: bool)
      requires Valid()
      modifies this
      ensures Valid() && exact == old(exact) && trace == old(trace) + [DoClear(id, user)]
      ensures (State(), claimed) == S.ClearSession(old(State()), id, user)
      ensures claimed <==> id in old(rooms) && user in old(rooms)[id].opening
      ensures id in rooms && var a, b := RoomOf(old(State()), id), rooms[id];
                             && b.wallets == a.wallets - {user} && b.opening == a.opening - {user}
                             && b.host == a.host && rooms == old(rooms)[id := b]
    {
      ghost var before := State();
      var room := if id in rooms then rooms[id] else NO_ROOM;
      claimed := user in room.opening;
      room := room.(opening := room.opening - {user});
      room := room.(wallets := room.wallets - {user}, cleared := room.cleared + {user},
                    withdrawn := Bump(room.withdrawn, user, Get(room.wallets, user)));
      rooms := rooms[id := room];
      Record(before, DoClear(id, user));
    }

    method CreateRound(id: string, room: string, outcomes: int) returns (ok: bool)
      requires Valid() && id != "" && room != "" && id !in rounds
      modifies this
      ensures Valid() && exact == old(exact) && trace == old(trace) + [DoCreateRound(id, room, outcomes)]
      ensures State() == S.CreateRound(old(State()), id, room, outcomes)
      ensures ok <==> 2 <= outcomes <= 4
      ensures ok ==> && id in rounds && rounds == old(rounds)[id := rounds[id]]
                     && var q := rounds[id];
                        && q.room == room && q.status == Open && q.outcomeCount == outcomes && q.resolvedOutcome == None
                        && q.total == 0 && q.wagers == map[] && q.bettors == {}
                        && forall o :: 0 <= o < outcomes ==> o in q.pools && q.pools[o] == 0
      ensures !ok ==> rounds == old(rounds)
    {
      ghost var before := State();
      ok := MIN_OUTCOMES <= outcomes <= MAX_OUTCOMES;
      if ok {
        var pools: map<int, int> := map[];
        for i := 0 to outcomes
          invariant pools == ZeroPools(i)
        {
          pools := pools[i := 0];
        }
        rounds := rounds[id := Round(room, Open, outcomes, pools, 0, map[], {}, None)];
      }
      Record(before, DoCreateRound(id, room, outcomes));
    }

    method LockRound(id: string) returns (reply: LockReply)
      requires Valid()
      modifies this
      ensures Valid() && exact == old(exact) && trace == old(trace) + [DoLock(id)]
      ensures (State(), reply) == S.LockRound(old(State()), id) && history == old(history) + [State()]
      ensures reply == LockedNow <==> id in old(rounds) && old(rounds)[id].status == Open
      ensures reply == AlreadyLocked <==> id in old(rounds) && old(rounds)[id].status == Locked
      ensures rounds ==
                if reply == LockedNow then old(rounds)[id := old(rounds)[id].(status := Locked)] else old(rounds)
    {
      ghost var before := State();
      if id in rounds && rounds[id].status == Locked {
        reply := AlreadyLocked;
      } else if id !in rounds || rounds[id].status != Open {
        reply := RoundTerminal;
      } else {
        rounds := rounds[id := rounds[id].(status := Locked)];
        reply := LockedNow;
      }
      Record(before, DoLock(id));
    }

    // ---------- wagers ----------

    /** The guards of the wager script, in order. */
    method Guard(req: WagerRequest, late: bool) returns (fault: Option<WagerError>)
      ensures fault == WagerFault(State(), req, late)
      ensures fault.None?
         <==> && req.amount > 0 && req.round in rounds && rounds[req.round].status == Open && !late
              && 0 <= req.outcome < rounds[req.round].outcomeCount
              && req.room in rooms && rooms[req.room].host != Some(req.user)
              && req.user in rooms[req.room].wallets && rooms[req.room].wallets[req.user] >= req.amount
    {
      if req.amount <= 0 {
        return Some(BadStake);
      }
      if req.round !in rounds || rounds[req.round].status != Open || late {
        return Some(PoolLocked);
      }
      if req.outcome < 0 || req.outcome >= rounds[req.round].outcomeCount {
        return Some(BadOutcome);
      }
      var room := if req.room in rooms then rooms[req.room] else NO_ROOM;
      if room.host == Some(req.user) {
        return Some(HostCannotBet);
      }
      if req.user !in room.wallets {
        return Some(NotInRoom);
      }
      fault := if room.wallets[req.user] < req.amount then Some(InsufficientFunds) else None;
    }

    /** The outcome pools in index order, as the reply lists them. */
    method ListPools(round: Round) returns (pools: seq<int>)
      ensures pools == PoolList(round)
    {
      pools := [];
      var i := 0;
      while i < round.outcomeCount
        invariant |pools| == i && (i <= round.outcomeCount || i == 0)
        invariant forall j :: 0 <= j < i ==> pools[j] == Get(round.pools, j)
      {
        pools := pools + [Get(round.pools, i)];
        i := i + 1;
      }
    }

    /** Debit, pools, wager, bettors and outbox, one hash after the other. */
    method Apply(req: WagerRequest) returns (reply: Reply)
      requires WagerFault(State(), req, false).None?
      modifies this`rooms, this`rounds, this`idem, this`outbox
      ensures (State(), reply) == Accept(old(State()), req)
    {
      var room := rooms[req.room];
      room := room.(wallets := Bump(room.wallets, req.user, -req.amount));
      var round := rounds[req.round];
      round := round.(pools := Bump(round.pools, req.outcome, req.amount));
      round := round.(total := round.total + req.amount);
      round := round.(wagers := Bump(round.wagers, (req.user, req.outcome), req.amount));
      round := round.(bettors := round.bettors + {req.user});
      var balance := room.wallets[req.user];
      var pools := ListPools(round);
      reply := Reply(balance, |round.bettors|, round.total, pools);
      rooms := rooms[req.room := room];
      rounds := rounds[req.round := round];
      outbox := outbox + [WagerPlaced(req.room, req.round, req.user, req.key, req.outcome, req.amount, balance)];
      idem := idem[req.key := reply];
    }

    /** A replayed key gets the cached reply; otherwise the guards, then the wager. */
    method PlaceWager(req: WagerRequest, late: bool) returns (r: Result<Reply, WagerError>)
      requires Valid() && Enabled(State(), DoWager(req, late))
      modifies this
      ensures Valid() && exact == old(exact) && trace == old(trace) + [DoWager(req, late)]
      ensures (State(), r) == S.PlaceWager(old(State()), req, late)
    {
      ghost var before := State();
      if req.key in idem {
        r := Ok(idem[req.key]);
      } else {
        var fault := Guard(req, late);
        if fault.Some? {
          r := Err(fault.value);
        } else {
          var reply := Apply(req);
          r := Ok(reply);
        }
      }
      Record(before, DoWager(req, late));
    }

    // ---------- settling and refunding ----------

    /** Whatever the rest of the system does between two commands of a call. */
    method Others(ghost call: nat)
      requires Valid() && call in calls
      modifies this
      ensures Valid() && call in calls && calls[call] == old(calls[call])
      ensures exact == old(exact) && old(history) <= history && old(trace) <= trace
    {
    }

    /** The same before a call has begun: its fresh identifier and key stay unused. */
    method OthersBefore(ghost call: nat, ghost aim: Aim, id: string, key: string)
      requires Valid() && Enabled(State(), DoBegin(call, aim, id, key))
      modifies this
      ensures Valid() && Enabled(State(), DoBegin(call, aim, id, key))
      ensures exact == old(exact) && old(history) <= history && old(trace) <= trace
    {
    }

    ghost method Begin(call: nat, aim: Aim, id: string, key: string)
      requires Valid() && Enabled(State(), DoBegin(call, aim, id, key))
      modifies this`calls, this`history, this`trace
      ensures Valid() && history == old(history) + [State()] && trace == old(trace) + [DoBegin(call, aim, id, key)]
      ensures call in calls && calls[call] == Call(aim, id, key, Started)
    {
      var before := State();
      calls := calls[call := Call(aim, id, key, Started)];
      Record(before, DoBegin(call, aim, id, key));
    }

    /** The first read of a call: the round's hash, which decides whether to go on. */
    method ReadRound(ghost call: nat, id: string) returns (at: Progress)
      requires Valid() && call in calls && calls[call].at.Started? && calls[call].round == id
      modifies this`calls, this`history, this`trace
      ensures Valid() && history == old(history) + [State()] && trace == old(trace) + [DoReadStatus(call)]
      ensures State() == Next(old(State()), DoReadStatus(call)) && at == AfterStatusRead(old(State()), id)
    {
      ghost var before := State();
      if id !in rounds {
        at := Done(NoRound);
      } else {
        var round := rounds[id];
        match round.status {
          case Resolved => at := Done(AlreadySettled);
          case Refunded => at := Done(AlreadySettled);
          case Locked => at := SawLocked(round.room, round.outcomeCount);
          case Open => at := Done(NotLocked);
        }
      }
      calls := calls[call := calls[call].(at := at)];
      Record(before, DoReadStatus(call));
    }

    /** Read the wagers hash in whatever order it comes, and sort. */
    method ListWagers(wagers: Wagers) returns (stakes: seq<Stake>)
      ensures Lists(stakes, wagers)
    {
      var rest := wagers.Keys;
      var read: seq<Stake> := [];
      while rest != {}
        invariant rest <= wagers.Keys && DistinctKeys(read)
        invariant forall s :: s in read <==> Key(s) in wagers.Keys - rest && wagers[Key(s)] == s.amount
        decreases |rest|
      {
        var k :| k in rest;
        read := read + [Stake(k.0, k.1, wagers[k])];
        rest := rest - {k};
      }
      SortKeeps(read);
      stakes := Sort(read);
    }

    /** The second read of a call. */
    method ReadStakes(ghost call: nat, id: string) returns (stakes: seq<Stake>)
      requires Valid() && call in calls && calls[call].at.SawLocked? && calls[call].round == id
      modifies this`calls, this`history, this`trace
      ensures Valid() && history == old(history) + [State()] && trace == old(trace) + [DoReadStakes(call, stakes)]
      ensures Enabled(old(State()), DoReadStakes(call, stakes))
      ensures State() == Next(old(State()), DoReadStakes(call, stakes))
      ensures rounds == old(rounds) && exact == old(exact)
      ensures Lists(stakes, if id in rounds then rounds[id].wagers else map[])
      ensures calls[call] == old(calls[call]).(at := AfterStakesRead(old(calls[call]), stakes))
    {
      ghost var before := State();
      stakes := ListWagers(if id in rounds then rounds[id].wagers else map[]);
      calls := calls[call := calls[call].(at := AfterStakesRead(calls[call], stakes))];
      Record(before, DoReadStakes(call, stakes));
    }

    /** The settle and refund scripts: check the status, credit, set the status, append. */
    method RunScript(id: string, room: string, key: string, total: int, plan: Plan) returns (result: CallResult)
      modifies this`rooms, this`rounds, this`outbox
      ensures (State(), result) == ApplyPlan(old(State()), id, room, key, total, plan)
      ensures result == Applied ==> Ended(rounds, id, plan.refund, plan.winner)
    {
      if id in rounds && (rounds[id].status == Resolved || rounds[id].status == Refunded) {
        return AlreadySettled;
      }
      if id !in rounds || rounds[id].status != Locked {
        return NotLocked;
      }
      var hash := if room in rooms then rooms[room] else NO_ROOM;
      var wallets := hash.wallets;
      for i := 0 to |plan.payouts|
        invariant wallets == CreditAll(hash.wallets, plan.payouts[..i])
      {
        assert plan.payouts[..i + 1][..i] == plan.payouts[..i];
        wallets := Bump(wallets, plan.payouts[i].user, plan.payouts[i].amount);
      }
      assert plan.payouts[..|plan.payouts|] == plan.payouts;
      rooms := rooms[room := hash.(wallets := wallets)];
      var outcome := if plan.refund then None else Some(plan.winner);
      rounds := rounds[id := rounds[id].(
        status := if plan.refund then Refunded else Resolved, resolvedOutcome := outcome)];
      outbox := outbox + [RoundSettled(room, id, key, plan.winner, total, plan.dust, plan.payouts, plan.refund)];
      result := Applied;
    }

    /** The last command of a call, with the plan it computed. */
    method Finish(ghost call: nat, id: string, room: string, key: string, total: int, plan: Plan,
                  ghost stakes: seq<Stake>)
      returns (result: CallResult)
      requires Valid() && call in calls && calls[call] == Call(calls[call].aim, id, key, HasStakes(room, stakes))
      requires exact ==> total == Total(stakes) && plan == PlanFor(calls[call].aim, stakes)
      modifies this
      ensures Valid() && exact == old(exact)
      ensures history == old(history) + [State()] && trace == old(trace) + [DoApply(call)]
      ensures exact ==> (var (s, r) := CompareAndSet(old(State()), old(calls[call]));
                         State() == Advance(s, call, Done(r)) && result == r)
      ensures call in calls && calls[call].at == Done(result)
      ensures result == Applied ==> Ended(rounds, id, plan.refund, plan.winner)
    {
      ghost var before := State();
      ghost var c := calls[call];
      result := RunScript(id, room, key, total, plan);
      calls := calls[call := c.(at := Done(result))];
      Record(before, DoApply(call));
    }

    /** The sum of the stakes, as the machine adds it up. */
    static method AddUp(stakes: seq<Stake>) returns (total: int)
      ensures total == Wrap(Total(stakes))
    {
      total := 0;
      for i := 0 to |stakes|
        invariant total == Wrap(Total(stakes[..i]))
      {
        assert stakes[..i + 1] == stakes[..i] + [stakes[i]];
        total := Wrap(total + stakes[i].amount);
      }
      assert stakes[..|stakes|] == stakes;
    }

    /** Begin a call and read its round. */
    method Look(ghost call: nat, aim: Aim, id: string, key: string) returns (at: Progress)
      requires Valid() && Enabled(State(), DoBegin(call, aim, id, key))
      modifies this
      ensures Valid() && exact == old(exact) && old(history) <= history && old(trace) <= trace
      ensures (at.SawLocked? || at.Done?) && call in calls && calls[call] == Call(aim, id, key, at)
      ensures exact && at.Done? ==> Refused(State(), aim, id, at.result)
    {
      Begin(call, aim, id, key);
      Others(call);
      at := ReadRound(call, id);
      if at.SawLocked? {
        Others(call);
      }
    }

    /** Run the script with the plan made from `stakes`. */
    method Conclude(ghost call: nat, id: string, room: string, key: string, total: int, plan: Plan,
                    ghost stakes: seq<Stake>)
      returns (result: CallResult)
      requires Valid() && call in calls && calls[call] == Call(calls[call].aim, id, key, HasStakes(room, stakes))
      requires exact ==> total == Total(stakes) && plan == PlanFor(calls[call].aim, stakes)
      modifies this
      ensures Valid() && exact == old(exact) && old(history) <= history && old(trace) <= trace
      ensures call in calls && calls[call].at == Done(result)
      ensures result == Applied ==> Ended(rounds, id, plan.refund, plan.winner)
      ensures exact && result == Applied ==> EndedBy(history, trace, call, old(calls[call]).aim, id, key)
                                             && StakesOf(history, trace, call) == stakes
      ensures exact && result != Applied ==> Refused(State(), old(calls[call]).aim, id, result)
    {
      Others(call);
      ghost var before := State();
      if exact { WhatApplyMeans(history, trace, before, call); }
      result := Finish(call, id, room, key, total, plan, stakes);
    }

    /** Settle the stakes; what fits 64 bits comes out as in exact arithmetic. */
    static method Compute(stakes: seq<Stake>, winner: int, count: int)
      returns (r: Result<Settlement, CallResult>, total: int, plan: Plan)
      ensures r.Err? <==> Settlements(Unbounded, stakes, winner, count).Err?
      ensures r.Err? ==> r.error == SettleFailed
      ensures r.Ok? ==> plan.refund == r.value.refunded && (!plan.refund ==> plan.winner == winner)
      ensures r.Ok? && Exact64(stakes, winner) ==>
                && r.value == Settled(Unbounded, stakes, winner)
                && total == Total(stakes) && plan == PlanFor(SettleOn(winner), stakes)
    {
      total, plan := 0, Plan([], 0, true, -1);
      var settled := Settle(stakes, winner, count);
      if settled.Err? {
        return Err(SettleFailed), total, plan;
      }
      total := AddUp(stakes);
      plan := PlanOf(settled.value, winner);
      if Exact64(stakes, winner) { FittingPlansAreExact(stakes, winner, count, total, plan); }
      r := Ok(settled.value);
    }

    /**
     * Settle a round while anything else goes on. Success means that this very call ended the
     * round, with the settlement of the wagers it held at that moment; each error names the state
     * the round was found in.
     */
    method SettleRound(ghost call: nat, id: string, winner: int, key: string)
      returns (r: Result<Settlement, CallResult>)
      requires Valid() && Enabled(State(), DoBegin(call, SettleOn(winner), id, key))
      modifies this
      ensures Valid() && old(history) <= history && old(trace) <= trace && (exact ==> old(exact))
      ensures old(exact) && !exact ==> exists n :: Spoils(history, trace, n, SettleOn(winner), id)
      ensures call in calls && calls[call].at == Done(if r.Ok? then Applied else r.error)
      ensures r.Ok? ==> Ended(rounds, id, r.value.refunded, winner)
      ensures exact && r.Ok? ==> SettledBy(history, trace, call, id, key, winner, r.value)
      ensures exact && r.Err? ==> Refused(State(), SettleOn(winner), id, r.error)
    {
      var at := Look(call, SettleOn(winner), id, key);
      if at.Done? {
        return Err(at.result);
      }
      r := SettleSeen(call, id, winner, key, at);
    }

    /** The rest of a settle call that has found its round locked. */
    method SettleSeen(ghost call: nat, id: string, winner: int, key: string, at: Progress)
      returns (r: Result<Settlement, CallResult>)
      requires Valid() && at.SawLocked? && call in calls && calls[call] == Call(SettleOn(winner), id, key, at)
      modifies this
      ensures Valid() && old(history) <= history && old(trace) <= trace && (exact ==> old(exact))
      ensures old(exact) && !exact ==> exists n :: Spoils(history, trace, n, SettleOn(winner), id)
      ensures call in calls && calls[call].at == Done(if r.Ok? then Applied else r.error)
      ensures r.Ok? ==> Ended(rounds, id, r.value.refunded, winner)
      ensures exact && r.Ok? ==> SettledBy(history, trace, call, id, key, winner, r.value)
      ensures exact && r.Err? ==> Refused(State(), SettleOn(winner), id, r.error)
    {
      ghost var h, t, seen := history, trace, State();
      var stakes := ReadStakes(call, id);
      var settled, total, plan := Compute(stakes, winner, at.count);
      if exact { TracedCall(h, t, seen, call); }
      if settled.Err? {
        if exact { FailureIsTheOutcome(h, t, seen, State(), stakes, call, winner); }
        return settled;
      }
      r := SettleWith(call, id, winner, key, at.room, stakes, settled.value, total, plan);
    }

    /** The end of a settle call that has computed its settlement. */
    method SettleWith(ghost call: nat, id: string, winner: int, key: string, room: string, ghost stakes: seq<Stake>,
                      settled: Settlement, total: int, plan: Plan) returns (r: Result<Settlement, CallResult>)
      requires Valid() && call in calls && calls[call] == Call(SettleOn(winner), id, key, HasStakes(room, stakes))
      requires exact ==> id in rounds && Lists(stakes, rounds[id].wagers)
      requires plan.refund == settled.refunded && (!plan.refund ==> plan.winner == winner)
      requires Exact64(stakes, winner) ==>
                 && settled == Settled(Unbounded, stakes, winner)
                 && total == Total(stakes) && plan == PlanFor(SettleOn(winner), stakes)
      modifies this
      ensures Valid() && old(history) <= history && old(trace) <= trace && (exact ==> old(exact))
      ensures old(exact) && !exact ==> exists n :: Spoils(history, trace, n, SettleOn(winner), id)
      ensures call in calls && calls[call].at == Done(if r.Ok? then Applied else r.error)
      ensures r.Ok? ==> Ended(rounds, id, r.value.refunded, winner)
      ensures exact && r.Ok? ==> SettledBy(history, trace, call, id, key, winner, r.value)
      ensures exact && r.Err? ==> Refused(State(), SettleOn(winner), id, r.error)
    {
      CheckWidth(SettleOn(winner), id, stakes);
      ghost var h, t := history, trace;
      var result := Conclude(call, id, room, key, total, plan, stakes);
      if old(exact) && !exact { StaysSpoiled(h, t, history, trace, |h| - 1, SettleOn(winner), id); }
      r := if result == Applied then Ok(settled) else Err(result);
      if exact && r.Ok? { SettlesAsAsked(history, trace, State(), call, id, key, winner, settled); }
    }

    /** Note whether 64-bit arithmetic is exact on what the round holds. */
    ghost method CheckWidth(aim: Aim, id: string, stakes: seq<Stake>)
      requires Valid() && (exact ==> id in rounds && Lists(stakes, rounds[id].wagers))
      modifies this`exact
      ensures Valid() && exact == (old(exact) && Narrows(aim, stakes))
      ensures old(exact) && !exact ==> |history| > 0 && Spoils(history, trace, |history| - 1, aim, id)
    {
      if exact {
        assert history[..|history|] == history && trace[..|trace|] == trace;
      }
      exact := exact && Narrows(aim, stakes);
    }

    /** Refund a round while anything else goes on; the amount returned is what was staked. */
    method RefundRound(ghost call: nat, id: string, key: string) returns (r: Result<int, CallResult>)
      requires Valid() && Enabled(State(), DoBegin(call, RefundAll, id, key))
      modifies this
      ensures Valid() && old(history) <= history && old(trace) <= trace && (exact ==> old(exact))
      ensures old(exact) && !exact ==> exists n :: Spoils(history, trace, n, RefundAll, id)
      ensures call in calls && calls[call].at == Done(if r.Ok? then Applied else r.error)
      ensures r.Ok? ==> Ended(rounds, id, true, -1)
      ensures exact && r.Ok? ==> RefundedBy(history, trace, call, id, key, r.value)
      ensures exact && r.Err? ==> Refused(State(), RefundAll, id, r.error)
    {
      var at := Look(call, RefundAll, id, key);
      if at.Done? {
        return Err(at.result);
      }
      r := RefundSeen(call, id, key, at);
    }

    /** The rest of a refund call that has found its round locked. */
    method RefundSeen(ghost call: nat, id: string, key: string, at: Progress) returns (r: Result<int, CallResult>)
      requires Valid() && at.SawLocked? && call in calls && calls[call] == Call(RefundAll, id, key, at)
      modifies this
      ensures Valid() && old(history) <= history && old(trace) <= trace && (exact ==> old(exact))
      ensures old(exact) && !exact ==> exists n :: Spoils(history, trace, n, RefundAll, id)
      ensures call in calls && calls[call].at == Done(if r.Ok? then Applied else r.error)
      ensures r.Ok? ==> Ended(rounds, id, true, -1)
      ensures exact && r.Ok? ==> RefundedBy(history, trace, call, id, key, r.value)
      ensures exact && r.Err? ==> Refused(State(), RefundAll, id, r.error)
    {
      ghost var h, t, seen := history, trace, State();
      if exact { TracedCall(h, t, seen, call); }
      var stakes := ReadStakes(call, id);
      var payouts, total := AggregateStakes(stakes);
      r := RefundWith(call, id, key, at.room, stakes, payouts, total);
    }

    /** The end of a refund call that has added up what everybody staked. */
    method RefundWith(ghost call: nat, id: string, key: string, room: string, ghost stakes: seq<Stake>,
                      payouts: seq<Payment>, total: int) returns (r: Result<int, CallResult>)
      requires Valid() && call in calls && calls[call] == Call(RefundAll, id, key, HasStakes(room, stakes))
      requires exact ==> id in rounds && Lists(stakes, rounds[id].wagers)
      requires payouts == Narrow(Aggregate(stakes)) && total == Wrap(Total(stakes))
      modifies this
      ensures Valid() && old(history) <= history && old(trace) <= trace && (exact ==> old(exact))
      ensures old(exact) && !exact ==> exists n :: Spoils(history, trace, n, RefundAll, id)
      ensures call in calls && calls[call].at == Done(if r.Ok? then Applied else r.error)
      ensures r.Ok? ==> Ended(rounds, id, true, -1)
      ensures exact && r.Ok? ==> RefundedBy(history, trace, call, id, key, r.value)
      ensures exact && r.Err? ==> Refused(State(), RefundAll, id, r.error)
    {
      CheckWidth(RefundAll, id, stakes);
      ghost var h, t := history, trace;
      if exact { SmallRefund(history, trace, State(), stakes, call); }
      var result := Conclude(call, id, room, key, total, Plan(payouts, 0, true, -1), stakes);
      if old(exact) && !exact { StaysSpoiled(h, t, history, trace, |h| - 1, RefundAll, id); }
      r := if result == Applied then Ok(total) else Err(result);
    }
  }

  /** The wallet and the opening stake are there, as they were or as given, and nothing else has changed. */
  predicate SatDown(before: Room, after: Room, user: string, balance: int, effective: int)
  {
    && after.wallets == before.wallets[user := if user in before.wallets then before.wallets[user] else balance]
    && after.opening == before.opening[user := if user in before.opening then before.opening[user] else balance]
    && after.host == before.host && effective == after.wallets[user]
  }

  /** The round's hash says how it ended. */
  predicate Ended(rounds: map<string, Round>, id: string, refunded: bool, winner: int)
  {
    && id in rounds && rounds[id].status == (if refunded then Refunded else Resolved)
    && rounds[id].resolvedOutcome == (if refunded then None else Some(winner))
  }

  /** At one moment of the run the round held wagers that 64-bit arithmetic does not settle, or refund, exactly. */
  ghost predicate Spoils(history: seq<Store>, trace: seq<Step>, n: nat, aim: Aim, id: string)
  {
    && n < |history| && n <= |trace| && Traced(history[..n + 1], trace[..n], history[n]) && id in history[n].rounds
    && exists stakes :: Lists(stakes, history[n].rounds[id].wagers) && !Narrows(aim, stakes)
  }

  lemma StaysSpoiled(history: seq<Store>, trace: seq<Step>, history': seq<Store>, trace': seq<Step>, n: nat, aim: Aim,
                     id: string)
    requires Spoils(history, trace, n, aim, id) && history <= history' && trace <= trace'
    ensures Spoils(history', trace', n, aim, id)
  {
    assert history'[..n + 1] == history[..n + 1] && trace'[..n] == trace[..n];
  }

  /** What 64-bit arithmetic does exactly. */
  ghost predicate Narrows(aim: Aim, stakes: seq<Stake>)
  {
    match aim
    case SettleOn(winner) => Exact64(stakes, winner)
    case RefundAll => Total(stakes) <= MAX_INT64
  }

  /** A settlement that ended its round was a refund exactly if nobody had a wager on the winner. */
  lemma SettlesAsAsked(history: seq<Store>, trace: seq<Step>, s: Store, call: nat, id: string, key: string, winner: int,
                       st: Settlement)
    requires Traced(history, trace, s) && EndedBy(history, trace, call, SettleOn(winner), id, key)
    requires st == Settled(Unbounded, StakesOf(history, trace, call), winner)
    requires Ended(s.rounds, id, st.refunded, winner)
    ensures SettledBy(history, trace, call, id, key, winner, st)
  {
    EndsAsAsked(history, trace, |trace| - 1);
  }

  /** The last step of the run is `call` ending round `id` from the wagers it holds. */
  ghost predicate EndedBy(history: seq<Store>, trace: seq<Step>, call: nat, aim: Aim, id: string, key: string)
  {
    && |trace| > 0 && |history| == |trace| + 1 && trace[|trace| - 1] == DoApply(call)
    && var s := history[|trace| - 1];
       && Applies(s, DoApply(call)) && s.calls[call] == Call(aim, id, key, s.calls[call].at)
       && id in s.rounds && Lists(s.calls[call].at.stakes, s.rounds[id].wagers)
  }

  /** The last step is `call` settling round `id`, and this is the settlement of the wagers it held then. */
  ghost predicate SettledBy(history: seq<Store>, trace: seq<Step>, call: nat, id: string, key: string, winner: int,
                            st: Settlement)
  {
    && EndedBy(history, trace, call, SettleOn(winner), id, key)
    && st == Settled(Unbounded, StakesOf(history, trace, call), winner)
    && (st.refunded <==> Unbacked(history[|trace| - 1].rounds[id].wagers, winner))
  }

  /** The last step is `call` refunding round `id`, which then held so many tokens. */
  ghost predicate RefundedBy(history: seq<Store>, trace: seq<Step>, call: nat, id: string, key: string, total: int)
  {
    EndedBy(history, trace, call, RefundAll, id, key) && total == Total(StakesOf(history, trace, call))
  }

  ghost function StakesOf(history: seq<Store>, trace: seq<Step>, call: nat): seq<Stake>
    requires |trace| > 0 && |history| == |trace| + 1 && Applies(history[|trace| - 1], DoApply(call))
  {
    history[|trace| - 1].calls[call].at.stakes
  }

  /** What a call that did nothing found. */
  ghost predicate Refused(s: Store, aim: Aim, id: string, e: CallResult)
  {
    match e
    case AlreadySettled => id in s.rounds && IsTerminal(s.rounds[id].status)
    case NotLocked => id in s.rounds && s.rounds[id].status == Open
    case NoRound => id !in s.rounds
    case SettleFailed => aim.SettleOn? && id in s.rounds && !ValidOutcome(aim.winner, s.rounds[id].outcomeCount)
    case Applied => false
  }

  lemma TracedCall(history: seq<Store>, trace: seq<Step>, s: Store, call: nat)
    requires Traced(history, trace, s) && call in s.calls
    ensures CallOk(s, s.calls[call]) && RoundsOk(s)
  {
    EveryStateIsOk(history, trace, |trace|);
  }

  /** What 64-bit arithmetic settles exactly. */
  ghost predicate Exact64(stakes: seq<Stake>, winner: int)
  {
    Total(stakes) <= MAX_INT64 && ProductsFit(stakes, winner, Total(stakes))
  }

  function PlanOf(st: Settlement, winner: int): Plan
  {
    Plan(st.payouts, st.dust, st.refunded, if st.refunded then -1 else winner)
  }

  lemma FittingPlansAreExact(stakes: seq<Stake>, winner: int, count: int, total: int, plan: Plan)
    requires Settlements(Int64, stakes, winner, count).Ok? && Exact64(stakes, winner)
    requires total == Wrap(Total(stakes)) && plan == PlanOf(Settlements(Int64, stakes, winner, count).value, winner)
    ensures total == Total(stakes) && plan == PlanFor(SettleOn(winner), stakes)
    ensures Settlements(Int64, stakes, winner, count).value == Settled(Unbounded, stakes, winner)
  {
    FaultFree(stakes, count);
    MachineSettlementIsExact(stakes, winner, count);
    SmallRefundsAreExact(stakes, count);
  }

  /** A compare-and-set that applies ends the round from its wagers; one that does not found it ended. */
  lemma WhatApplyMeans(history: seq<Store>, trace: seq<Step>, s: Store, call: nat)
    requires Traced(history, trace, s) && call in s.calls && s.calls[call].at.HasStakes?
    ensures var c := s.calls[call];
            var (s', r) := CompareAndSet(s, c);
            var after := Advance(s', call, Done(r));
            var h, t := history + [after], trace + [DoApply(call)];
            && (r == Applied ==> EndedBy(h, t, call, c.aim, c.round, c.key) && StakesOf(h, t, call) == c.at.stakes)
            && (r != Applied ==> Refused(after, c.aim, c.round, r))
  {
    TracedCall(history, trace, s, call);
  }

  lemma FailureIsTheOutcome(history: seq<Store>, trace: seq<Step>, s: Store, s': Store, stakes: seq<Stake>, call: nat,
                            winner: int)
    requires Traced(history, trace, s) && s'.rounds == s.rounds && call in s.calls && s.calls[call].at.SawLocked?
    requires Lists(stakes, if s.calls[call].round in s.rounds then s.rounds[s.calls[call].round].wagers else map[])
    requires Settlements(Unbounded, stakes, winner, s.calls[call].at.count).Err?
    ensures Refused(s', SettleOn(winner), s.calls[call].round, SettleFailed)
  {
    TracedCall(history, trace, s, call);
    var round := s.rounds[s.calls[call].round];
    ListingIsValid(round, stakes);
    FaultFree(stakes, round.outcomeCount);
  }

  lemma SmallRefund(history: seq<Store>, trace: seq<Step>, s: Store, stakes: seq<Stake>, call: nat)
    requires Traced(history, trace, s) && call in s.calls && s.calls[call].at.HasStakes?
             && s.calls[call].at.stakes == stakes
    requires Total(stakes) <= MAX_INT64
    ensures Narrow(Aggregate(stakes)) == Aggregate(stakes) && Wrap(Total(stakes)) == Total(stakes)
  {
    TracedCall(history, trace, s, call);
    var round := s.rounds[s.calls[call].round];
    ListingIsValid(round, stakes);
    SmallRefundsAreExact(stakes, round.outcomeCount);
  }
}
