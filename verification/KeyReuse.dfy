/**
 * Idempotency keys over whole runs, and a run that uses an expired one and leaves Redis and the ledger apart.
 */
module KeyReuse {
  import opened Base
  import opened Events
  import opened Ledger
  import opened LedgerLaws
  import opened Pipeline
  import opened StoreInvariant
  import opened StoreLaws
  import S = Store
  import SR = StoreRuns
  import R = Relay
  import W = Worker
  import RedisStore
  import opened Witness
  import Recovery

  // ---------- over runs of the whole system ----------

  lemma {:induction false} CachedKeysWereUsed(hash: string -> nat, states: seq<System>, steps: seq<Step>, n: nat)
    requires Run(hash, states, steps) && n < |states|
    ensures CachedOk(states[n].store)
  {
    if n > 0 {
      CachedKeysWereUsed(hash, states, steps, n - 1);
      assert StepAt(hash, states, steps, n - 1);
      if steps[n - 1].StoreStep? { CachedStep(states[n - 1].store, steps[n - 1].store); }
    }
  }

  ghost predicate ReusesKey(y: System, step: Step)
  {
    step.StoreStep? && Reuses(y.store, step.store)
  }

  ghost predicate NoneReused(states: seq<System>, steps: seq<Step>, n: nat)
    requires n <= |steps| <= |states|
  {
    forall k :: 0 <= k < n ==> !ReusesKey(states[k], steps[k])
  }

  lemma NoneReusedBefore(states: seq<System>, steps: seq<Step>, n: nat)
    requires 0 < n <= |steps| <= |states|
    ensures NoneReused(states, steps, n)
       <==> NoneReused(states, steps, n - 1) && !ReusesKey(states[n - 1], steps[n - 1])
  {
  }

  ghost predicate KeysMatch(states: seq<System>, steps: seq<Step>, n: nat)
    requires n <= |steps| < |states|
  {
    DistinctEventKeys(states[n].store.outbox) <==> NoneReused(states, steps, n)
  }

  lemma {:induction false} KeysMatchAt(hash: string -> nat, states: seq<System>, steps: seq<Step>, n: nat)
    requires Run(hash, states, steps) && n < |states|
    ensures KeysMatch(states, steps, n)
  {
    if n > 0 {
      KeysMatchAt(hash, states, steps, n - 1);
      NextKeysMatch(hash, states, steps, n);
    } else {
      NothingKeyed(hash, states, steps);
    }
  }

  /** Keys are distinct at a moment of a run exactly when no wager before it was accepted under an expired key. */
  lemma KeysDistinctIff(hash: string -> nat, states: seq<System>, steps: seq<Step>, n: nat)
    requires Run(hash, states, steps) && n < |states|
    ensures DistinctEventKeys(states[n].store.outbox) <==> NoneReused(states, steps, n)
  {
    KeysMatchAt(hash, states, steps, n);
  }

  lemma NextKeysMatch(hash: string -> nat, states: seq<System>, steps: seq<Step>, n: nat)
    requires Run(hash, states, steps) && 0 < n < |states| && KeysMatch(states, steps, n - 1)
    ensures KeysMatch(states, steps, n)
  {
    KeysStepIff(hash, states, steps, n - 1);
    NoneReusedBefore(states, steps, n);
  }

  lemma NothingKeyed(hash: string -> nat, states: seq<System>, steps: seq<Step>)
    requires Run(hash, states, steps)
    ensures KeysMatch(states, steps, 0)
  {
    assert states[0].store.outbox == [];
  }

  lemma KeysStepIff(hash: string -> nat, states: seq<System>, steps: seq<Step>, k: nat)
    requires Run(hash, states, steps) && k < |steps|
    ensures DistinctEventKeys(states[k + 1].store.outbox)
       <==> DistinctEventKeys(states[k].store.outbox) && !ReusesKey(states[k], steps[k])
  {
    assert StepAt(hash, states, steps, k);
    if steps[k].StoreStep? {
      EveryStateIsOk(hash, states, steps, k);
      CachedKeysWereUsed(hash, states, steps, k);
      if DistinctEventKeys(states[k].store.outbox) {
        KeysStayDistinctIff(states[k].store, steps[k].store);
      } else {
        OutboxGrows(states[k].store, steps[k].store);
      }
    }
  }

  /**
   * Once the pipeline is drained, by a run that lost nothing, Redis and the ledger agree on every
   * user of every room if and only if no wager was accepted under a key whose cached reply had
   * expired.
   */
  lemma DrainedReconcilesUnlessReused(hash: string -> nat, states: seq<System>, steps: seq<Step>, n: nat)
    requires Run(hash, states, steps) && n < |states| && LosesNothing(states, steps) && Drained(states[n])
    ensures Recovery.Agrees(states[n]) <==> NoneReused(states, steps, n)
  {
    DrainedReconcilesIff(hash, states, steps, n);
    KeysDistinctIff(hash, states, steps, n);
  }

  // ---------- a run that reuses a key ----------

  lemma TakesAgain(s: S.Store, req: S.WagerRequest)
    requires S.Takes(s, req, false) && S.RoomOf(s, req.room).wallets[req.user] >= 2 * req.amount
    ensures var s' := S.Forget(S.Accept(s, req).0, req.key);
            S.Takes(s', req, false) && req.key in s'.forgotten && req.round in s'.rounds
            && s'.rounds[req.round].room == s.rounds[req.round].room && s'.calls == s.calls
  {
  }

  /** Two wagers under one key, the cached reply having expired in between. */
  function Doubled(s: S.Store, req: S.WagerRequest): S.Store
    requires req.round in s.rounds
  {
    S.Accept(S.Forget(S.Accept(s, req).0, req.key), req).0
  }

  lemma DoubledIsReachable(s: S.Store, req: S.WagerRequest)
    requires Reachable(s) && S.Takes(s, req, false) && S.RoomOf(s, req.room).wallets[req.user] >= 2 * req.amount
    requires s.calls == map[] && req.key != "" && req.room != "" && req.user != ""
             && s.rounds[req.round].room == req.room
    ensures Reachable(Doubled(s, req))
  {
    var s1 := S.Accept(s, req).0;
    OneMore(s, S.DoWager(req, false));
    OneMore(s1, S.DoForget(req.key));
    TakesAgain(s, req);
    OneMore(S.Forget(s1, req.key), S.DoWager(req, false));
  }

  /** The outbox is two wagers of one user in one room under one key. */
  predicate BetTwice(outbox: seq<Event>, room: string, user: string, key: string)
  {
    |outbox| == 2 && WagerBy(outbox[0], room, user, key) && WagerBy(outbox[1], room, user, key)
  }

  predicate WagerBy(ev: Event, room: string, user: string, key: string)
  {
    ev.WagerPlaced? && ev.room == room && ev.user == user && ev.key == key
  }

  lemma DoubledKeysAreShared(s: S.Store, req: S.WagerRequest)
    requires req.round in s.rounds && s.outbox == []
    ensures BetTwice(Doubled(s, req).outbox, req.room, req.user, req.key)
  {
  }

  ghost function Idle(s: S.Store): System
  {
    System(s, R.NEW_GROUP, W.Fresh(2 * PARTITIONS))
  }

  ghost predicate CleanRun(hash: string -> nat, states: seq<System>, steps: seq<Step>, y: System)
  {
    Run(hash, states, steps) && LosesNothing(states, steps) && states[|steps|] == y
  }

  lemma ReachableRun(hash: string -> nat, s: S.Store)
    requires Reachable(s)
    ensures exists states, steps :: CleanRun(hash, states, steps, Idle(s))
  {
    var history, trace :| RedisStore.Traced(history, trace, s);
    var states := seq(|history|, i requires 0 <= i < |history| => Idle(history[i]));
    var steps := seq(|trace|, i requires 0 <= i < |trace| => StoreStep(trace[i]));
    assert CleanRun(hash, states, steps, Idle(s));
  }

  lemma JoinedStep(hash: string -> nat, states: seq<System>, steps: seq<Step>, more: seq<System>, moves: seq<Step>,
                   i: nat)
    requires Recovery.Path(hash, more, moves) && CleanRun(hash, states, steps, more[0])
    requires i < |steps + moves|
    ensures StepAt(hash, states + more[1..], steps + moves, i) && CleanStep((states + more[1..])[i], (steps + moves)[i])
  {
    if i < |steps| {
      assert StepAt(hash, states, steps, i) && CleanStep(states[i], steps[i]);
    } else {
      assert Recovery.Onward(hash, more[i - |steps|], moves[i - |steps|], more[i - |steps| + 1]);
    }
  }

  /** A run followed by a continuation is a run. */
  lemma RunGoesOn(hash: string -> nat, states: seq<System>, steps: seq<Step>, y: System, y': System)
    requires CleanRun(hash, states, steps, y) && Recovery.Leads(hash, y, y')
    ensures exists states', steps' :: CleanRun(hash, states', steps', y')
  {
    var more, moves :| Recovery.Path(hash, more, moves) && more[0] == y && more[|moves|] == y';
    forall i | 0 <= i < |steps + moves| { JoinedStep(hash, states, steps, more, moves, i); }
    assert CleanRun(hash, states + more[1..], steps + moves, y');
  }

  /**
   * The system gets to a drained state, by a run that lost nothing, in which the user has bet twice
   * under the key and Redis holds less for the user than the ledger.
   */
  ghost predicate CanBeChargedTwice(hash: string -> nat, room: string, user: string, key: string)
  {
    exists states, steps, y :: CleanRun(hash, states, steps, y) && Drained(y)
      && BetTwice(y.store.outbox, room, user, key)
      && Delta(y.store, room, user) < Balance(y.worker.book, WalletIn(room, user))
  }

  /**
   * Whatever the names: a player who bets under a key, and again under it after its cached reply
   * has expired, is charged twice in Redis and once in the ledger, and draining does not help.
   */
  lemma ReusedKeysBreakTheBooks(hash: string -> nat, room: string, host: string, user: string, round: string,
                                key: string)
    requires room != "" && user != "" && round != "" && key != "" && host != user
    ensures CanBeChargedTwice(hash, room, user, key)
  {
    var table, req := Table(room, host, user, round), OneToken(room, user, round, key);
    TableIsSet(room, host, user, round);
    TableTakes(room, host, user, round, key);
    DoubledIsReachable(table, req);
    DoubledKeysAreShared(table, req);
    SharedKeysDisagree(hash, Doubled(table, req), room, user, key);
  }

  lemma SharedKeysDisagree(hash: string -> nat, s: S.Store, room: string, user: string, key: string)
    requires Reachable(s) && BetTwice(s.outbox, room, user, key)
    ensures CanBeChargedTwice(hash, room, user, key)
  {
    ReachableRun(hash, s);
    var states, steps :| CleanRun(hash, states, steps, Idle(s));
    Recovery.CanAlwaysDrain(hash, states, steps, |steps|);
    var y :| Recovery.Later(hash, Idle(s), y) && Drained(y);
    RunGoesOn(hash, states, steps, Idle(s), y);
    ChargedTwice(y, room, user, key);
  }

  lemma ChargedTwice(y: System, room: string, user: string, key: string)
    requires Pipeline.Inv(y) && W.CommitSafe(y.worker) && Drained(y) && BetTwice(y.store.outbox, room, user, key)
    ensures Delta(y.store, room, user) < Balance(y.worker.book, WalletIn(room, user))
  {
    SharedKeyBreaksIt(y, 0, 1);
  }

  // ---------- a wager on another room's round ----------

  /**
   * Every wager of the state reached here passes the script's guards although its round belongs to
   * another room, and accepting it breaks conservation: only the caller keeps it from happening.
   */
  lemma ForeignRoundsPassTheGuards(room: string, other: string, user: string, round: string, key: string)
    requires room != other && room != "" && other != "" && user != "" && round != ""
    ensures exists s :: Reachable(s) && Foreign(s, OneToken(room, user, round, key))
  {
    var s1 := S.JoinRoom(S.EMPTY, room, user, 10);
    var s2 := S.CreateRound(s1, round, other, 2);
    EmptyIsReachable();
    OneMore(S.EMPTY, S.DoJoin(room, user, 10));
    OneMore(s1, S.DoCreateRound(round, other, 2));
    var req := OneToken(room, user, round, key);
    assert S.WagerFault(s2, req, false).None?;
    var history, trace :| RedisStore.Traced(history, trace, s2);
    SR.EveryStateIsOk(history, trace, |trace|);
    assert RoomOk(s2, room);
    WagerConservesIffOwnRound(s2, req);
    assert Foreign(s2, req);
  }

  ghost predicate Foreign(s: S.Store, req: S.WagerRequest)
  {
    && S.WagerFault(s, req, false).None? && s.rounds[req.round].room != req.room
    && Conserved(s, req.room) && !Conserved(S.Accept(s, req).0, req.room)
  }
}
