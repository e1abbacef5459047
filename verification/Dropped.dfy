/**
 * A worker session that carries on after a fetch error, seen from the whole system: a run that ends
 * drained, with distinct keys, and with Redis and the ledger apart. Two wagers are placed and relayed;
 * the worker fetches the first, a fetch fails, it fetches the second, writes and commits. Nothing is
 * left to relay or to post, and the first wager is in no ledger row.
 */
module Dropped {
  import opened Base
  import opened Events
  import opened Ledger
  import opened LedgerLaws
  import opened Pipeline
  import opened Witness
  import opened KeyReuse
  import S = Store
  import R = Relay
  import W = Worker

  // ---------- reaching a state of the whole system ----------

  ghost predicate Reached(hash: string -> nat, y: System)
  {
    exists states, steps :: Run(hash, states, steps) && states[|steps|] == y
  }

  lemma OneMove(hash: string -> nat, y: System, step: Step, y': System)
    requires Reached(hash, y) && Moves(hash, y, step, y')
    ensures Reached(hash, y')
  {
    var states, steps :| Run(hash, states, steps) && states[|steps|] == y;
    var states', steps' := states + [y'], steps + [step];
    forall i | 0 <= i < |steps'| ensures StepAt(hash, states', steps', i) {
      assert i < |steps| ==> StepAt(hash, states, steps, i);
    }
    assert Run(hash, states', steps') && states'[|steps'|] == y';
  }

  lemma IdleIsReached(hash: string -> nat, s: S.Store)
    requires Reachable(s)
    ensures Reached(hash, Idle(s))
  {
    ReachableRun(hash, s);
    var states, steps :| CleanRun(hash, states, steps, Idle(s));
  }

  lemma RelayMove(hash: string -> nat, y: System, st: R.Step)
    requires Reached(hash, y) && R.Enabled(y.group, st) && |y.worker.logs| == 2 * PARTITIONS
    requires R.Next(y.group, |y.store.outbox|, st).log == y.group.log
    ensures Reached(hash, y.(group := R.Next(y.group, |y.store.outbox|, st)))
  {
    OneMove(hash, y, RelayStep(st), y.(group := R.Next(y.group, |y.store.outbox|, st)));
  }

  lemma WorkerMove(hash: string -> nat, y: System, st: W.Step, w: W.State)
    requires Reached(hash, y) && W.Moves(y.worker, st, w) && !st.Append? && |y.worker.logs| == 2 * PARTITIONS
    ensures Reached(hash, y.(worker := w))
  {
    OneMove(hash, y, WorkerStep(st), y.(worker := w));
  }

  // ---------- two wagers, relayed ----------

  function Second(s: S.Store, req: S.WagerRequest, key: string): S.Store
    requires req.round in s.rounds
  {
    S.Accept(S.Accept(s, req).0, req.(key := key)).0
  }

  lemma OneTokenIsBet(s: S.Store, req: S.WagerRequest)
    requires S.Takes(s, req, false) && req.amount == 1 && req.room != "" && req.user != "" && req.round != ""
             && req.key != ""
    ensures var out := S.Accept(s, req).0.outbox;
            && |out| == |s.outbox| + 1 && out[..|s.outbox|] == s.outbox
            && Bet(out[|s.outbox|], req.room, req.user, req.key)
  {
  }

  lemma TakesAnother(s: S.Store, req: S.WagerRequest, key: string)
    requires S.Takes(s, req, false) && S.RoomOf(s, req.room).wallets[req.user] >= 2 * req.amount
    requires key !in s.idem && key != req.key
    ensures S.Takes(S.Accept(s, req).0, req.(key := key), false)
  {
  }

  lemma SecondIsReachable(s: S.Store, req: S.WagerRequest, key: string)
    requires Reachable(s) && S.Takes(s, req, false) && S.RoomOf(s, req.room).wallets[req.user] >= 2 * req.amount
    requires s.calls == map[] && req.key != "" && req.room != "" && req.user != ""
             && s.rounds[req.round].room == req.room
    requires key !in s.idem && key != req.key && key != ""
    ensures Reachable(Second(s, req, key))
  {
    OneMore(s, S.DoWager(req, false));
    TakesAnother(s, req, key);
    OneMore(S.Accept(s, req).0, S.DoWager(req.(key := key), false));
  }

  /** Two wagers on the table under different keys. */
  lemma TwoBets(room: string, host: string, user: string, round: string, key: string, key': string)
    requires room != "" && user != "" && round != "" && key != "" && key' != "" && host != user && key != key'
    ensures var s := Second(Table(room, host, user, round), OneToken(room, user, round, key), key');
            && Reachable(s) && |s.outbox| == 2
            && Bet(s.outbox[0], room, user, key) && Bet(s.outbox[1], room, user, key')
  {
    var table, req := Table(room, host, user, round), OneToken(room, user, round, key);
    TableIsSet(room, host, user, round);
    TableTakes(room, host, user, round, key);
    SecondIsReachable(table, req, key');
    OneTokenIsBet(table, req);
    TakesAnother(table, req, key');
    OneTokenIsBet(S.Accept(table, req).0, req.(key := key'));
  }

  /** A wager of one token. */
  predicate Bet(ev: Event, room: string, user: string, key: string)
  {
    WagerBy(ev, room, user, key) && ev.amount == 1 && Valid(ev)
  }

  /** The consumer group once a first relay process has delivered both entries. */
  const BOTH := R.Group(2, map[], 1, [0, 1], R.Following)

  function Logs(p: nat, outbox: seq<Event>): seq<seq<Event>>
    requires p < 2 * PARTITIONS
  {
    W.Fresh(2 * PARTITIONS).logs[p := outbox]
  }

  /** Both wagers are in their partition, and the worker has not started. */
  function Relayed(hash: string -> nat, s: S.Store): System
    requires |s.outbox| == 2
  {
    System(s, BOTH, W.Fresh(2 * PARTITIONS).(logs := Logs(PartitionOf(hash, s.outbox[0]), s.outbox)))
  }

  /** A first process starts, finds nothing pending, and reads both entries. */
  lemma BothAreRead(hash: string -> nat, y: System, batch: seq<nat>)
    requires Reached(hash, y) && y.group == R.NEW_GROUP && |y.store.outbox| == 2 && |y.worker.logs| == 2 * PARTITIONS
    requires batch == [0, 1]
    ensures Reached(hash, y.(group := R.Group(2, map[0 := 1, 1 := 1], 1, [], R.Producing(batch, false))))
  {
    var g := R.NEW_GROUP;
    RelayMove(hash, y, R.Start);
    RelayMove(hash, y.(group := g.(me := 1, phase := R.Claiming(0))), R.Claim(1));
    RelayMove(hash, y.(group := g.(me := 1, phase := R.Draining)), R.DrainRead(1));
    assert R.Range(0, 2) == batch;
    RelayMove(hash, y.(group := g.(me := 1, phase := R.Following)), R.LiveRead(2));
    assert R.Take(map[], 1, batch) == map[0 := 1, 1 := 1];
  }

  lemma BothArrive(hash: string -> nat, outbox: seq<Event>, batch: seq<nat>)
    requires |outbox| == 2 && PartitionOf(hash, outbox[0]) == PartitionOf(hash, outbox[1]) && batch == [0, 1]
    ensures Deliver(hash, outbox, batch, W.Fresh(2 * PARTITIONS).logs) == Logs(PartitionOf(hash, outbox[0]), outbox)
  {
    var logs, p := W.Fresh(2 * PARTITIONS).logs, PartitionOf(hash, outbox[0]);
    var first: seq<nat> := [0];
    assert batch[..1] == first && first[..0] == [] && logs[p] == [] && [] + [outbox[0]] == [outbox[0]];
    assert Deliver(hash, outbox, first, logs) == logs[p := [outbox[0]]];
    assert Deliver(hash, outbox, batch, logs) == logs[p := [outbox[0]]][p := [outbox[0]] + [outbox[1]]];
    assert [outbox[0]] + [outbox[1]] == outbox;
  }

  lemma BothAreRelayed(hash: string -> nat, s: S.Store)
    requires Reachable(s) && |s.outbox| == 2 && PartitionOf(hash, s.outbox[0]) == PartitionOf(hash, s.outbox[1])
    ensures Reached(hash, Relayed(hash, s))
  {
    var batch: seq<nat> := [0, 1];
    IdleIsReached(hash, s);
    BothAreRead(hash, Idle(s), batch);
    BothArrive(hash, s.outbox, batch);
    var reading := R.Group(2, map[0 := 1, 1 := 1], 1, [], R.Producing(batch, false));
    var produced := R.Group(2, map[0 := 1, 1 := 1], 1, batch, R.Acking(batch, false));
    assert R.Next(reading, 2, R.Produce) == produced;
    var y := Relayed(hash, s).(group := produced);
    OneMove(hash, Idle(s).(group := reading), RelayStep(R.Produce), y);
    assert R.Ack(produced.pending, batch) == map[];
    RelayMove(hash, y, R.AckBatch);
  }

  // ---------- the session that loses the first ----------

  /** Fetch, the error, the next fetch, write, and commit, all by the worker. */
  ghost predicate DropsAndCommits(y: System, p: nat, y': System)
  {
    exists w, w1 :: W.Drops(y.worker, p, w) && W.Moves(w, W.Write(true), w1) && W.Moves(w1, W.Commit, y'.worker)
      && y' == y.(worker := y'.worker)
  }

  lemma DropsAreReached(hash: string -> nat, y: System, p: nat, y': System)
    requires Reached(hash, y) && DropsAndCommits(y, p, y') && |y.worker.logs| == 2 * PARTITIONS
    ensures Reached(hash, y')
  {
    var w, w1 :| W.Drops(y.worker, p, w) && W.Moves(w, W.Write(true), w1) && W.Moves(w1, W.Commit, y'.worker);
    var v, v1 :| W.Moves(y.worker, W.Fetch(p), v) && W.Moves(v, W.Drop, v1) && W.Moves(v1, W.Fetch(p), w);
    WorkerMove(hash, y, W.Fetch(p), v);
    WorkerMove(hash, y.(worker := v), W.Drop, v1);
    WorkerMove(hash, y.(worker := v1), W.Fetch(p), w);
    WorkerMove(hash, y.(worker := w), W.Write(true), w1);
    WorkerMove(hash, y.(worker := w1), W.Commit, y'.worker);
  }

  /** The worker after it committed past both messages with only the second in the ledger. */
  function Committed(w: W.State, p: nat): W.State
    requires W.TwoWaiting(w, p) && |w.committed| == |w.position|
  {
    var ev := w.logs[p][w.position[p] + 1];
    W.AfterDrop(w, p).(book := PostOne(w.book, TransactionFor(ev).value),
                       committed := w.committed[p := w.position[p] + 2], batch := [])
  }

  lemma OneCommit(w: W.State, p: nat, o: nat)
    requires p < |w.committed| && w.committed[p] <= o
    ensures W.CommitAll(w.committed, [W.Message(p, o)]) == w.committed[p := o + 1]
  {
    assert [W.Message(p, o)][..0] == [];
  }

  lemma DropThenCommit(y: System, p: nat)
    requires W.TwoWaiting(y.worker, p) && y.worker.committed == y.worker.position
    ensures DropsAndCommits(y, p, y.(worker := Committed(y.worker, p)))
  {
    var w := W.AfterDrop(y.worker, p);
    var m := W.Message(p, y.worker.position[p] + 1);
    W.DropSkips(y.worker, p);
    W.OneMessagePosts(w, m);
    var w1 := W.Next(w, W.Write(true));
    OneCommit(w1, p, m.offset);
    assert W.Moves(w, W.Write(true), w1) && W.Moves(w1, W.Commit, Committed(y.worker, p));
  }

  // ---------- the books at the end ----------

  /**
   * From one reachable state to another by a fetch error and what follows it, into a drained state
   * with distinct keys in which Redis has charged the user one token more than the ledger.
   */
  ghost predicate BreaksTheBooks(hash: string -> nat, y: System, p: nat, y': System, room: string, user: string)
  {
    && Reached(hash, y) && Reached(hash, y') && DropsAndCommits(y, p, y')
    && Drained(y') && DistinctEventKeys(y'.store.outbox)
    && Delta(y'.store, room, user) == Balance(y'.worker.book, WalletIn(room, user)) - 1
  }

  lemma OneIsOutstanding(book: Book, evs: seq<Event>, room: string, user: string, key: string)
    requires |evs| == 2 && Bet(evs[0], room, user, key) && key !in book && evs[1].key in book
    ensures SumBy(evs, Outstanding(book, WalletIn(room, user))) == -1
  {
    var f := Outstanding(book, WalletIn(room, user));
    assert evs[..1] == [evs[0]] && [evs[0]][..0] == [];
    assert SumBy([evs[0]], f) == f(evs[0]);
  }

  /** The worker starts with both in front of it. */
  function Waiting(hash: string -> nat, s: S.Store): System
    requires |s.outbox| == 2
  {
    Relayed(hash, s).(worker := Relayed(hash, s).worker.(stage := W.Fetching))
  }

  lemma BothWait(hash: string -> nat, s: S.Store, room: string, user: string, key: string, key': string)
    requires Reachable(s) && |s.outbox| == 2 && Bet(s.outbox[0], room, user, key) && Bet(s.outbox[1], room, user, key')
    requires key != key'
    ensures var y := Waiting(hash, s);
            && Reached(hash, y) && W.TwoWaiting(y.worker, PartitionOf(hash, s.outbox[0]))
            && y.worker.committed == y.worker.position
  {
    var y := Relayed(hash, s);
    BothAreRelayed(hash, s);
    assert W.Next(y.worker, W.Start) == Waiting(hash, s).worker;
    WorkerMove(hash, y, W.Start, Waiting(hash, s).worker);
  }

  lemma PostsTheSecond(ev: Event)
    requires TransactionFor(ev).Ok?
    ensures PostOne(map[], TransactionFor(ev).value).Keys == {ev.key}
  {
  }

  lemma EndsApart(hash: string -> nat, y: System, room: string, user: string, key: string)
    requires Reached(hash, y) && |y.store.outbox| == 2 && Bet(y.store.outbox[0], room, user, key)
    requires y.store.outbox[1].key != key && key !in y.worker.book && y.store.outbox[1].key in y.worker.book
    ensures Delta(y.store, room, user) == Balance(y.worker.book, WalletIn(room, user)) - 1
  {
    var states, steps :| Run(hash, states, steps) && states[|steps|] == y;
    OneIsOutstanding(y.worker.book, y.store.outbox, room, user, key);
    Reconciliation(hash, states, steps, |steps|, room, user);
  }

  lemma EndsDrained(hash: string -> nat, s: S.Store)
    requires |s.outbox| == 2 && s.outbox[0].key != s.outbox[1].key
    requires W.TwoWaiting(Waiting(hash, s).worker, PartitionOf(hash, s.outbox[0]))
    ensures var y := Waiting(hash, s);
            var y' := y.(worker := Committed(y.worker, PartitionOf(hash, s.outbox[0])));
            Drained(y') && DistinctEventKeys(y'.store.outbox) && y'.worker.book.Keys == {s.outbox[1].key}
  {
    PostsTheSecond(s.outbox[1]);
  }

  lemma LosesTheFirst(hash: string -> nat, s: S.Store, room: string, user: string, key: string, key': string)
    requires Reachable(s) && |s.outbox| == 2 && Bet(s.outbox[0], room, user, key) && Bet(s.outbox[1], room, user, key')
    requires key != key'
    ensures exists y, p, y' :: BreaksTheBooks(hash, y, p, y', room, user)
  {
    var p, y := PartitionOf(hash, s.outbox[0]), Waiting(hash, s);
    BothWait(hash, s, room, user, key, key');
    var y' := y.(worker := Committed(y.worker, p));
    DropThenCommit(y, p);
    DropsAreReached(hash, y, p, y');
    EndsDrained(hash, s);
    EndsApart(hash, y', room, user, key);
    assert BreaksTheBooks(hash, y, p, y', room, user);
  }

  /**
   * A player bets twice under different keys; a fetch error in mid-batch costs the first bet, and
   * the same session commits past it. Nothing is left to relay or to post, and the books differ.
   */
  lemma DroppedMessagesBreakTheBooks(hash: string -> nat, room: string, host: string, user: string, round: string,
                                     key: string, key': string)
    requires room != "" && user != "" && round != "" && key != "" && key' != "" && host != user && key != key'
    ensures exists y, p, y' :: BreaksTheBooks(hash, y, p, y', room, user)
  {
    TwoBets(room, host, user, round, key, key');
    var s := Second(Table(room, host, user, round), OneToken(room, user, round, key), key');
    LosesTheFirst(hash, s, room, user, key, key');
  }
}
