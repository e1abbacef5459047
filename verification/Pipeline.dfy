/**
 * Store, relay and worker together: any step of any part may come next.
 */
module Pipeline {
  import opened Base
  import opened Events
  import opened Ledger
  import opened LedgerLaws
  import opened StoreInvariant
  import S = Store
  import SR = StoreRuns
  import SL = StoreLaws
  import R = Relay
  import W = Worker

  /** Six partitions for each of the two topics, keyed by room. */
  const PARTITIONS: nat := 6

  function PartitionOf(hash: string -> nat, ev: Event): (p: nat)
    ensures p < 2 * PARTITIONS
  {
    hash(ev.room) % PARTITIONS + if ev.WagerPlaced? then 0 else PARTITIONS
  }

  /**
   * The whole token pipeline: the store appends to the outbox, the relay carries entries to Kafka's
   * partitions, the worker posts them to the ledger.
   */
  datatype System = System(store: S.Store, group: R.Group, worker: W.State)

  const NEW_SYSTEM := System(S.EMPTY, R.NEW_GROUP, W.Fresh(2 * PARTITIONS))

  /** The messages of a produce call arrive, each at the end of its partition. */
  function Deliver(hash: string -> nat, outbox: seq<Event>, batch: seq<nat>,
                   logs: seq<seq<Event>>): (r: seq<seq<Event>>)
    requires |logs| == 2 * PARTITIONS
    ensures |r| == |logs|
  {
    if batch == [] then logs else
    var r := Deliver(hash, outbox, batch[..|batch| - 1], logs);
    if batch[|batch| - 1] >= |outbox| then r else
    var ev := outbox[batch[|batch| - 1]];
    r[PartitionOf(hash, ev) := r[PartitionOf(hash, ev)] + [ev]]
  }

  datatype Step = StoreStep(store: S.Step) | RelayStep(relay: R.Step) | WorkerStep(worker: W.Step)

  ghost predicate Enabled(y: System, step: Step)
  {
    match step
    case StoreStep(st) => S.Enabled(y.store, st)
    case RelayStep(st) => R.Enabled(y.group, st)
    case WorkerStep(st) => W.Enabled(y.worker, st) && !st.Append?
  }

  /** The part of the log that a relay step added. */
  function Produced(g: R.Group, g': R.Group): seq<nat>
  {
    if |g.log| <= |g'.log| then g'.log[|g.log|..] else []
  }

  ghost predicate Moves(hash: string -> nat, y: System, step: Step, y': System)
  {
    && Enabled(y, step) && |y.worker.logs| == 2 * PARTITIONS
    && match step
       case StoreStep(st) => y' == y.(store := S.Next(y.store, st))
       case RelayStep(st) =>
         var g := R.Next(y.group, |y.store.outbox|, st);
         var logs := Deliver(hash, y.store.outbox, Produced(y.group, g), y.worker.logs);
         y' == y.(group := g, worker := y.worker.(logs := logs))
       case WorkerStep(st) => y' == y.(worker := W.Next(y.worker, st))
  }

  // ---------- what every step keeps ----------

  /** Messages are outbox events. */
  ghost predicate FromOutbox(w: W.State, outbox: seq<Event>)
  {
    forall m: W.Message :: W.Has(w.logs, m) ==> W.EventAt(w.logs, m) in outbox
  }

  /** What the relay produced is in its partition. */
  ghost predicate Arrived(w: W.State, log: seq<nat>, outbox: seq<Event>)
  {
    forall i :: i in log && i < |outbox| ==> InLogs(w.logs, outbox[i])
  }

  ghost predicate InLogs(logs: seq<seq<Event>>, ev: Event)
  {
    exists m: W.Message :: W.Has(logs, m) && W.EventAt(logs, m) == ev
  }

  ghost predicate Inv(y: System)
  {
    && StoreInvariant.Inv(y.store) && R.Inv(y.group, |y.store.outbox|)
    && W.Inv(y.worker) && |y.worker.logs| == 2 * PARTITIONS
    && FromOutbox(y.worker, y.store.outbox) && Arrived(y.worker, y.group.log, y.store.outbox)
  }

  /** Delivery is a sequence of appends: nothing else changes, and every event of the batch is there. */
  lemma {:induction false} DeliverAppends(hash: string -> nat, outbox: seq<Event>, batch: seq<nat>, w: W.State)
    requires |w.logs| == 2 * PARTITIONS && W.Inv(w) && FromOutbox(w, outbox)
    ensures var w' := w.(logs := Deliver(hash, outbox, batch, w.logs));
            && W.Inv(w') && W.Grown(w.logs, w'.logs) && FromOutbox(w', outbox) && (W.CommitSafe(w) ==> W.CommitSafe(w'))
            && forall i :: i in batch && i < |outbox| ==> InLogs(w'.logs, outbox[i])
  {
    if batch != [] {
      var n := |batch| - 1;
      DeliverAppends(hash, outbox, batch[..n], w);
      var w1 := w.(logs := Deliver(hash, outbox, batch[..n], w.logs));
      if batch[n] < |outbox| {
        OneMoreArrives(w1, PartitionOf(hash, outbox[batch[n]]), outbox[batch[n]], outbox);
        assert w.(logs := Deliver(hash, outbox, batch, w.logs)) ==
               W.Next(w1, W.Append(PartitionOf(hash, outbox[batch[n]]), outbox[batch[n]]));
      }
    }
  }

  lemma OneMoreArrives(w: W.State, p: nat, ev: Event, outbox: seq<Event>)
    requires W.Inv(w) && p < |w.logs| && FromOutbox(w, outbox) && ev in outbox
    ensures var w' := W.Next(w, W.Append(p, ev));
            && W.Inv(w') && W.Grown(w.logs, w'.logs) && FromOutbox(w', outbox)
            && (W.CommitSafe(w) ==> W.CommitSafe(w')) && InLogs(w'.logs, ev)
            && forall e :: InLogs(w.logs, e) ==> InLogs(w'.logs, e)
  {
    var w' := W.Next(w, W.Append(p, ev));
    W.StepKeepsInv(w, W.Append(p, ev));
    if W.CommitSafe(w) { W.OtherStepIsSafe(w, W.Append(p, ev)); }
    var m := W.Message(p, |w.logs[p]|);
    assert W.Has(w'.logs, m) && W.EventAt(w'.logs, m) == ev;
    StillInLogs(w.logs, w'.logs);
    forall m: W.Message | W.Has(w'.logs, m) ensures W.EventAt(w'.logs, m) in outbox {
      assert W.Has(w.logs, m) || W.EventAt(w'.logs, m) == ev;
    }
  }

  lemma StillInLogs(logs: seq<seq<Event>>, logs': seq<seq<Event>>)
    requires W.Grown(logs, logs')
    ensures forall e :: InLogs(logs, e) ==> InLogs(logs', e)
  {
    forall e | InLogs(logs, e) ensures InLogs(logs', e) {
      var m: W.Message :| W.Has(logs, m) && W.EventAt(logs, m) == e;
      assert W.Has(logs', m) && W.EventAt(logs', m) == e;
    }
  }

  // ---------- store steps ----------

  lemma StoreStepKeeps(hash: string -> nat, y: System, step: S.Step, y': System)
    requires Inv(y) && Moves(hash, y, StoreStep(step), y')
    ensures Inv(y')
  {
    SL.OutboxGrows(y.store, step);
    SR.StepKeepsInv(y.store, step);
    R.NothingLost(y.group, |y.store.outbox|);
    R.GrowthKeepsInv(y.group, |y.store.outbox|, |y'.store.outbox|);
  }

  // ---------- relay steps ----------

  lemma RelayStepKeeps(hash: string -> nat, y: System, step: R.Step, y': System)
    requires Inv(y) && Moves(hash, y, RelayStep(step), y')
    ensures Inv(y') && (W.CommitSafe(y.worker) ==> W.CommitSafe(y'.worker))
  {
    var outbox := y.store.outbox;
    R.StepKeepsInv(y.group, |outbox|, step);
    var batch := Produced(y.group, y'.group);
    assert y'.group.log == y.group.log + batch;
    DeliverAppends(hash, outbox, batch, y.worker);
    StillInLogs(y.worker.logs, y'.worker.logs);
  }

  // ---------- worker steps ----------

  lemma WorkerStepKeeps(hash: string -> nat, y: System, step: W.Step, y': System)
    requires Inv(y) && Moves(hash, y, WorkerStep(step), y')
    ensures Inv(y')
  {
    W.StepKeepsInv(y.worker, step);
  }

  lemma StepKeepsInv(hash: string -> nat, y: System, step: Step, y': System)
    requires Inv(y) && Moves(hash, y, step, y')
    ensures Inv(y')
  {
    match step
    case StoreStep(st) => StoreStepKeeps(hash, y, st, y');
    case RelayStep(st) => RelayStepKeeps(hash, y, st, y');
    case WorkerStep(st) => WorkerStepKeeps(hash, y, st, y');
  }

  // ---------- runs ----------

  ghost predicate StepAt(hash: string -> nat, states: seq<System>, steps: seq<Step>, i: nat)
    requires |states| == |steps| + 1 && i < |steps|
  {
    Moves(hash, states[i], steps[i], states[i + 1])
  }

  ghost predicate Run(hash: string -> nat, states: seq<System>, steps: seq<Step>)
  {
    && |states| == |steps| + 1 && states[0] == NEW_SYSTEM
    && forall i :: 0 <= i < |steps| ==> StepAt(hash, states, steps, i)
  }

  lemma NewSystemIsOk()
    ensures Inv(NEW_SYSTEM) && W.CommitSafe(NEW_SYSTEM.worker)
  {
    SR.EmptyIsOk();
    assert R.Range(0, 0) == [];
    assert R.InvAt(R.NEW_GROUP, 0, 0, 0);
  }

  lemma {:induction false} EveryStateIsOk(hash: string -> nat, states: seq<System>, steps: seq<Step>, n: nat)
    requires Run(hash, states, steps) && n < |states|
    ensures Inv(states[n])
  {
    if n == 0 {
      NewSystemIsOk();
    } else {
      EveryStateIsOk(hash, states, steps, n - 1);
      assert StepAt(hash, states, steps, n - 1);
      StepKeepsInv(hash, states[n - 1], steps[n - 1], states[n]);
    }
  }

  /** No commit of the run passes over a message that a fetch error threw away and the ledger lacks. */
  ghost predicate LosesNothing(states: seq<System>, steps: seq<Step>)
    requires |states| == |steps| + 1
  {
    forall i :: 0 <= i < |steps| ==> CleanStep(states[i], steps[i])
  }

  ghost predicate CleanStep(y: System, step: Step)
  {
    step.WorkerStep? ==> W.LosesNothing(y.worker, step.worker)
  }

  lemma CleanStepIsSafe(hash: string -> nat, y: System, step: Step, y': System)
    requires Inv(y) && Moves(hash, y, step, y') && CleanStep(y, step) && W.CommitSafe(y.worker)
    ensures W.CommitSafe(y'.worker)
  {
    match step
    case StoreStep(_) =>
    case RelayStep(st) => RelayStepKeeps(hash, y, st, y');
    case WorkerStep(st) =>
      W.StepIsSafeIff(y.worker, st);
  }

  lemma {:induction false} CommitsAreSafe(hash: string -> nat, states: seq<System>, steps: seq<Step>, n: nat)
    requires Run(hash, states, steps) && n < |states| && LosesNothing(states, steps)
    ensures W.CommitSafe(states[n].worker)
  {
    if n == 0 {
      NewSystemIsOk();
    } else {
      CommitsAreSafe(hash, states, steps, n - 1);
      StaysSafe(hash, states, steps, n - 1);
    }
  }

  lemma StaysSafe(hash: string -> nat, states: seq<System>, steps: seq<Step>, n: nat)
    requires Run(hash, states, steps) && n < |steps| && CleanStep(states[n], steps[n]) && W.CommitSafe(states[n].worker)
    ensures W.CommitSafe(states[n + 1].worker)
  {
    EveryStateIsOk(hash, states, steps, n);
    assert StepAt(hash, states, steps, n);
    CleanStepIsSafe(hash, states[n], steps[n], states[n + 1]);
  }

  lemma SafeStepIsClean(hash: string -> nat, y: System, step: Step, y': System)
    requires Inv(y) && Moves(hash, y, step, y') && W.CommitSafe(y.worker) && W.CommitSafe(y'.worker)
    ensures CleanStep(y, step)
  {
    if step.WorkerStep? { W.StepIsSafeIff(y.worker, step.worker); }
  }

  /**
   * What the worker has committed is in the ledger throughout a run exactly when its commits lose
   * nothing.
   */
  lemma CommitsAreSafeIff(hash: string -> nat, states: seq<System>, steps: seq<Step>)
    requires Run(hash, states, steps)
    ensures (forall n :: 0 <= n < |states| ==> W.CommitSafe(states[n].worker)) <==> LosesNothing(states, steps)
  {
    if forall n :: 0 <= n < |states| ==> W.CommitSafe(states[n].worker) {
      forall i | 0 <= i < |steps| ensures CleanStep(states[i], steps[i]) {
        EveryStateIsOk(hash, states, steps, i);
        assert StepAt(hash, states, steps, i) && W.CommitSafe(states[i].worker) && W.CommitSafe(states[i + 1].worker);
        SafeStepIsClean(hash, states[i], steps[i], states[i + 1]);
      }
    }
    if LosesNothing(states, steps) {
      forall n | 0 <= n < |states| { CommitsAreSafe(hash, states, steps, n); }
    }
  }

  // ---------- where ledger rows come from ----------

  ghost predicate IsRow(outbox: seq<Event>, i: nat, k: string, t: Transaction)
  {
    i < |outbox| && W.Explains(outbox[i], k, t)
  }

  lemma RowHasOrigin(w: W.State, outbox: seq<Event>, k: string)
    requires W.Sourced(w) && FromOutbox(w, outbox) && k in w.book
    ensures exists i: nat :: IsRow(outbox, i, k, w.book[k])
  {
    var m: W.Message :| W.Has(w.logs, m) && W.Explains(W.EventAt(w.logs, m), k, w.book[k]);
    assert W.EventAt(w.logs, m) in outbox;
    var i: nat :| i < |outbox| && outbox[i] == W.EventAt(w.logs, m);
    assert IsRow(outbox, i, k, w.book[k]);
  }

  lemma Collect(book: Book, outbox: seq<Event>)
    requires forall k :: k in book ==> exists i: nat :: IsRow(outbox, i, k, book[k])
    ensures exists origin :: PostedFrom(book, outbox, origin)
  {
    ghost var origin: map<string, nat> := map k | k in book :: var i: nat :| IsRow(outbox, i, k, book[k]); i;
    assert forall k :: k in book ==> IsRow(outbox, origin[k], k, book[k]);
    assert PostedFrom(book, outbox, origin);
  }

  /** Every ledger row was posted from an outbox event. */
  lemma LedgerComesFromOutbox(y: System)
    requires Inv(y)
    ensures exists origin :: PostedFrom(y.worker.book, y.store.outbox, origin)
  {
    forall k | k in y.worker.book { RowHasOrigin(y.worker, y.store.outbox, k); }
    Collect(y.worker.book, y.store.outbox);
  }

  lemma PostedRowsAreSound(book: Book, evs: seq<Event>)
    requires exists origin :: PostedFrom(book, evs, origin)
    ensures AllSound(book)
  {
    var origin :| PostedFrom(book, evs, origin);
    forall k | k in book ensures Sound(book[k]) {
      ValidEventsBalance(evs[origin[k]]);
    }
  }

  /** In every reachable state, the balances of all the ledger's accounts add up to nothing. */
  lemma {:induction false} LedgerAlwaysBalances(hash: string -> nat, states: seq<System>, steps: seq<Step>, n: nat,
                                                accounts: seq<Account>)
    requires Run(hash, states, steps) && n < |states| && Covers(accounts, states[n].worker.book)
    ensures SumBy(accounts, AccountBalance(states[n].worker.book)) == 0
  {
    EveryStateIsOk(hash, states, steps, n);
    LedgerComesFromOutbox(states[n]);
    PostedRowsAreSound(states[n].worker.book, states[n].store.outbox);
    LedgerSumsToZero(states[n].worker.book, accounts);
  }

  // ---------- the reconciliation identity ----------

  /** What Redis says a user won or lost in a room, counting what cleared sessions took away. */
  function Delta(s: S.Store, room: string, user: string): int
  {
    var r := S.RoomOf(s, room);
    Get(r.wallets, user) + Get(r.withdrawn, user) - Get(r.granted, user)
  }

  /** For a session never cleared it is wallet minus opening stake. */
  lemma DeltaOfUncleared(s: S.Store, room: string, user: string)
    requires StoreInvariant.Inv(s) && user !in S.RoomOf(s, room).cleared
    ensures Delta(s, room, user) == Get(S.RoomOf(s, room).wallets, user) - Get(S.RoomOf(s, room).opening, user)
  {
    assert RoomOk(s, room);
    assert Uncleared(S.RoomOf(s, room), user);
  }

  lemma DeltaIsMoved(s: S.Store, room: string, user: string)
    requires StoreInvariant.Inv(s)
    ensures Delta(s, room, user) == Moved(s, WalletIn(room, user))
  {
    assert RoomOk(s, room);
    assert Explained(s, room, user);
  }

  /**
   * In every reachable state whose outbox keys are distinct: what a user won or lost in a room is
   * the user's ledger balance for it, plus what outbox entries that are not yet in the ledger
   * will move.
   */
  lemma Reconciliation(hash: string -> nat, states: seq<System>, steps: seq<Step>, n: nat, room: string, user: string)
    requires Run(hash, states, steps) && n < |states| && DistinctEventKeys(states[n].store.outbox)
    ensures var y, v := states[n], WalletIn(room, user);
            && Delta(y.store, room, user) ==
                 Balance(y.worker.book, v) + SumBy(y.store.outbox, Outstanding(y.worker.book, v))
            && var r := S.RoomOf(y.store, room);
               user !in r.cleared ==> Delta(y.store, room, user) == Get(r.wallets, user) - Get(r.opening, user)
  {
    EveryStateIsOk(hash, states, steps, n);
    var y, v := states[n], WalletIn(room, user);
    LedgerComesFromOutbox(y);
    var origin :| PostedFrom(y.worker.book, y.store.outbox, origin);
    DeltaIsMoved(y.store, room, user);
    BalancePlusOutstanding(y.worker.book, y.store.outbox, origin, v);
    if user !in S.RoomOf(y.store, room).cleared {
      DeltaOfUncleared(y.store, room, user);
    }
  }

  // ---------- drained ----------

  /** Nothing is left to relay and nothing is left to post. */
  ghost predicate Drained(y: System)
  {
    && y.group.delivered == |y.store.outbox| && y.group.pending == map[]
    && |y.worker.committed| == |y.worker.logs|
    && forall p :: 0 <= p < |y.worker.logs| ==> y.worker.committed[p] == |y.worker.logs[p]|
  }

  /** A drained pipeline has every outbox key in the ledger. */
  lemma DrainedIsPosted(y: System, i: nat)
    requires Inv(y) && W.CommitSafe(y.worker) && Drained(y) && i < |y.store.outbox|
    ensures y.store.outbox[i].key in y.worker.book
  {
    R.NothingLost(y.group, |y.store.outbox|);
    assert i in y.group.log;
    assert InLogs(y.worker.logs, y.store.outbox[i]);
    W.CommittedMeansPosted(y.worker);
  }

  lemma {:induction false} NothingOutstanding(book: Book, evs: seq<Event>, v: View)
    requires forall i :: 0 <= i < |evs| ==> evs[i].key in book
    ensures SumBy(evs, Outstanding(book, v)) == 0
  {
    if evs != [] { NothingOutstanding(book, evs[..|evs| - 1], v); }
  }

  lemma {:induction false} FullBookBalance(book: Book, evs: seq<Event>, origin: map<string, nat>, v: View)
    requires PostedFrom(book, evs, origin) && DistinctEventKeys(evs)
    requires forall i :: 0 <= i < |evs| ==> evs[i].key in book
    ensures Balance(book, v) == SumBy(evs, EffectOn(v))
  {
    BalancePlusOutstanding(book, evs, origin, v);
    NothingOutstanding(book, evs, v);
  }

  /** Once drained, with distinct keys, a ledger balance is the sum of the outbox's effects. */
  lemma DrainedBalance(y: System, v: View)
    requires Inv(y) && W.CommitSafe(y.worker) && Drained(y) && DistinctEventKeys(y.store.outbox)
    ensures Balance(y.worker.book, v) == Moved(y.store, v)
  {
    forall i | 0 <= i < |y.store.outbox| { DrainedIsPosted(y, i); }
    LedgerComesFromOutbox(y);
    var origin :| PostedFrom(y.worker.book, y.store.outbox, origin);
    FullBookBalance(y.worker.book, y.store.outbox, origin, v);
  }

  ghost predicate AllEnded(s: S.Store, room: string)
  {
    forall id :: id in s.rounds && s.rounds[id].room == room ==> S.IsTerminal(s.rounds[id].status)
  }

  lemma {:induction false} SumOfZeroFields<K>(m: map<K, int>)
    requires forall k :: k in m ==> m[k] == 0
    ensures MapSum(m) == 0
    decreases |m.Keys|
  {
    if m != map[] {
      var k :| k in m;
      MapSumRemove(m, k);
      assert (m - {k}).Keys == m.Keys - {k};
      SumOfZeroFields(m - {k});
    }
  }

  /**
   * Once the pipeline is drained, by a run that lost nothing, with distinct keys: every user's
   * winnings are the user's ledger balance, the room's dust account holds what settlements left
   * over, and its pool account holds the live pools, which is nothing when all its rounds have ended.
   */
  lemma DrainedReconciles(hash: string -> nat, states: seq<System>, steps: seq<Step>, n: nat, room: string)
    requires Run(hash, states, steps) && n < |states| && LosesNothing(states, steps)
    requires Drained(states[n]) && DistinctEventKeys(states[n].store.outbox)
    ensures var y := states[n];
            && (forall user :: Delta(y.store, room, user) == Balance(y.worker.book, WalletIn(room, user)))
            && Balance(y.worker.book, PoolIn(room)) == Live(y.store, room)
            && (AllEnded(y.store, room) ==> Balance(y.worker.book, PoolIn(room)) == 0)
            && Balance(y.worker.book, DustIn(room)) == Moved(y.store, DustIn(room))
  {
    EveryStateIsOk(hash, states, steps, n);
    CommitsAreSafe(hash, states, steps, n);
    var y := states[n];
    forall user ensures Delta(y.store, room, user) == Balance(y.worker.book, WalletIn(room, user)) {
      DeltaIsMoved(y.store, room, user);
      DrainedBalance(y, WalletIn(room, user));
    }
    DrainedBalance(y, PoolIn(room));
    DrainedBalance(y, DustIn(room));
    assert RoomOk(y.store, room);
    if AllEnded(y.store, room) {
      SumOfZeroFields(PendingMap(y.store.rounds, room));
    }
  }

  // ---------- reused keys ----------

  lemma {:induction false} MissedWagers(evs: seq<Event>, origin: map<string, nat>, v: View, n: nat)
    requires n <= |evs| && v.WalletIn?
    requires forall i :: 0 <= i < n && !IsOrigin(evs, origin, i) ==> evs[i].WagerPlaced? && evs[i].amount > 0
    ensures Missed(evs, origin, v, n) <= 0
    ensures forall i :: 0 <= i < n && !IsOrigin(evs, origin, i) && v == WalletIn(evs[i].room, evs[i].user)
              ==> Missed(evs, origin, v, n) < 0
  {
    if n > 0 { MissedWagers(evs, origin, v, n - 1); }
  }

  lemma OnlyWagersAreMissed(y: System, origin: map<string, nat>, i: nat)
    requires Inv(y) && W.CommitSafe(y.worker) && Drained(y) && i < |y.store.outbox|
    requires PostedFrom(y.worker.book, y.store.outbox, origin) && !IsOrigin(y.store.outbox, origin, i)
    ensures y.store.outbox[i].WagerPlaced? && y.store.outbox[i].amount > 0
  {
    DrainedIsPosted(y, i);
    var ev := y.store.outbox[i];
    var j := origin[ev.key];
    assert y.store.outbox[j].key == ev.key && j != i;
    assert KeysOk(y.store) && EventOk(y.store, ev);
  }

  lemma MissedWagerShows(book: Book, evs: seq<Event>, origin: map<string, nat>, n: nat)
    requires PostedFrom(book, evs, origin) && n < |evs| && !IsOrigin(evs, origin, n)
    requires forall i :: 0 <= i < |evs| && !IsOrigin(evs, origin, i) ==> evs[i].WagerPlaced? && evs[i].amount > 0
    ensures var v := WalletIn(evs[n].room, evs[n].user); SumBy(evs, EffectOn(v)) < Balance(book, v)
  {
    var v := WalletIn(evs[n].room, evs[n].user);
    MissedWagers(evs, origin, v, |evs|);
    BalanceIsTotalLessMissed(book, evs, origin, v);
  }

  /** Redis says less than the ledger for whoever placed this wager. */
  ghost predicate Undercharged(y: System, n: nat)
  {
    && n < |y.store.outbox| && y.store.outbox[n].WagerPlaced?
    && var room, user := y.store.outbox[n].room, y.store.outbox[n].user;
       Delta(y.store, room, user) < Balance(y.worker.book, WalletIn(room, user))
  }

  /** When two outbox entries share a key, one of them is a wager that the ledger never charged. */
  lemma SharedKeyBreaksIt(y: System, i: nat, j: nat)
    requires Inv(y) && W.CommitSafe(y.worker) && Drained(y)
    requires i < j < |y.store.outbox| && y.store.outbox[i].key == y.store.outbox[j].key
    ensures Undercharged(y, i) || Undercharged(y, j)
  {
    var evs := y.store.outbox;
    LedgerComesFromOutbox(y);
    var origin :| PostedFrom(y.worker.book, evs, origin);
    var n := if IsOrigin(evs, origin, i) then j else i;
    assert !IsOrigin(evs, origin, n);
    AbsorbedIsUndercharged(y, origin, n);
  }

  lemma AbsorbedIsUndercharged(y: System, origin: map<string, nat>, n: nat)
    requires Inv(y) && W.CommitSafe(y.worker) && Drained(y) && n < |y.store.outbox|
    requires PostedFrom(y.worker.book, y.store.outbox, origin) && !IsOrigin(y.store.outbox, origin, n)
    ensures Undercharged(y, n)
  {
    var evs := y.store.outbox;
    forall x | 0 <= x < |evs| && !IsOrigin(evs, origin, x) { OnlyWagersAreMissed(y, origin, x); }
    MissedWagerShows(y.worker.book, evs, origin, n);
    DeltaIsMoved(y.store, evs[n].room, evs[n].user);
  }

  /**
   * Once the pipeline is drained, by a run that lost nothing, Redis and the ledger agree on every
   * user of every room if and only if no idempotency key was used for two wagers.
   */
  lemma DrainedReconcilesIff(hash: string -> nat, states: seq<System>, steps: seq<Step>, n: nat)
    requires Run(hash, states, steps) && n < |states| && LosesNothing(states, steps) && Drained(states[n])
    ensures (forall room, user ::
               Delta(states[n].store, room, user) == Balance(states[n].worker.book, WalletIn(room, user)))
       <==> DistinctEventKeys(states[n].store.outbox)
  {
    EveryStateIsOk(hash, states, steps, n);
    CommitsAreSafe(hash, states, steps, n);
    var y := states[n];
    if DistinctEventKeys(y.store.outbox) {
      forall room, user ensures Delta(y.store, room, user) == Balance(y.worker.book, WalletIn(room, user)) {
        DeltaIsMoved(y.store, room, user);
        DrainedBalance(y, WalletIn(room, user));
      }
    } else {
      var i, j :| 0 <= i < j < |y.store.outbox| && y.store.outbox[i].key == y.store.outbox[j].key;
      SharedKeyBreaksIt(y, i, j);
    }
  }

  // ---------- when the worker halts on its own system's events ----------

  lemma {:induction false} AllMapped(evs: seq<Event>)
    requires forall i :: 0 <= i < |evs| ==> Valid(evs[i]) && TransactionFor(evs[i]).Ok?
    ensures W.MapBatch(evs).Some?
  {
    if evs != [] { AllMapped(evs[..|evs| - 1]); }
  }

  predicate SmallEnough(ev: Event)
  {
    ev.RoundSettled? ==> |ev.payouts| <= MAX_PAYOUTS
  }

  lemma OutboxEventIsSound(y: System, ev: Event)
    requires Inv(y) && ev in y.store.outbox
    ensures Valid(ev) <==> SmallEnough(ev)
    ensures TransactionFor(ev).Ok? && (Valid(ev) ==> Sound(TransactionFor(ev).value))
  {
    assert EventOk(y.store, ev);
    if Valid(ev) { ValidEventsBalance(ev); }
  }

  /**
   * Every batch the worker gathers decodes, maps and satisfies the ledger's constraints if and
   * only if none of its settlements has more than MAX_PAYOUTS payouts; otherwise the worker halts.
   */
  lemma WorkerHaltsIff(hash: string -> nat, states: seq<System>, steps: seq<Step>, n: nat)
    requires Run(hash, states, steps) && n < |states| && W.Enabled(states[n].worker, W.Write(true))
    ensures var w := states[n].worker;
            W.Next(w, W.Write(true)).stage == W.Written
            <==> forall m :: m in w.batch ==> SmallEnough(W.EventAt(w.logs, m))
  {
    EveryStateIsOk(hash, states, steps, n);
    var y, w := states[n], states[n].worker;
    var evs := W.EventsOf(w.logs, w.batch);
    forall m | m in w.batch ensures W.EventAt(w.logs, m) in y.store.outbox {}
    if W.Next(w, W.Write(true)).stage == W.Written {
      W.MapBatchIs(evs);
      forall m | m in w.batch ensures SmallEnough(W.EventAt(w.logs, m)) {
        var i :| 0 <= i < |w.batch| && w.batch[i] == m;
        assert evs[i] == W.EventAt(w.logs, m);
        OutboxEventIsSound(y, evs[i]);
      }
    }
    if forall m :: m in w.batch ==> SmallEnough(W.EventAt(w.logs, m)) {
      forall i | 0 <= i < |evs|
        ensures Valid(evs[i]) && TransactionFor(evs[i]).Ok? && Sound(TransactionFor(evs[i]).value)
      {
        assert w.batch[i] in w.batch && W.EventAt(w.logs, w.batch[i]) == evs[i];
        OutboxEventIsSound(y, evs[i]);
      }
      AllMapped(evs);
      NewRowsAreSound(w.book, evs);
    }
  }

  lemma NewRowsAreSound(book: Book, evs: seq<Event>)
    requires forall i :: 0 <= i < |evs| ==> TransactionFor(evs[i]).Ok? && Sound(TransactionFor(evs[i]).value)
    requires W.MapBatch(evs).Some?
    ensures SoundBeyond(book, Post(book, W.MapBatch(evs).value))
  {
    var txns := W.MapBatch(evs).value;
    W.MapBatchIs(evs);
    W.PostRows(book, txns);
    var after := Post(book, txns);
    forall k | k in after && k !in book ensures Sound(after[k]) {
      assert W.RowOf(txns, k, after[k]);
      var i :| 0 <= i < |txns| && txns[i] == after[k];
      assert W.Explains(evs[i], txns[i].key, txns[i]);
    }
  }
}
