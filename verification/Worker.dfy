/** The ledger worker: fetch messages, post them as one database transaction, then commit their offsets. */
module Worker {
  import opened Base
  import opened Events
  import opened Ledger

  const MAX_BATCH := 100

  datatype Message = Message(partition: nat, offset: nat)

  datatype Stage = Stopped | Fetching | Written

  /**
   * Kafka's partition logs and committed offsets, the consumer's positions, the batch in hand and
   * the ledger. `lost` are the messages this session has fetched and thrown away.
   */
  datatype State = State(
    logs: seq<seq<Event>>, committed: seq<nat>, position: seq<nat>, batch: seq<Message>,
    stage: Stage, lost: set<Message>, book: Book)

  // ---------- offsets ----------

  /** Committing a message moves its partition's offset past it, never back. */
  function CommitOne(offsets: seq<nat>, m: Message): seq<nat>
  {
    if m.partition < |offsets| && offsets[m.partition] <= m.offset
    then offsets[m.partition := m.offset + 1] else offsets
  }

  function CommitAll(offsets: seq<nat>, batch: seq<Message>): (r: seq<nat>)
    ensures |r| == |offsets|
  {
    if batch == [] then offsets else CommitOne(CommitAll(offsets, batch[..|batch| - 1]), batch[|batch| - 1])
  }

  /** A commit that failed may have reached some partitions. */
  function CommitSome(offsets: seq<nat>, batch: seq<Message>, reached: set<nat>): (r: seq<nat>)
    ensures |r| == |offsets|
  {
    var all := CommitAll(offsets, batch);
    seq(|offsets|, p requires 0 <= p < |offsets| => if p in reached then all[p] else offsets[p])
  }

  predicate Has(logs: seq<seq<Event>>, m: Message)
  {
    m.partition < |logs| && m.offset < |logs[m.partition]|
  }

  function EventAt(logs: seq<seq<Event>>, m: Message): Event
    requires Has(logs, m)
  {
    logs[m.partition][m.offset]
  }

  function EventsOf(logs: seq<seq<Event>>, batch: seq<Message>): seq<Event>
    requires forall m :: m in batch ==> Has(logs, m)
  {
    seq(|batch|, i requires 0 <= i < |batch| => EventAt(logs, batch[i]))
  }

  // ---------- mapping a batch ----------

  /** DecodeMessage and TransactionFor over the batch; the first message that fails stops the worker. */
  function MapBatch(evs: seq<Event>): Option<seq<Transaction>>
  {
    if evs == [] then Some([]) else
    var front, ev := MapBatch(evs[..|evs| - 1]), evs[|evs| - 1];
    if front.None? || !Valid(ev) || TransactionFor(ev).Err? then None
    else Some(front.value + [TransactionFor(ev).value])
  }

  // ---------- the worker's steps ----------

  // A crash may come between any two steps, and a write or a commit may fail. `Drop` is the fetch
  // error that throws away a half-gathered batch and lets the session carry on.

  datatype Step =
    | Append(partition: nat, ev: Event)
    | Start
    | Fetch(partition: nat)
    | Drop
    | Write(up: bool)
    | Commit
    | FailCommit(reached: set<nat>)
    | Crash

  predicate Enabled(w: State, step: Step)
  {
    match step
    case Append(p, _) => p < |w.logs|
    case Start => w.stage == Stopped
    case Fetch(p) =>
      && w.stage == Fetching && |w.batch| < MAX_BATCH && p < |w.position|
      && Has(w.logs, Message(p, w.position[p]))
    case Drop => w.stage == Fetching && 0 < |w.batch| < MAX_BATCH
    case Write(_) => w.stage == Fetching && w.batch != [] && forall m :: m in w.batch ==> Has(w.logs, m)
    case Commit => w.stage == Written
    case FailCommit(_) => w.stage == Written
    case Crash => true
  }

  ghost function AfterWrite(w: State, up: bool): State
    requires forall m :: m in w.batch ==> Has(w.logs, m)
  {
    var txns := MapBatch(EventsOf(w.logs, w.batch));
    if up && txns.Some? && SoundBeyond(w.book, Post(w.book, txns.value))
    then w.(book := Post(w.book, txns.value), stage := Written)
    else w.(stage := Stopped)
  }

  ghost function Next(w: State, step: Step): State
    requires Enabled(w, step)
  {
    match step
    case Append(p, ev) => w.(logs := w.logs[p := w.logs[p] + [ev]])
    case Start => w.(position := w.committed, batch := [], stage := Fetching, lost := {})
    case Fetch(p) =>
      w.(batch := w.batch + [Message(p, w.position[p])], position := w.position[p := w.position[p] + 1])
    case Drop => w.(batch := [], lost := w.lost + set m | m in w.batch)
    case Write(up) => AfterWrite(w, up)
    case Commit => w.(committed := CommitAll(w.committed, w.batch), batch := [], stage := Fetching)
    case FailCommit(reached) => w.(committed := CommitSome(w.committed, w.batch, reached), stage := Stopped)
    case Crash => w.(stage := Stopped)
  }

  // ---------- what is kept ----------

  ghost predicate Posted(w: State, m: Message)
  {
    Has(w.logs, m) && EventAt(w.logs, m).key in w.book
  }

  /** Every message below a committed offset has its key in the ledger. */
  ghost predicate CommitSafe(w: State)
  {
    forall m: Message :: m.partition < |w.committed| && m.offset < w.committed[m.partition] ==> Posted(w, m)
  }

  ghost predicate Shaped(w: State)
  {
    && |w.committed| == |w.position| == |w.logs|
    && (forall p :: 0 <= p < |w.logs| ==> w.committed[p] <= w.position[p] <= |w.logs[p]|)
  }

  ghost predicate BatchOk(w: State)
  {
    forall m :: m in w.batch ==>
      && Has(w.logs, m) && m.partition < |w.position| && m.offset < w.position[m.partition]
      && (w.stage == Written ==> Posted(w, m))
  }

  /** What was fetched and not committed is in the batch, or was thrown away. */
  ghost predicate NoneSkipped(w: State)
  {
    w.stage != Stopped ==> forall m: Message :: Uncommitted(w, m) ==> m in w.batch || m in w.lost
  }

  predicate Uncommitted(w: State, m: Message)
  {
    && m.partition < |w.position| && m.partition < |w.committed|
    && w.committed[m.partition] <= m.offset < w.position[m.partition]
  }

  /** Every row of the ledger was posted from a message that is in some partition. */
  ghost predicate Sourced(w: State)
  {
    forall k :: k in w.book ==> exists m: Message :: Has(w.logs, m) && Explains(EventAt(w.logs, m), k, w.book[k])
  }

  ghost predicate Explains(ev: Event, k: string, t: Transaction)
  {
    ev.key == k && Valid(ev) && TransactionFor(ev) == Ok(t)
  }

  ghost predicate Inv(w: State)
  {
    Shaped(w) && BatchOk(w) && NoneSkipped(w) && Sourced(w)
  }

  lemma {:induction false} CommitAllIs(offsets: seq<nat>, batch: seq<Message>, p: nat)
    requires p < |offsets|
    ensures var c := CommitAll(offsets, batch)[p];
            && c >= offsets[p] && (forall m :: m in batch && m.partition == p ==> m.offset < c)
            && (c == offsets[p] || (c > offsets[p] && Message(p, c - 1) in batch))
  {
    if batch != [] {
      var n := |batch| - 1;
      CommitAllIs(offsets, batch[..n], p);
      assert batch == batch[..n] + [batch[n]];
    }
  }

  /** A partition's logs only grow at the end. */
  ghost predicate Grown(logs: seq<seq<Event>>, logs': seq<seq<Event>>)
  {
    |logs| == |logs'| && forall p :: 0 <= p < |logs| ==> logs[p] <= logs'[p]
  }

  lemma GrownKeeps(w: State, w': State)
    requires Grown(w.logs, w'.logs) && w.book.Keys <= w'.book.Keys
    ensures forall m: Message :: Has(w.logs, m) ==> Has(w'.logs, m) && EventAt(w'.logs, m) == EventAt(w.logs, m)
    ensures forall m: Message :: Posted(w, m) ==> Posted(w', m)
  {
  }

  lemma SourcedKeeps(w: State, w': State)
    requires Sourced(w) && Grown(w.logs, w'.logs) && w'.book == w.book
    ensures Sourced(w')
  {
    GrownKeeps(w, w');
    forall k | k in w'.book
      ensures exists m: Message :: Has(w'.logs, m) && Explains(EventAt(w'.logs, m), k, w'.book[k])
    {
      var m: Message :| Has(w.logs, m) && Explains(EventAt(w.logs, m), k, w.book[k]);
      assert Has(w'.logs, m);
    }
  }

  lemma {:induction false} MapBatchIs(evs: seq<Event>)
    requires MapBatch(evs).Some?
    ensures var txns := MapBatch(evs).value;
            |txns| == |evs| && forall i :: 0 <= i < |evs| ==> Explains(evs[i], txns[i].key, txns[i])
  {
    if evs != [] {
      MapBatchIs(evs[..|evs| - 1]);
    }
  }

  /** Where the rows of the book after a batch come from. */
  lemma {:induction false} PostRows(book: Book, txns: seq<Transaction>)
    ensures forall k :: k in book ==> k in Post(book, txns) && Post(book, txns)[k] == book[k]
    ensures forall j :: 0 <= j < |txns| ==> txns[j].key in Post(book, txns)
    ensures forall k :: k in Post(book, txns) ==> k in book || RowOf(txns, k, Post(book, txns)[k])
  {
    if txns != [] {
      var n := |txns| - 1;
      PostRows(book, txns[..n]);
      assert txns[n] in txns;
      forall k | k in Post(book, txns) && k !in book ensures RowOf(txns, k, Post(book, txns)[k]) {
        if k in Post(book, txns[..n]) {
          assert RowOf(txns[..n], k, Post(book, txns[..n])[k]);
        }
      }
    }
  }

  ghost predicate RowOf(txns: seq<Transaction>, k: string, t: Transaction)
  {
    t in txns && t.key == k
  }

  lemma WritePosts(w: State, txns: seq<Transaction>)
    requires BatchOk(w) && (forall m :: m in w.batch ==> Has(w.logs, m))
    requires MapBatch(EventsOf(w.logs, w.batch)) == Some(txns)
    ensures forall m :: m in w.batch ==> EventAt(w.logs, m).key in Post(w.book, txns)
    ensures w.book.Keys <= Post(w.book, txns).Keys
  {
    var evs := EventsOf(w.logs, w.batch);
    MapBatchIs(evs);
    PostRows(w.book, txns);
    forall m | m in w.batch ensures EventAt(w.logs, m).key in Post(w.book, txns) {
      var i :| 0 <= i < |w.batch| && w.batch[i] == m;
      assert evs[i] == EventAt(w.logs, m) && txns[i].key in Post(w.book, txns);
    }
  }

  lemma WriteKeeps(w: State, up: bool)
    requires Inv(w) && Enabled(w, Write(up))
    ensures Inv(Next(w, Write(up))) && w.book.Keys <= Next(w, Write(up)).book.Keys
  {
    var w' := Next(w, Write(up));
    if w'.stage == Written {
      var txns := MapBatch(EventsOf(w.logs, w.batch)).value;
      WritePosts(w, txns);
      NewRowsSourced(w, w', EventsOf(w.logs, w.batch), txns);
    } else {
      SourcedKeeps(w, w');
    }
  }

  lemma NewRowsSourced(w: State, w': State, evs: seq<Event>, txns: seq<Transaction>)
    requires Sourced(w) && (forall m :: m in w.batch ==> Has(w.logs, m)) && evs == EventsOf(w.logs, w.batch)
    requires MapBatch(evs) == Some(txns) && w'.book == Post(w.book, txns) && w'.logs == w.logs
    ensures Sourced(w')
  {
    MapBatchIs(evs);
    PostRows(w.book, txns);
    forall k | k in w'.book
      ensures exists m: Message :: Has(w'.logs, m) && Explains(EventAt(w'.logs, m), k, w'.book[k])
    {
      if k in w.book {
        var m: Message :| Has(w.logs, m) && Explains(EventAt(w.logs, m), k, w.book[k]);
        assert Has(w'.logs, m);
      } else {
        assert RowOf(txns, k, w'.book[k]);
        var i :| 0 <= i < |txns| && txns[i] == w'.book[k];
        assert w.batch[i] in w.batch && evs[i] == EventAt(w.logs, w.batch[i]);
      }
    }
  }

  /** Offsets are committed no further than the consumer has read. */
  lemma CommitsStayBehind(w: State, p: nat)
    requires Shaped(w) && BatchOk(w) && p < |w.logs|
    ensures w.committed[p] <= CommitAll(w.committed, w.batch)[p] <= w.position[p]
  {
    CommitAllIs(w.committed, w.batch, p);
  }

  lemma CommitsKeep(w: State, step: Step)
    requires Inv(w) && Enabled(w, step) && (step.Commit? || step.FailCommit?)
    ensures Inv(Next(w, step))
  {
    var w' := Next(w, step);
    forall p | 0 <= p < |w.logs| { CommitsStayBehind(w, p); }
    assert Shaped(w') && BatchOk(w');
    CommitLeavesNone(w, step);
    SourcedKeeps(w, w');
  }

  lemma CommitLeavesNone(w: State, step: Step)
    requires Inv(w) && Enabled(w, step) && (step.Commit? || step.FailCommit?)
    ensures NoneSkipped(Next(w, step))
  {
    var w' := Next(w, step);
    if step.Commit? {
      forall m: Message | Uncommitted(w', m) ensures m in w'.lost {
        CommitAllIs(w.committed, w.batch, m.partition);
        assert Uncommitted(w, m) ==> m in w.batch || m in w.lost;
      }
    }
  }

  lemma FetchKeeps(w: State, p: nat)
    requires Inv(w) && Enabled(w, Fetch(p))
    ensures Inv(Next(w, Fetch(p)))
  {
    var w' := Next(w, Fetch(p));
    SourcedKeeps(w, w');
    forall m: Message | Uncommitted(w', m) ensures m in w'.batch || m in w'.lost {
      assert Uncommitted(w, m) || m == Message(p, w.position[p]);
    }
  }

  lemma AppendKeeps(w: State, p: nat, ev: Event)
    requires Inv(w) && Enabled(w, Append(p, ev))
    ensures Inv(Next(w, Append(p, ev))) && Grown(w.logs, Next(w, Append(p, ev)).logs)
  {
    var w' := Next(w, Append(p, ev));
    GrownKeeps(w, w');
    SourcedKeeps(w, w');
  }

  lemma SessionKeeps(w: State, step: Step)
    requires Inv(w) && Enabled(w, step) && (step.Start? || step.Drop? || step.Crash?)
    ensures Inv(Next(w, step))
  {
    SourcedKeeps(w, Next(w, step));
  }

  lemma StepKeepsInv(w: State, step: Step)
    requires Inv(w) && Enabled(w, step)
    ensures Inv(Next(w, step)) && Grown(w.logs, Next(w, step).logs) && w.book.Keys <= Next(w, step).book.Keys
  {
    match step
    case Append(p, ev) => AppendKeeps(w, p, ev);
    case Fetch(p) => FetchKeeps(w, p);
    case Write(up) => WriteKeeps(w, up);
    case Commit => CommitsKeep(w, step);
    case FailCommit(_) => CommitsKeep(w, step);
    case _ => SessionKeeps(w, step);
  }

  // ---------- when commits are safe ----------

  predicate Reaches(step: Step, p: nat)
  {
    step.Commit? || (step.FailCommit? && p in step.reached)
  }

  /** The step commits past the message. */
  predicate PassesOver(w: State, step: Step, m: Message)
  {
    && Reaches(step, m.partition) && m.partition < |w.committed|
    && w.committed[m.partition] <= m.offset < CommitAll(w.committed, w.batch)[m.partition]
  }

  /** No commit passes over a message that was thrown away and is not in the ledger. */
  ghost predicate LosesNothing(w: State, step: Step)
  {
    forall m :: m in w.lost && PassesOver(w, step, m) ==> Posted(w, m)
  }

  /** What a commit makes of one partition's offset. */
  lemma CommittedBy(w: State, step: Step, p: nat)
    requires Enabled(w, step) && p < |w.committed|
    ensures |Next(w, step).committed| == |w.committed|
    ensures Next(w, step).committed[p] ==
              if Reaches(step, p) then CommitAll(w.committed, w.batch)[p] else w.committed[p]
  {
  }

  lemma SafeStepLosesNothing(w: State, step: Step)
    requires Inv(w) && Enabled(w, step) && (step.Commit? || step.FailCommit?)
    requires CommitSafe(Next(w, step))
    ensures LosesNothing(w, step)
  {
    forall m | m in w.lost && PassesOver(w, step, m) ensures Posted(w, m) {
      CommittedBy(w, step, m.partition);
      assert Posted(Next(w, step), m);
    }
  }

  /** What a commit passes over was in the batch or had been thrown away. */
  lemma PassedOverWasFetched(w: State, step: Step, m: Message)
    requires Inv(w) && w.stage == Written && PassesOver(w, step, m)
    ensures m in w.batch || m in w.lost
  {
    CommitsStayBehind(w, m.partition);
    assert Uncommitted(w, m);
  }

  lemma LosingNothingIsSafe(w: State, step: Step)
    requires Inv(w) && CommitSafe(w) && Enabled(w, step) && (step.Commit? || step.FailCommit?)
    requires LosesNothing(w, step)
    ensures CommitSafe(Next(w, step))
  {
    var w' := Next(w, step);
    forall m: Message | m.partition < |w'.committed| && m.offset < w'.committed[m.partition] ensures Posted(w', m) {
      CommittedBy(w, step, m.partition);
      if m.offset >= w.committed[m.partition] { PassedOverWasFetched(w, step, m); }
      assert Posted(w, m);
    }
  }

  lemma OtherStepIsSafe(w: State, step: Step)
    requires Inv(w) && CommitSafe(w) && Enabled(w, step) && !step.Commit? && !step.FailCommit?
    ensures CommitSafe(Next(w, step))
  {
    var w' := Next(w, step);
    StepKeepsInv(w, step);
    GrownKeeps(w, w');
    assert w'.committed == w.committed;
  }

  /** A step keeps the commits safe exactly when it loses nothing. */
  lemma StepIsSafeIff(w: State, step: Step)
    requires Inv(w) && CommitSafe(w) && Enabled(w, step)
    ensures CommitSafe(Next(w, step)) <==> LosesNothing(w, step)
  {
    if !step.Commit? && !step.FailCommit? {
      OtherStepIsSafe(w, step);
    } else if CommitSafe(Next(w, step)) {
      SafeStepLosesNothing(w, step);
    } else if LosesNothing(w, step) {
      LosingNothingIsSafe(w, step);
    }
  }

  // ---------- runs ----------

  ghost predicate StepAt(states: seq<State>, steps: seq<Step>, i: nat)
    requires |states| == |steps| + 1 && i < |steps|
  {
    Enabled(states[i], steps[i]) && states[i + 1] == Next(states[i], steps[i])
  }

  function Fresh(partitions: nat): State
  {
    State(seq(partitions, _ => []), seq(partitions, _ => 0), seq(partitions, _ => 0), [], Stopped, {}, map[])
  }

  ghost predicate Run(partitions: nat, states: seq<State>, steps: seq<Step>)
  {
    Steps(states, steps) && states[0] == Fresh(partitions)
  }

  ghost predicate Steps(states: seq<State>, steps: seq<Step>)
  {
    |states| == |steps| + 1 && forall i :: 0 <= i < |steps| ==> StepAt(states, steps, i)
  }

  lemma {:induction false} EveryStateIsOk(partitions: nat, states: seq<State>, steps: seq<Step>, n: nat)
    requires Run(partitions, states, steps) && n < |states|
    ensures Inv(states[n])
  {
    if n > 0 {
      EveryStateIsOk(partitions, states, steps, n - 1);
      assert StepAt(states, steps, n - 1);
      StepKeepsInv(states[n - 1], steps[n - 1]);
    }
  }

  lemma {:induction false} SafeUpTo(partitions: nat, states: seq<State>, steps: seq<Step>, n: nat)
    requires Run(partitions, states, steps) && n < |states|
    requires forall i :: 0 <= i < |steps| ==> LosesNothing(states[i], steps[i])
    ensures CommitSafe(states[n])
  {
    if n > 0 {
      SafeUpTo(partitions, states, steps, n - 1);
      EveryStateIsOk(partitions, states, steps, n - 1);
      assert StepAt(states, steps, n - 1);
      StepIsSafeIff(states[n - 1], steps[n - 1]);
    }
  }

  /**
   * Over all runs, with crashes between any two steps: every message below a committed offset is
   * in the ledger, throughout the run, exactly when no commit passes over a message that a fetch
   * error threw away in the same session and that is not in the ledger.
   */
  lemma RunIsSafeIff(partitions: nat, states: seq<State>, steps: seq<Step>)
    requires Run(partitions, states, steps)
    ensures (forall n :: 0 <= n < |states| ==> CommitSafe(states[n]))
       <==> (forall i :: 0 <= i < |steps| ==> LosesNothing(states[i], steps[i]))
  {
    if forall n :: 0 <= n < |states| ==> CommitSafe(states[n]) {
      forall i | 0 <= i < |steps| ensures LosesNothing(states[i], steps[i]) {
        EveryStateIsOk(partitions, states, steps, i);
        assert StepAt(states, steps, i) && CommitSafe(states[i]) && CommitSafe(states[i + 1]);
        StepIsSafeIff(states[i], steps[i]);
      }
    }
    if forall i :: 0 <= i < |steps| ==> LosesNothing(states[i], steps[i]) {
      forall n | 0 <= n < |states| { SafeUpTo(partitions, states, steps, n); }
    }
  }

  /** No commit happens in a session that dropped a batch: such a session is restarted first. */
  ghost predicate EndsOnDrop(states: seq<State>, steps: seq<Step>)
    requires |states| == |steps| + 1
  {
    forall i :: 0 <= i < |steps| && (steps[i].Commit? || steps[i].FailCommit?) ==> states[i].lost == {}
  }

  /** If a session that dropped messages never commits again, commits are always safe. */
  lemma CommitSafety(partitions: nat, states: seq<State>, steps: seq<Step>, n: nat)
    requires Run(partitions, states, steps) && EndsOnDrop(states, steps) && n < |states|
    ensures CommitSafe(states[n])
  {
    forall i | 0 <= i < |steps| ensures LosesNothing(states[i], steps[i]) {
      EveryStateIsOk(partitions, states, steps, i);
      assert StepAt(states, steps, i);
    }
    SafeUpTo(partitions, states, steps, n);
  }

  /** Once everything is committed, everything is in the ledger. */
  lemma CommittedMeansPosted(w: State)
    requires Shaped(w) && CommitSafe(w) && forall p :: 0 <= p < |w.logs| ==> w.committed[p] == |w.logs[p]|
    ensures forall m: Message :: Has(w.logs, m) ==> EventAt(w.logs, m).key in w.book
  {
    forall m: Message | Has(w.logs, m) ensures EventAt(w.logs, m).key in w.book {
      assert Posted(w, m);
    }
  }

  // ---------- the session that drops a batch and carries on ----------

  ghost predicate Moves(w: State, step: Step, w': State)
  {
    Enabled(w, step) && w' == Next(w, step)
  }

  /** One message is next at `p`, another follows it, and the ledger lacks the first and would accept the second. */
  ghost predicate TwoWaiting(w: State, p: nat)
  {
    && w.stage == Fetching && w.batch == [] && p < |w.logs| == |w.position| && w.position[p] + 1 < |w.logs[p]|
    && w.logs[p][w.position[p]].key !in w.book && w.logs[p][w.position[p]].key != w.logs[p][w.position[p] + 1].key
    && Valid(w.logs[p][w.position[p] + 1]) && TransactionFor(w.logs[p][w.position[p] + 1]).Ok?
  }

  /** The worker is restarted past a message that the ledger does not have. */
  ghost predicate Lost(w: State, p: nat, w': State)
    requires TwoWaiting(w, p)
  {
    && w'.stage == Fetching && w'.logs == w.logs && |w'.position| == |w.position| && w'.position[p] > w.position[p]
    && w'.book == PostOne(w.book, TransactionFor(w.logs[p][w.position[p] + 1]).value) && !CommitSafe(w')
  }

  /** Fetch, the error, and the next fetch. */
  ghost predicate Drops(w: State, p: nat, w': State)
  {
    exists w1, w2 :: Moves(w, Fetch(p), w1) && Moves(w1, Drop, w2) && Moves(w2, Fetch(p), w')
  }

  /** Write, commit, and a restart. */
  ghost predicate CarriesOn(w: State, w': State)
  {
    exists w1, w2, w3 :: Moves(w, Write(true), w1) && Moves(w1, Commit, w2) && Moves(w2, Crash, w3)
      && Moves(w3, Start, w')
  }

  /**
   * A fetch error in mid-batch does not end the session: the messages in hand are gone, the next
   * batch commits past them, and they never reach the ledger, not even after a restart.
   */
  lemma DropLosesMessages(w: State, p: nat)
    requires Inv(w) && TwoWaiting(w, p)
    ensures exists w1, w2 :: Drops(w, p, w1) && CarriesOn(w1, w2) && Lost(w, p, w2)
  {
    var w1 := AfterDrop(w, p);
    DropSkips(w, p);
    OneMessagePosts(w1, Message(p, w.position[p] + 1));
    var w2 := Next(w1, Write(true));
    CommitPasses(w2, Message(p, w.position[p] + 1));
    RestartCarriesOn(w1);
    assert Lost(w, p, Restarted(w2));
  }

  /** A run of one partition that ends where two messages wait. */
  ghost predicate EndsWaiting(states: seq<State>, steps: seq<Step>)
  {
    Run(1, states, steps) && TwoWaiting(states[|steps|], 0)
  }

  /** Any two events with different keys, the second of which can be posted, can come to wait like that. */
  lemma TwoCanWait(first: Event, second: Event)
    requires first.key != second.key && Valid(second) && TransactionFor(second).Ok?
    ensures exists states, steps :: EndsWaiting(states, steps)
  {
    var w0 := Fresh(1);
    var w1 := w0.(logs := [[first]]);
    var w2 := w0.(logs := [[first, second]]);
    var w3 := w2.(stage := Fetching);
    assert w0.logs[0] == [] && [] + [first] == [first] && [first] + [second] == [first, second];
    assert w0.logs[0 := [first]] == w1.logs && w1.logs[0 := [first, second]] == w2.logs;
    var states, steps := [w0, w1, w2, w3], [Append(0, first), Append(0, second), Start];
    assert forall i :: 0 <= i < |steps| ==> StepAt(states, steps, i);
    assert EndsWaiting(states, steps);
  }

  function AfterDrop(w: State, p: nat): State
    requires TwoWaiting(w, p)
  {
    w.(position := w.position[p := w.position[p] + 2], batch := [Message(p, w.position[p] + 1)],
       lost := w.lost + {Message(p, w.position[p])})
  }

  lemma DropSkips(w: State, p: nat)
    requires TwoWaiting(w, p)
    ensures Drops(w, p, AfterDrop(w, p))
  {
    var w1 := Next(w, Fetch(p));
    var w2 := Next(w1, Drop);
    assert Moves(w, Fetch(p), w1) && Moves(w1, Drop, w2);
    assert Moves(w2, Fetch(p), AfterDrop(w, p));
  }

  lemma RestartCarriesOn(w: State)
    requires Enabled(w, Write(true)) && Next(w, Write(true)).stage == Written
    ensures CarriesOn(w, Restarted(Next(w, Write(true))))
  {
    var w1 := Next(w, Write(true));
    var w2 := Next(w1, Commit);
    assert Moves(w, Write(true), w1) && Moves(w1, Commit, w2) && Moves(w2, Crash, Next(w2, Crash));
    assert Moves(Next(w2, Crash), Start, Restarted(w1));
  }

  ghost function Restarted(w: State): State
    requires w.stage == Written
  {
    Next(Next(Next(w, Commit), Crash), Start)
  }

  lemma CommitPasses(w: State, m: Message)
    requires w.stage == Written && w.batch == [m] && Has(w.logs, m) && m.offset > 0
    requires |w.committed| == |w.logs| && w.committed[m.partition] <= m.offset
    requires EventAt(w.logs, Message(m.partition, m.offset - 1)).key !in w.book
    ensures var w' := Restarted(w);
            && w'.stage == Fetching && w'.logs == w.logs && w'.book == w.book && !CommitSafe(w')
            && |w'.position| == |w.committed| && w'.position[m.partition] == m.offset + 1
  {
    CommitAllIs(w.committed, [m], m.partition);
    assert m in [m];
    assert !Posted(Restarted(w), Message(m.partition, m.offset - 1));
  }

  lemma OneMessagePosts(w: State, m: Message)
    requires w.batch == [m] && w.stage == Fetching && Has(w.logs, m)
    requires Valid(EventAt(w.logs, m)) && TransactionFor(EventAt(w.logs, m)).Ok?
    ensures Enabled(w, Write(true))
    ensures Next(w, Write(true)) ==
            w.(book := PostOne(w.book, TransactionFor(EventAt(w.logs, m)).value), stage := Written)
  {
    var ev := EventAt(w.logs, m);
    var t := TransactionFor(ev).value;
    ValidEventsBalance(ev);
    assert EventsOf(w.logs, [m]) == [ev];
    OneIsMapped(ev);
    OneIsPosted(w.book, t);
  }

  lemma OneIsMapped(ev: Event)
    requires Valid(ev) && TransactionFor(ev).Ok?
    ensures MapBatch([ev]) == Some([TransactionFor(ev).value])
  {
    assert [ev][..0] == [];
    assert [] + [TransactionFor(ev).value] == [TransactionFor(ev).value];
  }

  lemma OneIsPosted(book: Book, t: Transaction)
    ensures Post(book, [t]) == PostOne(book, t)
  {
    assert [t][..0] == [];
  }
}
