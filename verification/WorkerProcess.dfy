/**
 * The worker's loop: gather a batch, map it, write it, commit it. Each part is a method on the
 * worker's fields that does what steps of `Worker` do, in the source's order, and returns where the
 * source returns an error; the ledger it writes to is a `Ledger.Repo`. What the broker and the
 * database answer is given in advance, call by call, and arbitrary. A worker that stopped with an
 * error can be started again from the state it left.
 */
module WorkerProcess {
  import opened Base
  import opened Events
  import opened Ledger
  import opened Worker

  datatype FetchResult = Got(message: Message) | DeadlineExceeded | Canceled | FetchFailed

  datatype WorkerError = BadMessage(at: Message) | WriteFailed | CommitFailed

  /** The broker's answer to a fetch: the next message of a partition, or how the wait for one ended. */
  datatype Answer = Deliver(partition: nat) | Expire | Cancel | Break

  /** The answer to a commit: done, or an error after it reached some partitions. */
  datatype Committed = AllCommitted | CommittedTo(partitions: set<nat>)

  /** What a fetch returns; a partition with nothing left has the wait for it expire. */
  function ResultOf(a: Answer, logs: seq<seq<Event>>, position: seq<nat>): FetchResult
  {
    match a
    case Deliver(p) =>
      if p < |logs| && p < |position| && position[p] < |logs[p]| then Got(Message(p, position[p])) else DeadlineExceeded
    case Expire => DeadlineExceeded
    case Cancel => Canceled
    case Break => FetchFailed
  }

  /** The consumer's positions after a fetch. */
  function After(position: seq<nat>, r: FetchResult): seq<nat>
  {
    if r.Got? && r.message.partition < |position|
    then position[r.message.partition := r.message.offset + 1] else position
  }

  /** The `i`th of some fetches was answered from where the fetches before it had got to. */
  ghost predicate Fetches(w: Wire, positions: seq<seq<nat>>, rs: seq<FetchResult>, i: nat)
    requires |positions| == |rs| + 1 && i < |rs|
  {
    && rs[i] == ResultOf(w.broker(w.from + i), w.logs, positions[i])
    && positions[i + 1] == After(positions[i], rs[i])
  }

  /** The broker as it answers from one call on. */
  datatype Wire = Wire(broker: nat -> Answer, logs: seq<seq<Event>>, from: nat)

  /** These are the results of fetches made one after the other, and the positions in between. */
  ghost predicate Fetched(w: Wire, positions: seq<seq<nat>>, rs: seq<FetchResult>)
  {
    |positions| == |rs| + 1 && forall i :: 0 <= i < |rs| ==> Fetches(w, positions, rs, i)
  }

  /** These are the messages that the fetches returned, in order. */
  ghost predicate AreMessages(batch: seq<Message>, rs: seq<FetchResult>)
  {
    |batch| == |rs| && forall i :: 0 <= i < |rs| ==> rs[i] == Got(batch[i])
  }

  ghost function Messages(rs: seq<FetchResult>): set<Message>
  {
    set i | 0 <= i < |rs| && rs[i].Got? :: rs[i].message
  }

  /**
   * What is made of the results of a window's fetches, of which all but the last are messages: the
   * window ends when the batch is full, when the first fetch brings nothing, when time is up or the
   * worker is told to stop, and at a fetch error, which costs the messages in hand.
   */
  ghost predicate Gathered(rs: seq<FetchResult>, batch: seq<Message>, ok: bool)
  {
    && 0 < |rs| <= MAX_BATCH && (forall i :: 0 <= i < |rs| - 1 ==> rs[i].Got?)
    && var last, n := rs[|rs| - 1], |rs| - 1;
       if last.Got? then |rs| == MAX_BATCH && ok && AreMessages(batch, rs)
       else if n == 0 then ok && batch == []
       else if last != FetchFailed then ok && AreMessages(batch, rs[..n])
       else !ok && batch == []
  }

  class Process {
    const logs: seq<seq<Event>>
    const repo: Repo
    /** What the calls will be answered, and how many were made. */
    const broker: nat -> Answer
    const database: nat -> bool
    const offsets: nat -> Committed
    var fetches: nat
    var writes: nat
    var commits: nat
    var committed: seq<nat>
    var position: seq<nat>
    /** What this session has fetched and thrown away. */
    ghost var lost: set<Message>

    constructor (logs: seq<seq<Event>>, repo: Repo, committed: seq<nat>, broker: nat -> Answer, database: nat -> bool,
                 offsets: nat -> Committed)
      ensures this.logs == logs && this.repo == repo && this.committed == committed && position == committed
      ensures this.broker == broker && this.database == database && this.offsets == offsets
      ensures lost == {} && fetches == writes == commits == 0
    {
      this.logs, this.repo, this.committed, this.position, this.lost := logs, repo, committed, committed, {};
      this.broker, this.database, this.offsets, fetches, writes, commits := broker, database, offsets, 0, 0, 0;
    }

    ghost function Now(batch: seq<Message>, stage: Stage): State
      reads this, repo
    {
      State(logs, committed, position, batch, stage, lost, repo.transactions)
    }

    /** The next message of some partition, or one of the ways a fetch can end without one. */
    method Fetch(ghost batch: seq<Message>) returns (r: FetchResult)
      requires Inv(Now(batch, Fetching)) && |batch| < MAX_BATCH
      modifies this`position, this`fetches
      ensures fetches == old(fetches) + 1 && r == ResultOf(broker(old(fetches)), logs, old(position))
      ensures r.Got? <==> var a := broker(old(fetches));
                          a.Deliver? && a.partition < |logs| && old(position)[a.partition] < |logs[a.partition]|
      ensures r.Got? ==> var p := broker(old(fetches)).partition;
                         && r.message == Message(p, old(position)[p])
                         && position == old(position)[p := old(position)[p] + 1]
                         && Enabled(old(Now(batch, Fetching)), Step.Fetch(p))
                         && Now(batch + [r.message], Fetching) == Next(old(Now(batch, Fetching)), Step.Fetch(p))
      ensures !r.Got? ==> position == old(position)
    {
      var answer := broker(fetches);
      fetches := fetches + 1;
      match answer {
        case Deliver(p) =>
          if p < |logs| && position[p] < |logs[p]| {
            r := Got(Message(p, position[p]));
            position := position[p := position[p] + 1];
          } else {
            r := DeadlineExceeded;
          }
        case Expire => r := DeadlineExceeded;
        case Cancel => r := Canceled;
        case Break => r := FetchFailed;
      }
    }

    /** CommitMessages: all of the batch, or an error after reaching some partitions. */
    method CommitMessages(batch: seq<Message>) returns (ok: bool)
      modifies this`committed, this`commits
      ensures commits == old(commits) + 1 && (ok <==> offsets(old(commits)).AllCommitted?)
      ensures committed == if ok then CommitAll(old(committed), batch)
                           else CommitSome(old(committed), batch, offsets(old(commits)).partitions)
    {
      var answer := offsets(commits);
      commits := commits + 1;
      var all := committed;
      for i := 0 to |batch|
        invariant all == CommitAll(committed, batch[..i])
      {
        assert batch[..i + 1][..i] == batch[..i];
        all := CommitOne(all, batch[i]);
      }
      assert batch[..|batch|] == batch;
      ok := answer.AllCommitted?;
      if ok {
        committed := all;
      } else {
        var before, reached := committed, answer.partitions;
        committed := seq(|before|, p requires 0 <= p < |before| => if p in reached then all[p] else before[p]);
        assert committed == CommitSome(before, batch, reached);
      }
    }

    /** Decode, validate and map every message. */
    method Map(batch: seq<Message>) returns (r: Result<seq<Transaction>, WorkerError>)
      requires forall m :: m in batch ==> Has(logs, m)
      ensures r.Ok? <==> MapBatch(EventsOf(logs, batch)).Some?
      ensures r.Ok? ==> MapBatch(EventsOf(logs, batch)) == Some(r.value)
      ensures r.Err? ==> exists i :: 0 <= i < |batch| && r.error == BadMessage(batch[i])
                                     && !Maps(EventAt(logs, batch[i]))
                                     && forall j :: 0 <= j < i ==> Maps(EventAt(logs, batch[j]))
    {
      var txns := [];
      ghost var evs := EventsOf(logs, batch);
      for i := 0 to |batch|
        invariant MapBatch(evs[..i]) == Some(txns)
        invariant forall j :: 0 <= j < i ==> Maps(EventAt(logs, batch[j]))
      {
        assert evs[..i + 1][..i] == evs[..i];
        assert batch[i] in batch;
        var ev := EventAt(logs, batch[i]);
        var t := TransactionFor(ev);
        if !Valid(ev) || t.Err? {
          UnmappedStays(evs, i);
          return Err(BadMessage(batch[i]));
        }
        txns := txns + [t.value];
      }
      assert evs[..|batch|] == evs;
      r := Ok(txns);
    }

    /** Map and write a batch. */
    method Post(batch: seq<Message>) returns (r: Result<nat, WorkerError>)
      requires batch != [] && Inv(Now(batch, Fetching))
      modifies repo, this`writes
      ensures r.Ok? <==> Posts(old(repo.transactions), EventsOf(logs, batch), database(old(writes)))
      ensures r.Err? && r.error.BadMessage? <==> MapBatch(EventsOf(logs, batch)).None?
      ensures r.Err? ==> r.error.BadMessage? || r.error == WriteFailed
      ensures writes == old(writes) + if MapBatch(EventsOf(logs, batch)).Some? then 1 else 0
      ensures r.Ok? ==> Now(batch, Written) == Next(old(Now(batch, Fetching)), Write(true))
      ensures r.Err? ==> Now(batch, Stopped) == Next(old(Now(batch, Fetching)), Write(false))
    {
      var txns := Map(batch);
      if txns.Err? {
        return Err(txns.error);
      }
      var up := database(writes);
      writes := writes + 1;
      var written := repo.WriteBatch(txns.value, up);
      r := if written.Err? then Err(WriteFailed) else Ok(written.value);
    }

    /** Commit a posted batch. */
    method Commit(batch: seq<Message>) returns (ok: bool)
      requires Inv(Now(batch, Written))
      modifies this`committed, this`commits
      ensures commits == old(commits) + 1 && (ok <==> offsets(old(commits)).AllCommitted?)
      ensures ok ==>
                Follows(old(Now(batch, Written)), Now([], Fetching)) && committed == CommitAll(old(committed), batch)
      ensures !ok ==> Follows(old(Now(batch, Written)), Now(batch, Stopped))
    {
      ghost var posted := Now(batch, Written);
      ok := CommitMessages(batch);
      StepFollows(posted, if ok then Step.Commit else FailCommit(offsets(old(commits)).partitions));
    }

    /** Map, write and commit a gathered batch. */
    method Finish(batch: seq<Message>, ghost start: State) returns (r: Result<nat, WorkerError>)
      requires batch != [] && Follows(start, Now(batch, Fetching)) && start.lost == lost
      modifies this`committed, this`writes, this`commits, repo
      ensures Answers(old(repo.transactions), EventsOf(logs, batch), database(old(writes)), offsets(old(commits)), r)
      ensures r.Ok? ==> committed == CommitAll(old(committed), batch) && Settled(batch)
      ensures r.Ok? ==> Follows(start, Now([], Fetching))
      ensures r.Err? ==> Follows(start, Now(batch, Stopped))
    {
      ghost var before := Now(batch, Fetching);
      StepFollowsOn(start, before, Write(true));
      StepFollowsOn(start, before, Write(false));
      var written := Post(batch);
      if written.Err? {
        return Err(written.error);
      }
      ghost var posted := Now(batch, Written);
      AllArePosted(posted);
      var ok := Commit(batch);
      FollowsOn(start, posted, if ok then Now([], Fetching) else Now(batch, Stopped));
      r := if ok then Ok(|batch|) else Err(CommitFailed);
      if ok { AllAreCommitted(posted); }
    }

    /** Every message of the batch is in the ledger, and its offset is committed. */
    ghost predicate Settled(batch: seq<Message>)
      reads this, repo
    {
      forall m :: m in batch ==>
        && Has(logs, m) && EventAt(logs, m).key in repo.transactions
        && m.partition < |committed| && m.offset < committed[m.partition]
    }

    /** One fetch of a batch's messages; a fetch error in mid-batch drops the batch. */
    method GatherOne(batch: seq<Message>, ghost start: State)
      returns (gathered: seq<Message>, more: bool, ok: bool, ghost result: FetchResult)
      requires Follows(start, Now(batch, Fetching)) && start.lost == lost && |batch| < MAX_BATCH
      modifies this`position, this`lost, this`fetches
      ensures fetches == old(fetches) + 1 && result == ResultOf(broker(old(fetches)), logs, old(position))
      ensures position == After(old(position), result)
      ensures if result.Got? then more && ok && gathered == batch + [result.message]
              else if batch == [] || result != FetchFailed then !more && ok && gathered == batch
              else !more && !ok && gathered == []
      ensures Follows(start, Now(gathered, Fetching))
      ensures lost == if ok then old(lost) else old(lost) + set m | m in batch
    {
      ghost var before := Now(batch, Fetching);
      var next := Fetch(batch);
      result := next;
      if next.Got? {
        StepFollowsOn(start, before, Step.Fetch(next.message.partition));
        return batch + [next.message], true, true, result;
      }
      if batch == [] || next == DeadlineExceeded || next == Canceled {
        return batch, false, true, result;
      }
      StepFollowsOn(start, before, Drop);
      lost := lost + set m | m in batch;
      return [], false, false, result;
    }

    /** The broker as it answers this process from one call on. */
    ghost function From(call: nat): Wire { Wire(broker, logs, call) }

    /**
     * Fetch until the batch is full or the window ends; false if a fetch error dropped it. `rs` are
     * the results of the fetches, and `ps` the positions before, between and after them.
     */
    method Gather() returns (batch: seq<Message>, ok: bool, ghost rs: seq<FetchResult>, ghost ps: seq<seq<nat>>)
      requires Inv(Now([], Fetching))
      modifies this`position, this`lost, this`fetches
      ensures fetches == old(fetches) + |rs| && Fetched(From(old(fetches)), ps, rs)
      ensures ps[0] == old(position) && ps[|rs|] == position
      ensures Gathered(rs, batch, ok) && lost == if ok then old(lost) else old(lost) + Messages(rs)
      ensures Follows(old(Now([], Fetching)), Now(batch, Fetching))
    {
      ghost var start := Now([], Fetching);
      var more := true;
      batch, ok, rs, ps := [], true, [], [position];
      FollowsNow(start);
      while more && |batch| < MAX_BATCH
        invariant fetches == old(fetches) + |rs| && Fetched(From(old(fetches)), ps, rs)
        invariant ps[0] == old(position) && ps[|rs|] == position && Follows(start, Now(batch, Fetching))
        invariant more ==> start.lost == lost
        invariant Window(rs, batch, more, ok) && lost == if ok then old(lost) else old(lost) + Messages(rs)
        decreases more, MAX_BATCH - |batch|
      {
        ghost var was, result := batch, FetchFailed;
        batch, more, ok, result := GatherOne(batch, start);
        FetchedOn(From(old(fetches)), ps, rs, result, position);
        GatheredOn(rs, was, result, batch, more, ok);
        rs, ps := rs + [result], ps + [position];
      }
    }

    /**
     * One fetch, map, write and commit cycle over the gathered `batch`. An empty one, because
     * nothing came or because a fetch error dropped it, writes and commits nothing; any other is
     * consumed as a whole, or one of the errors says why not and leaves the process to be restarted.
     * Commits stay safe in a session that has dropped nothing.
     */
    method Once()
      returns (r: Result<nat, WorkerError>, ghost batch: seq<Message>, ghost ok: bool, ghost rs: seq<FetchResult>,
               ghost ps: seq<seq<nat>>)
      requires Inv(Now([], Fetching))
      modifies this`committed, this`position, this`lost, this`fetches, this`writes, this`commits, repo
      ensures fetches == old(fetches) + |rs| && Fetched(From(old(fetches)), ps, rs)
      ensures ps[0] == old(position) && ps[|rs|] == position
      ensures Gathered(rs, batch, ok) && lost == if ok then old(lost) else old(lost) + Messages(rs)
      ensures batch == [] ==> r == Ok(0) && committed == old(committed) && repo.transactions == old(repo.transactions)
      ensures forall m :: m in batch ==> Has(logs, m)
      ensures batch != [] ==>
                Answers(old(repo.transactions), EventsOf(logs, batch), database(old(writes)), offsets(old(commits)), r)
      ensures r.Ok? ==> r.value == |batch| && Settled(batch) && committed == CommitAll(old(committed), batch)
      ensures r.Ok? ==> Follows(old(Now([], Fetching)), Now([], Fetching))
      ensures r.Err? ==> Follows(old(Now([], Fetching)), Now(batch, Stopped))
    {
      ghost var start := Now([], Fetching);
      var gathered, kept;
      gathered, kept, rs, ps := Gather();
      batch, ok := gathered, kept;
      if gathered == [] {
        return Ok(0), batch, ok, rs, ps;
      }
      r := Finish(gathered, start);
    }
  }

  /** A window that goes on holds the messages so far; one that is over is what was gathered. */
  ghost predicate Window(rs: seq<FetchResult>, batch: seq<Message>, more: bool, ok: bool)
  {
    && (more ==> ok && AreMessages(batch, rs) && |batch| <= MAX_BATCH)
    && (!more || |batch| == MAX_BATCH ==> Gathered(rs, batch, ok))
  }

  lemma FetchedOn(w: Wire, positions: seq<seq<nat>>, rs: seq<FetchResult>, result: FetchResult, position: seq<nat>)
    requires Fetched(w, positions, rs) && result == ResultOf(w.broker(w.from + |rs|), w.logs, positions[|rs|])
    requires position == After(positions[|rs|], result)
    ensures Fetched(w, positions + [position], rs + [result])
  {
    forall i | 0 <= i < |rs + [result]| ensures Fetches(w, positions + [position], rs + [result], i) {
      assert i < |rs| ==> Fetches(w, positions, rs, i);
    }
  }

  /** The message decodes, is valid and has a transaction. */
  predicate Maps(ev: Event)
  {
    Valid(ev) && TransactionFor(ev).Ok?
  }

  /** The batch's transactions are written. */
  ghost predicate Posts(book: Book, evs: seq<Event>, up: bool)
  {
    up && MapBatch(evs).Some? && SoundBeyond(book, Ledger.Post(book, MapBatch(evs).value))
  }

  /** What a cycle answers: how many messages it consumed, or the first thing that went wrong. */
  ghost predicate Answers(book: Book, evs: seq<Event>, up: bool, commit: Committed, r: Result<nat, WorkerError>)
  {
    && (r.Err? && r.error.BadMessage? <==> MapBatch(evs).None?)
    && (r == Err(WriteFailed) <==> MapBatch(evs).Some? && !Posts(book, evs, up))
    && (r == Err(CommitFailed) <==> Posts(book, evs, up) && !commit.AllCommitted?)
    && (r.Ok? <==> Posts(book, evs, up) && commit.AllCommitted?)
    && (r.Ok? ==> r.value == |evs|)
  }

  /** One more result: the window goes on with one more message, or it is over. */
  lemma GatheredOn(rs: seq<FetchResult>, batch: seq<Message>, result: FetchResult, gathered: seq<Message>, more: bool,
                   ok: bool)
    requires Window(rs, batch, true, true) && |batch| < MAX_BATCH
    requires if result.Got? then more && ok && gathered == batch + [result.message]
             else if batch == [] || result != FetchFailed then !more && ok && gathered == batch
             else !more && !ok && gathered == []
    ensures Window(rs + [result], gathered, more, ok)
    ensures !ok ==> Messages(rs + [result]) == set m | m in batch
  {
    assert (rs + [result])[..|rs|] == rs;
    if !ok {
      forall m | m in batch ensures m in Messages(rs + [result]) {
        var i :| 0 <= i < |batch| && batch[i] == m;
        assert (rs + [result])[i] == Got(m);
      }
    }
  }

  lemma AllArePosted(w: State)
    requires Inv(w) && w.stage == Written
    ensures forall m :: m in w.batch ==> Has(w.logs, m) && EventAt(w.logs, m).key in w.book
  {
  }

  lemma AllAreCommitted(w: State)
    requires Inv(w)
    ensures forall m :: m in w.batch ==>
              m.partition < |w.committed| && m.offset < CommitAll(w.committed, w.batch)[m.partition]
  {
    forall m | m in w.batch ensures m.offset < CommitAll(w.committed, w.batch)[m.partition] {
      CommitAllIs(w.committed, w.batch, m.partition);
    }
  }

  /**
   * What the process promises of a later state: the invariant, a ledger that only grew, and safe
   * commits as long as no batch was dropped.
   */
  ghost predicate Follows(w: State, w': State)
  {
    && Inv(w') && w.book.Keys <= w'.book.Keys && w.lost <= w'.lost
    && (w.lost == {} && CommitSafe(w) ==> CommitSafe(w'))
  }

  lemma FollowsNow(w: State)
    requires Inv(w)
    ensures Follows(w, w)
  {
  }

  lemma FollowsOn(w: State, w1: State, w2: State)
    requires Follows(w, w1) && Follows(w1, w2) && w1.lost == w.lost
    ensures Follows(w, w2)
  {
  }

  lemma StepFollows(w: State, step: Step)
    requires Inv(w) && Enabled(w, step) && !step.Start?
    ensures Follows(w, Next(w, step))
  {
    StepKeepsInv(w, step);
    if CommitSafe(w) && w.lost == {} {
      StepIsSafeIff(w, step);
    }
  }

  lemma StepFollowsOn(w: State, w1: State, step: Step)
    requires Follows(w, w1) && w1.lost == w.lost && Enabled(w1, step) && !step.Start?
    ensures Follows(w, Next(w1, step))
  {
    StepFollows(w1, step);
    FollowsOn(w, w1, Next(w1, step));
  }

  lemma {:induction false} UnmappedStays(evs: seq<Event>, i: nat)
    requires i < |evs| && (!Valid(evs[i]) || TransactionFor(evs[i]).Err?)
    ensures MapBatch(evs).None?
    decreases |evs|
  {
    if i < |evs| - 1 {
      UnmappedStays(evs[..|evs| - 1], i);
    }
  }
}
