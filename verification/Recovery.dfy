/** From every reachable state the relay and the worker can still bring everything into the ledger. */
module Recovery {
  import opened Base
  import opened Events
  import opened Ledger
  import opened LedgerLaws
  import opened Pipeline
  import S = Store
  import SI = StoreInvariant
  import R = Relay
  import W = Worker

  // ---------- continuations without the store ----------

  /** A step of the relay or the worker; the worker's commits lose nothing. */
  ghost predicate Onward(hash: string -> nat, y: System, step: Step, y': System)
  {
    Moves(hash, y, step, y') && CleanStep(y, step) && !step.StoreStep?
  }

  ghost predicate Path(hash: string -> nat, states: seq<System>, steps: seq<Step>)
  {
    |states| == |steps| + 1 && forall i :: 0 <= i < |steps| ==> Onward(hash, states[i], steps[i], states[i + 1])
  }

  ghost predicate Leads(hash: string -> nat, y: System, y': System)
  {
    exists states, steps :: Path(hash, states, steps) && states[0] == y && states[|steps|] == y'
  }

  /** What a continuation keeps. */
  ghost predicate Later(hash: string -> nat, y: System, y': System)
  {
    Leads(hash, y, y') && y'.store == y.store && Inv(y') && (W.CommitSafe(y.worker) ==> W.CommitSafe(y'.worker))
  }

  lemma LaterNow(hash: string -> nat, y: System)
    requires Inv(y)
    ensures Later(hash, y, y)
  {
    assert Path(hash, [y], []) && [y][0] == y;
  }

  lemma OneStepOn(hash: string -> nat, y: System, y1: System, step: Step, y2: System)
    requires Later(hash, y, y1) && Onward(hash, y1, step, y2)
    ensures Later(hash, y, y2)
  {
    var states, steps :| Path(hash, states, steps) && states[0] == y && states[|steps|] == y1;
    PathGrows(hash, states, steps, step, y2);
    StepKeepsInv(hash, y1, step, y2);
    if W.CommitSafe(y1.worker) { CleanStepIsSafe(hash, y1, step, y2); }
  }

  lemma PathGrows(hash: string -> nat, states: seq<System>, steps: seq<Step>, step: Step, y: System)
    requires Path(hash, states, steps) && Onward(hash, states[|steps|], step, y)
    ensures Leads(hash, states[0], y)
  {
    var states', steps' := states + [y], steps + [step];
    assert Path(hash, states', steps') && states'[0] == states[0] && states'[|steps'|] == y;
  }

  // ---------- the relay's side ----------

  /** The relay alone can get from one state of the group to another, beside a stream of `len` entries. */
  ghost predicate GroupPath(len: nat, groups: seq<R.Group>, sts: seq<R.Step>)
  {
    && |groups| == |sts| + 1
    && forall i :: 0 <= i < |sts| ==> R.Enabled(groups[i], sts[i]) && groups[i + 1] == R.Next(groups[i], len, sts[i])
  }

  ghost predicate GroupLeads(len: nat, g: R.Group, g': R.Group)
  {
    exists groups, sts :: GroupPath(len, groups, sts) && groups[0] == g && groups[|sts|] == g'
  }

  lemma GroupNow(len: nat, g: R.Group)
    ensures GroupLeads(len, g, g)
  {
    assert GroupPath(len, [g], []) && [g][0] == g;
  }

  lemma GroupOn(len: nat, g: R.Group, g1: R.Group, st: R.Step)
    requires GroupLeads(len, g, g1) && R.Enabled(g1, st)
    ensures GroupLeads(len, g, R.Next(g1, len, st))
  {
    var groups, sts :| GroupPath(len, groups, sts) && groups[0] == g && groups[|sts|] == g1;
    var groups', sts' := groups + [R.Next(g1, len, st)], sts + [st];
    assert GroupPath(len, groups', sts') && groups'[0] == g && groups'[|sts'|] == R.Next(g1, len, st);
  }

  /** What the relay's group can do, the system can. */
  lemma {:induction false} GroupLifts(hash: string -> nat, y: System, y1: System, groups: seq<R.Group>,
                                      sts: seq<R.Step>)
    requires Later(hash, y, y1) && GroupPath(|y.store.outbox|, groups, sts) && groups[0] == y1.group
    ensures exists y' :: Later(hash, y, y') && y'.group == groups[|sts|]
    decreases |sts|
  {
    if sts == [] {
      assert y1.group == groups[0];
    } else {
      var y2 := AfterRelay(hash, y1, sts[0]);
      OneStepOn(hash, y, y1, RelayStep(sts[0]), AfterRelay(hash, y1, sts[0]));
      GroupLifts(hash, y, y2, groups[1..], sts[1..]);
    }
  }

  ghost function AfterRelay(hash: string -> nat, y: System, st: R.Step): System
    requires R.Enabled(y.group, st) && |y.worker.logs| == 2 * PARTITIONS
  {
    var g := R.Next(y.group, |y.store.outbox|, st);
    System(y.store, g, y.worker.(logs := Deliver(hash, y.store.outbox, Produced(y.group, g), y.worker.logs)))
  }

  lemma {:induction false} EnoughClaimsAll(pending: map<nat, nat>, me: nat, start: nat, end: nat, count: nat)
    requires start + count >= end
    ensures R.AutoClaim(pending, me, start, end, count).1 == None
    decreases end - start
  {
    if start < end {
      if start !in pending {
        EnoughClaimsAll(pending, me, start + 1, end, count);
      } else {
        EnoughClaimsAll(pending[start := me], me, start + 1, end, count - 1);
      }
    }
  }

  /** Whatever the relay was doing, a restart gets it to draining. */
  lemma CanRestart(len: nat, g: R.Group)
    requires R.Inv(g, len)
    ensures exists g' :: GroupLeads(len, g, g') && R.Inv(g', len) && g'.phase.Draining?
  {
    var g1 := R.Next(g, len, R.Crash);
    var g2 := R.Next(g1, len, R.Start);
    var claim := R.Claim(g2.delivered + 1);
    var g3 := R.Next(g2, len, claim);
    GroupNow(len, g);
    GroupOn(len, g, g, R.Crash);
    GroupOn(len, g, g1, R.Start);
    GroupOn(len, g, g2, claim);
    R.StepKeepsInv(g, len, R.Crash);
    R.StepKeepsInv(g1, len, R.Start);
    R.StepKeepsInv(g2, len, claim);
    EnoughClaimsAll(g2.pending, g2.me, 0, g2.delivered, g2.delivered + 1);
    assert g3.phase.Draining?;
  }

  lemma {:induction false} NothingOwn(me: nat, start: nat, end: nat, count: nat)
    ensures R.OwnPending(map[], me, start, end, count) == []
    decreases end - start
  {
    if start < end && count > 0 { NothingOwn(me, start + 1, end, count); }
  }

  /** One read of all pending entries, produced and acknowledged, leaves none. */
  lemma DrainEmpties(g: R.Group, len: nat)
    requires R.Inv(g, len) && g.phase.Draining?
    ensures var batch := R.OwnPending(g.pending, g.me, 0, g.delivered, g.delivered + 1);
            R.Ack(g.pending, batch) == map[]
  {
    var base, produced :| R.InvAt(g, len, base, produced);
    R.OwnPendingIs(g.pending, g.me, 0, base, g.delivered, g.delivered + 1);
    R.AckTail(g.pending, base, g.delivered - base, g.delivered);
  }

  lemma CanFollow(len: nat, g: R.Group, g1: R.Group)
    requires GroupLeads(len, g, g1) && R.Inv(g1, len) && g1.phase.Draining?
    ensures exists g' :: GroupLeads(len, g, g') && R.Inv(g', len) && g'.phase.Following?
  {
    var read := R.DrainRead(g1.delivered + 1);
    var g2 := R.Next(g1, len, read);
    GroupOn(len, g, g1, read);
    R.StepKeepsInv(g1, len, read);
    if !g2.phase.Following? {
      DrainEmpties(g1, len);
      CanAck(len, g, g2);
      var g4 := R.Next(R.Next(g2, len, R.Produce), len, R.AckBatch);
      NothingOwn(g4.me, 0, g4.delivered, g1.delivered + 1);
      GroupOn(len, g, g4, read);
      R.StepKeepsInv(g4, len, read);
      assert R.Next(g4, len, read).phase.Following?;
    }
  }

  /** A batch that was read can be produced and acknowledged. */
  lemma CanAck(len: nat, g: R.Group, g1: R.Group)
    requires GroupLeads(len, g, g1) && R.Inv(g1, len) && g1.phase.Producing?
    ensures var g2 := R.Next(g1, len, R.Produce);
            && R.Enabled(g2, R.AckBatch) && GroupLeads(len, g, R.Next(g2, len, R.AckBatch))
            && R.Inv(R.Next(g2, len, R.AckBatch), len)
  {
    var g2 := R.Next(g1, len, R.Produce);
    GroupOn(len, g, g1, R.Produce);
    R.StepKeepsInv(g1, len, R.Produce);
    GroupOn(len, g, g2, R.AckBatch);
    R.StepKeepsInv(g2, len, R.AckBatch);
  }

  lemma CanReadAll(len: nat, g: R.Group, g1: R.Group)
    requires GroupLeads(len, g, g1) && R.Inv(g1, len) && g1.phase.Following?
    ensures exists g' :: GroupLeads(len, g, g') && g'.delivered == len && g'.pending == map[]
  {
    R.NothingLost(g1, len);
    var read := R.LiveRead(len);
    var g2 := R.Next(g1, len, read);
    GroupOn(len, g, g1, read);
    R.StepKeepsInv(g1, len, read);
    if !g2.phase.Following? {
      CanAck(len, g, g2);
      R.NothingLost(R.Next(R.Next(g2, len, R.Produce), len, R.AckBatch), len);
    }
  }

  /** Everything in the stream is produced and acknowledged. */
  ghost predicate Relayed(y: System)
  {
    y.group.delivered == |y.store.outbox| && y.group.pending == map[]
  }

  lemma GroupCanRelayAll(len: nat, g: R.Group)
    requires R.Inv(g, len)
    ensures exists g' :: GroupLeads(len, g, g') && g'.delivered == len && g'.pending == map[]
  {
    CanRestart(len, g);
    var g1 :| GroupLeads(len, g, g1) && R.Inv(g1, len) && g1.phase.Draining?;
    CanFollow(len, g, g1);
    var g2 :| GroupLeads(len, g, g2) && R.Inv(g2, len) && g2.phase.Following?;
    CanReadAll(len, g, g2);
  }

  lemma CanRelayAll(hash: string -> nat, y: System)
    requires Inv(y)
    ensures exists y' :: Later(hash, y, y') && Relayed(y')
  {
    var len := |y.store.outbox|;
    LaterNow(hash, y);
    GroupCanRelayAll(len, y.group);
    var g' :| GroupLeads(len, y.group, g') && g'.delivered == len && g'.pending == map[];
    var groups, sts :| GroupPath(len, groups, sts) && groups[0] == y.group && groups[|sts|] == g';
    GroupLifts(hash, y, y, groups, sts);
  }

  // ---------- the worker's side ----------

  predicate Allowed(w: W.State, st: W.Step)
  {
    !st.Append? && (st.Commit? || st.FailCommit? ==> w.lost == {})
  }

  ghost predicate WorkerPath(ws: seq<W.State>, sts: seq<W.Step>)
  {
    && |ws| == |sts| + 1
    && forall i :: 0 <= i < |sts| ==> Goes(ws[i], sts[i], ws[i + 1])
  }

  ghost predicate Goes(w: W.State, st: W.Step, w': W.State)
  {
    Allowed(w, st) && W.Moves(w, st, w')
  }

  ghost predicate WorkerLeads(w: W.State, w': W.State)
  {
    exists ws, sts :: WorkerPath(ws, sts) && ws[0] == w && ws[|sts|] == w'
  }

  lemma WorkerNow(w: W.State)
    ensures WorkerLeads(w, w)
  {
    assert WorkerPath([w], []) && [w][0] == w;
  }

  lemma WorkerOn(w: W.State, w1: W.State, st: W.Step, w2: W.State)
    requires WorkerLeads(w, w1) && Goes(w1, st, w2)
    ensures WorkerLeads(w, w2)
  {
    var ws, sts :| WorkerPath(ws, sts) && ws[0] == w && ws[|sts|] == w1;
    var ws', sts' := ws + [w2], sts + [st];
    assert WorkerPath(ws', sts') && ws'[0] == w && ws'[|sts'|] == w2;
  }

  /** What the worker can do, the system can, and the relay does not mind. */
  lemma {:induction false} WorkerLifts(hash: string -> nat, y: System, y1: System, ws: seq<W.State>, sts: seq<W.Step>)
    requires Later(hash, y, y1) && WorkerPath(ws, sts) && ws[0] == y1.worker
    ensures exists y' :: Later(hash, y, y') && y'.group == y1.group && y'.worker == ws[|sts|]
    decreases |sts|
  {
    if sts == [] {
      assert y1.worker == ws[0];
    } else {
      var y2 := y1.(worker := ws[1..][0]);
      OneStepOn(hash, y, y1, WorkerStep(sts[0]), y2);
      WorkerLifts(hash, y, y2, ws[1..], sts[1..]);
    }
  }

  /** Fetching from where it has committed, with nothing in hand. */
  ghost predicate Caught(w: W.State)
  {
    && w.stage == W.Fetching && w.batch == [] && w.lost == {} && w.position == w.committed && |w.logs| == |w.committed|
    && forall p :: 0 <= p < |w.logs| ==> w.committed[p] <= |w.logs[p]|
  }

  lemma CanStart(w: W.State)
    requires W.Inv(w)
    ensures exists w' :: WorkerLeads(w, w') && Caught(w') && w'.logs == w.logs
  {
    var w1 := W.Next(w, W.Crash);
    var w2 := W.Next(w1, W.Start);
    WorkerNow(w);
    WorkerOn(w, w, W.Crash, w1);
    WorkerOn(w, w1, W.Start, w2);
    assert Caught(w2);
  }

  /** Messages not yet committed in the first `n` partitions. */
  function Backlog(logs: seq<seq<Event>>, committed: seq<nat>, n: nat): int
    requires n <= |logs| == |committed|
  {
    if n == 0 then 0 else Backlog(logs, committed, n - 1) + |logs[n - 1]| - committed[n - 1]
  }

  lemma {:induction false} BacklogShrinks(logs: seq<seq<Event>>, committed: seq<nat>, n: nat, p: nat, c: nat)
    requires n <= |logs| == |committed| && p < |logs|
    ensures Backlog(logs, committed[p := c], n) == Backlog(logs, committed, n) - if p < n then c - committed[p] else 0
  {
    if n > 0 { BacklogShrinks(logs, committed, n - 1, p, c); }
  }

  lemma {:induction false} BacklogIsBehind(logs: seq<seq<Event>>, committed: seq<nat>, n: nat)
    requires n <= |logs| == |committed| && forall p :: 0 <= p < |logs| ==> committed[p] <= |logs[p]|
    ensures Backlog(logs, committed, n) >= 0
    ensures Backlog(logs, committed, n) == 0 <==> forall p :: 0 <= p < n ==> committed[p] == |logs[p]|
  {
    if n > 0 { BacklogIsBehind(logs, committed, n - 1); }
  }

  /** Every message decodes, validates and maps. */
  ghost predicate Sendable(logs: seq<seq<Event>>)
  {
    forall p, o :: 0 <= p < |logs| && 0 <= o < |logs[p]| ==> Valid(logs[p][o]) && TransactionFor(logs[p][o]).Ok?
  }

  lemma {:induction false} CommitOfOne(offsets: seq<nat>, m: W.Message)
    ensures W.CommitAll(offsets, [m]) == W.CommitOne(offsets, m)
  {
    assert [m][..0] == [];
  }

  ghost predicate NextIs(w: W.State, p: nat)
  {
    Caught(w) && p < |w.logs| && w.committed[p] < |w.logs[p]| && Sendable(w.logs)
  }

  function AfterFetch(w: W.State, p: nat): W.State
    requires p < |w.position|
  {
    w.(batch := [W.Message(p, w.position[p])], position := w.position[p := w.position[p] + 1])
  }

  function AfterCommit(w: W.State, p: nat): W.State
    requires p < |w.committed|
  {
    w.(committed := w.committed[p := w.committed[p] + 1], batch := [], stage := W.Fetching)
  }

  lemma CommitNext(w: W.State, p: nat)
    requires w.stage == W.Written && p < |w.committed| && w.batch == [W.Message(p, w.committed[p])]
    ensures W.Next(w, W.Commit) == AfterCommit(w, p)
  {
    CommitOfOne(w.committed, w.batch[0]);
  }

  function AfterWrite(w: W.State, p: nat): W.State
    requires p < |w.position| && p < |w.logs| && w.position[p] < |w.logs[p]|
             && TransactionFor(w.logs[p][w.position[p]]).Ok?
  {
    AfterFetch(w, p).(book := PostOne(w.book, TransactionFor(w.logs[p][w.position[p]]).value), stage := W.Written)
  }

  lemma CanPostOne(w: W.State, w1: W.State, p: nat)
    requires WorkerLeads(w, w1) && NextIs(w1, p)
    ensures WorkerLeads(w, AfterWrite(w1, p))
  {
    var w2 := AfterFetch(w1, p);
    WorkerOn(w, w1, W.Fetch(p), w2);
    W.OneMessagePosts(w2, W.Message(p, w1.committed[p]));
    WorkerOn(w, w2, W.Write(true), AfterWrite(w1, p));
  }

  /** The next message of a partition can always be fetched, posted and committed. */
  lemma CanCommitOne(w: W.State, w1: W.State, p: nat)
    requires WorkerLeads(w, w1) && NextIs(w1, p)
    ensures exists w' :: WorkerLeads(w, w') && CommittedNext(w1, w', p)
  {
    var w2 := AfterWrite(w1, p);
    CanPostOne(w, w1, p);
    CommitNext(w2, p);
    WorkerOn(w, w2, W.Commit, AfterCommit(w2, p));
    assert CommittedNext(w1, AfterCommit(w2, p), p);
  }

  ghost predicate CommittedNext(w: W.State, w': W.State, p: nat)
    requires NextIs(w, p)
  {
    Caught(w') && w'.logs == w.logs && w'.committed == w.committed[p := w.committed[p] + 1]
  }

  /** `left` messages are not committed yet. */
  ghost predicate Behind(w: W.State, left: nat)
  {
    Caught(w) && Backlog(w.logs, w.committed, |w.logs|) == left
  }

  lemma BehindBySome(w: W.State, left: nat)
    requires Behind(w, left) && left > 0 && Sendable(w.logs)
    ensures exists p: nat :: NextIs(w, p)
  {
    BacklogIsBehind(w.logs, w.committed, |w.logs|);
    var p: nat :| p < |w.logs| && w.committed[p] != |w.logs[p]|;
    assert NextIs(w, p);
  }

  lemma OneLess(w: W.State, w': W.State, p: nat, left: nat)
    requires Behind(w, left) && left > 0 && NextIs(w, p) && CommittedNext(w, w', p)
    ensures Behind(w', left - 1)
  {
    BacklogShrinks(w.logs, w.committed, |w.logs|, p, w.committed[p] + 1);
  }

  ghost predicate AllCommitted(w: W.State)
  {
    |w.committed| == |w.logs| && forall p :: 0 <= p < |w.logs| ==> w.committed[p] == |w.logs[p]|
  }

  lemma {:induction false} CanCommitAll(w: W.State, w1: W.State, left: nat)
    requires WorkerLeads(w, w1) && Behind(w1, left) && Sendable(w1.logs)
    ensures exists w' :: WorkerLeads(w, w') && AllCommitted(w')
    decreases left
  {
    if left == 0 {
      BacklogIsBehind(w1.logs, w1.committed, |w1.logs|);
      assert AllCommitted(w1);
    } else {
      BehindBySome(w1, left);
      var p: nat :| NextIs(w1, p);
      CanCommitOne(w, w1, p);
      var w2 :| WorkerLeads(w, w2) && CommittedNext(w1, w2, p);
      OneLess(w1, w2, p, left);
      CanCommitAll(w, w2, left - 1);
    }
  }

  lemma WorkerCanCommitAll(w: W.State)
    requires W.Inv(w) && Sendable(w.logs)
    ensures exists w' :: WorkerLeads(w, w') && AllCommitted(w')
  {
    CanStart(w);
    var w1 :| WorkerLeads(w, w1) && Caught(w1) && w1.logs == w.logs;
    BacklogIsBehind(w1.logs, w1.committed, |w1.logs|);
    CanCommitAll(w, w1, Backlog(w1.logs, w1.committed, |w1.logs|));
  }

  ghost predicate Postable(outbox: seq<Event>)
  {
    forall ev :: ev in outbox ==> SmallEnough(ev)
  }

  lemma MessagesAreSendable(y: System)
    requires Inv(y) && Postable(y.store.outbox)
    ensures Sendable(y.worker.logs)
  {
    var logs := y.worker.logs;
    forall p, o | 0 <= p < |logs| && 0 <= o < |logs[p]| ensures Valid(logs[p][o]) && TransactionFor(logs[p][o]).Ok? {
      assert W.Has(logs, W.Message(p, o)) && W.EventAt(logs, W.Message(p, o)) in y.store.outbox;
      OutboxEventIsSound(y, logs[p][o]);
    }
  }

  lemma CanPostAll(hash: string -> nat, y: System, y1: System)
    requires Later(hash, y, y1) && Relayed(y1) && Postable(y1.store.outbox)
    ensures exists y' :: Later(hash, y, y') && Drained(y')
  {
    MessagesAreSendable(y1);
    WorkerCanCommitAll(y1.worker);
    var w' :| WorkerLeads(y1.worker, w') && AllCommitted(w');
    var ws, sts :| WorkerPath(ws, sts) && ws[0] == y1.worker && ws[|sts|] == w';
    WorkerLifts(hash, y, y1, ws, sts);
  }

  // ---------- nothing is ever stuck ----------

  lemma SettlementKeysAreUnique(s: S.Store, i: nat, j: nat)
    requires SI.KeysOk(s) && i < |s.outbox| && j < |s.outbox| && s.outbox[i].RoundSettled?
             && s.outbox[j].key == s.outbox[i].key
    ensures i == j
  {
  }

  lemma PostedSettlementIsValid(book: Book, s: S.Store, i: nat)
    requires SI.KeysOk(s) && i < |s.outbox| && s.outbox[i].RoundSettled? && s.outbox[i].key in book
    requires exists origin :: PostedFrom(book, s.outbox, origin)
    ensures Valid(s.outbox[i])
  {
    var origin :| PostedFrom(book, s.outbox, origin);
    SettlementKeysAreUnique(s, i, origin[s.outbox[i].key]);
  }

  /** A settlement with too many payouts is never posted, so a pipeline that holds one is never drained. */
  lemma OversizedStays(y: System)
    requires Inv(y) && W.CommitSafe(y.worker) && !Postable(y.store.outbox)
    ensures !Drained(y)
  {
    var ev :| ev in y.store.outbox && !SmallEnough(ev);
    var i :| 0 <= i < |y.store.outbox| && y.store.outbox[i] == ev;
    if Drained(y) {
      DrainedIsPosted(y, i);
      LedgerComesFromOutbox(y);
      PostedSettlementIsValid(y.worker.book, y.store, i);
      OutboxEventIsSound(y, ev);
    }
  }

  /**
   * From every reachable state, whatever crashed, failed or was thrown away before: if no
   * settlement in the outbox has more than MAX_PAYOUTS payouts, the relay and the worker can go on
   * until the pipeline is drained, and their commits lose nothing on the way.
   */
  lemma CanAlwaysDrain(hash: string -> nat, states: seq<System>, steps: seq<Step>, n: nat)
    requires Run(hash, states, steps) && n < |states| && Postable(states[n].store.outbox)
    ensures exists y' :: Later(hash, states[n], y') && Drained(y')
  {
    var y := states[n];
    EveryStateIsOk(hash, states, steps, n);
    CanRelayAll(hash, y);
    var y1 :| Later(hash, y, y1) && Relayed(y1);
    CanPostAll(hash, y, y1);
  }

  /**
   * In a run whose commits lose nothing that is an exact condition; and if no key was used for two
   * wagers, Redis and the ledger then agree on every user of every room.
   */
  lemma CanDrainIff(hash: string -> nat, states: seq<System>, steps: seq<Step>, n: nat)
    requires Run(hash, states, steps) && n < |states| && LosesNothing(states, steps)
    ensures Postable(states[n].store.outbox) <==> exists y' :: Later(hash, states[n], y') && Drained(y')
    ensures forall y' :: Later(hash, states[n], y') && Drained(y') && DistinctEventKeys(y'.store.outbox) ==> Agrees(y')
  {
    CommitsAreSafe(hash, states, steps, n);
    if Postable(states[n].store.outbox) {
      CanAlwaysDrain(hash, states, steps, n);
    } else {
      forall y' | Later(hash, states[n], y') ensures !Drained(y') { OversizedStays(y'); }
    }
    forall y' | Later(hash, states[n], y') && Drained(y') && DistinctEventKeys(y'.store.outbox) ensures Agrees(y') {
      DrainedAgrees(y');
    }
  }

  ghost predicate Agrees(y: System)
  {
    forall room, user :: Delta(y.store, room, user) == Balance(y.worker.book, WalletIn(room, user))
  }

  lemma DrainedAgrees(y: System)
    requires Inv(y) && W.CommitSafe(y.worker) && Drained(y) && DistinctEventKeys(y.store.outbox)
    ensures Agrees(y)
  {
    forall room, user ensures Delta(y.store, room, user) == Balance(y.worker.book, WalletIn(room, user)) {
      DeltaIsMoved(y.store, room, user);
      DrainedBalance(y, WalletIn(room, user));
    }
  }
}
