/** The outbox relay: a Redis consumer group read in batches, produced to Kafka, and acknowledged only afterwards. */
module Relay {
  import opened Base

  datatype Phase =
    | Down
    | Claiming(cursor: nat)
    | Draining
    | Following
    | Producing(batch: seq<nat>, drain: bool)
    | Acking(batch: seq<nat>, drain: bool)

  /**
   * Stream entries are numbered in order: those below `delivered` were handed out, and `pending` are
   * the unacknowledged ones, by owner. `log` is what reached Kafka, in order. One process at a time
   * works for the group, as `me`; it may crash anywhere, and restarts under a new name.
   */
  datatype Group = Group(delivered: nat, pending: map<nat, nat>, me: nat, log: seq<nat>, phase: Phase)

  const NEW_GROUP := Group(0, map[], 0, [], Down)

  // ---------- the group commands ----------

  /** XAUTOCLAIM with no idle time: take up to `count` entries from `start` on; None is cursor 0-0. */
  function AutoClaim(pending: map<nat, nat>, me: nat, start: nat, end: nat, count: nat): (map<nat, nat>, Option<nat>)
    decreases end - start
  {
    if start >= end then (pending, None)
    else if start !in pending then AutoClaim(pending, me, start + 1, end, count)
    else if count == 0 then (pending, Some(start))
    else AutoClaim(pending[start := me], me, start + 1, end, count - 1)
  }

  /** XREADGROUP from id 0: the reader's own pending entries, in order. */
  function OwnPending(pending: map<nat, nat>, me: nat, start: nat, end: nat, count: nat): seq<nat>
    decreases end - start
  {
    if start >= end || count == 0 then []
    else if start in pending && pending[start] == me then [start] + OwnPending(pending, me, start + 1, end, count - 1)
    else OwnPending(pending, me, start + 1, end, count)
  }

  function Range(from: nat, n: nat): seq<nat>
  {
    seq(n, i requires 0 <= i < n => from + i)
  }

  /** XREADGROUP from >: the next undelivered entries, which become the reader's pending ones. */
  function FreshCount(g: Group, len: nat, count: nat): nat
  {
    if g.delivered + count <= len then count else if g.delivered <= len then len - g.delivered else 0
  }

  function Take(pending: map<nat, nat>, me: nat, batch: seq<nat>): map<nat, nat>
  {
    pending + (map i | i in batch :: me)
  }

  function Ack(pending: map<nat, nat>, batch: seq<nat>): map<nat, nat>
  {
    pending - (set i | i in batch)
  }

  // ---------- the relay's steps ----------

  datatype Step =
    | Start
    | Claim(count: nat)
    | DrainRead(count: nat)
    | LiveRead(count: nat)
    | Produce
    | FailProduce(written: nat)
    | AckBatch
    | FailAck(applied: bool)
    | Crash

  predicate Enabled(g: Group, step: Step)
  {
    match step
    case Start => g.phase.Down?
    case Claim(count) => g.phase.Claiming? && count > 0
    case DrainRead(count) => g.phase.Draining? && count > 0
    case LiveRead(count) => g.phase.Following?
    case Produce => g.phase.Producing?
    case FailProduce(written) => g.phase.Producing? && written <= |g.phase.batch|
    case AckBatch => g.phase.Acking?
    case FailAck(_) => g.phase.Acking?
    case Crash => true
  }

  /** One step, with `len` entries in the stream. */
  function Next(g: Group, len: nat, step: Step): Group
    requires Enabled(g, step)
  {
    match step
    case Start => g.(me := g.me + 1, phase := Claiming(0))
    case Claim(count) =>
      var (pending, next) := AutoClaim(g.pending, g.me, g.phase.cursor, g.delivered, count);
      g.(pending := pending, phase := if next.None? then Draining else Claiming(next.value))
    case DrainRead(count) =>
      var batch := OwnPending(g.pending, g.me, 0, g.delivered, count);
      g.(phase := if batch == [] then Following else Producing(batch, true))
    case LiveRead(count) =>
      var batch := Range(g.delivered, FreshCount(g, len, count));
      if batch == [] then g else
      g.(delivered := g.delivered + |batch|, pending := Take(g.pending, g.me, batch), phase := Producing(batch, false))
    case Produce => g.(log := g.log + g.phase.batch, phase := Acking(g.phase.batch, g.phase.drain))
    case FailProduce(written) => g.(log := g.log + g.phase.batch[..written], phase := Down)
    case AckBatch =>
      g.(pending := Ack(g.pending, g.phase.batch), phase := if g.phase.drain then Draining else Following)
    case FailAck(applied) =>
      g.(pending := if applied then Ack(g.pending, g.phase.batch) else g.pending, phase := Down)
    case Crash => g.(phase := Down)
  }

  // ---------- what reached Kafka, in order of first appearance ----------

  function FirstTimes(log: seq<nat>): seq<nat>
  {
    if log == [] then [] else
    var rest, x := FirstTimes(log[..|log| - 1]), log[|log| - 1];
    if x in log[..|log| - 1] then rest else rest + [x]
  }

  /** The log's first appearances are the first `n` entries of the stream, in stream order. */
  ghost predicate Prefix(log: seq<nat>, n: nat)
  {
    FirstTimes(log) == Range(0, n)
  }

  lemma {:induction false} FirstTimesAreAll(log: seq<nat>)
    ensures forall x :: x in FirstTimes(log) <==> x in log
  {
    if log != [] {
      FirstTimesAreAll(log[..|log| - 1]);
      assert log == log[..|log| - 1] + [log[|log| - 1]];
    }
  }

  lemma InPrefix(log: seq<nat>, n: nat)
    requires Prefix(log, n)
    ensures forall x :: x in log <==> 0 <= x < n
  {
    FirstTimesAreAll(log);
    forall x ensures x in Range(0, n) <==> 0 <= x < n {
      if 0 <= x < n { assert Range(0, n)[x] == x; }
    }
  }

  lemma PrefixExtends(log: seq<nat>, n: nat, x: nat)
    requires Prefix(log, n) && x <= n
    ensures Prefix(log + [x], if x == n then n + 1 else n)
  {
    InPrefix(log, n);
    assert (log + [x])[..|log|] == log;
    assert Range(0, n + 1) == Range(0, n) + [n];
  }

  lemma {:induction false} BatchExtends(log: seq<nat>, n: nat, from: nat, k: nat)
    requires Prefix(log, n) && from <= n
    ensures Prefix(log + Range(from, k), if from + k > n then from + k else n)
    decreases k
  {
    if k == 0 {
      assert log + Range(from, 0) == log;
    } else {
      BatchExtends(log, n, from, k - 1);
      var m, grown := if from + k - 1 > n then from + k - 1 else n, log + Range(from, k - 1);
      RangeSnoc(log, from, k);
      PrefixExtends(grown, m, from + k - 1);
    }
  }

  lemma RangeSnoc(log: seq<nat>, from: nat, k: nat)
    requires k > 0
    ensures log + Range(from, k) == log + Range(from, k - 1) + [from + k - 1]
  {
  }

  // ---------- the invariant ----------

  /** Pending entries are exactly the delivered ones from `base` on. */
  ghost predicate Tail(pending: map<nat, nat>, base: nat, delivered: nat)
  {
    base <= delivered && forall i :: i in pending <==> base <= i < delivered
  }

  ghost predicate AllMine(g: Group)
  {
    forall i :: i in g.pending ==> g.pending[i] == g.me
  }

  ghost predicate PhaseOk(g: Group, base: nat, produced: nat)
  {
    match g.phase
    case Down => true
    case Claiming(cursor) => forall i :: i in g.pending && i < cursor ==> g.pending[i] == g.me
    case Draining => AllMine(g)
    case Following => base == g.delivered
    case Producing(batch, drain) =>
      && AllMine(g) && batch == Range(base, |batch|) && base + |batch| <= g.delivered
      && (!drain ==> base + |batch| == g.delivered)
    case Acking(batch, drain) =>
      && AllMine(g) && batch == Range(base, |batch|) && base + |batch| <= produced
      && (!drain ==> base + |batch| == g.delivered)
  }

  ghost predicate InvAt(g: Group, len: nat, base: nat, produced: nat)
  {
    && Tail(g.pending, base, g.delivered) && g.delivered <= len
    && Prefix(g.log, produced) && base <= produced <= g.delivered
    && PhaseOk(g, base, produced)
  }

  ghost predicate Inv(g: Group, len: nat)
  {
    exists base, produced :: InvAt(g, len, base, produced)
  }

  lemma {:induction false} AutoClaimTakes(pending: map<nat, nat>, me: nat, start: nat, end: nat, count: nat)
    requires forall i :: i in pending ==> i < end
    requires forall i :: i in pending && i < start ==> pending[i] == me
    ensures var (p, next) := AutoClaim(pending, me, start, end, count);
            && p.Keys == pending.Keys
            && (if next.None? then forall i :: i in p ==> p[i] == me
                else next.value in p && next.value >= start && (count > 0 ==> next.value > start)
                     && forall i :: i in p && i < next.value ==> p[i] == me)
    decreases end - start
  {
    if start < end {
      if start !in pending {
        AutoClaimTakes(pending, me, start + 1, end, count);
      } else if count > 0 {
        AutoClaimTakes(pending[start := me], me, start + 1, end, count - 1);
      }
    }
  }

  lemma {:induction false} OwnPendingIs(pending: map<nat, nat>, me: nat, start: nat, base: nat, end: nat, count: nat)
    requires Tail(pending, base, end) && forall i :: i in pending ==> pending[i] == me
    requires start <= end
    ensures var from := if start < base then base else start;
            var n := if count <= end - from then count else end - from;
            OwnPending(pending, me, start, end, count) == Range(from, n)
    decreases end - start
  {
    if start < end && count > 0 {
      OwnPendingIs(pending, me, start + 1, base, end, if start in pending then count - 1 else count);
      if start in pending {
        var n := if count <= end - start then count else end - start;
        assert Range(start, n) == [start] + Range(start + 1, n - 1);
      }
    }
  }

  lemma AckTail(pending: map<nat, nat>, base: nat, n: nat, delivered: nat)
    requires Tail(pending, base, delivered) && base + n <= delivered
    ensures Tail(Ack(pending, Range(base, n)), base + n, delivered)
  {
    forall i ensures i in Range(base, n) <==> base <= i < base + n {
      if base <= i < base + n { assert Range(base, n)[i - base] == i; }
    }
  }

  lemma TakeTail(pending: map<nat, nat>, me: nat, base: nat, n: nat)
    requires Tail(pending, base, base)
    ensures Tail(Take(pending, me, Range(base, n)), base, base + n)
    ensures forall i :: i in Take(pending, me, Range(base, n)) ==> Take(pending, me, Range(base, n))[i] == me
  {
    forall i ensures i in Range(base, n) <==> base <= i < base + n {
      if base <= i < base + n { assert Range(base, n)[i - base] == i; }
    }
  }

  lemma ReadsKeep(g: Group, len: nat, step: Step, base: nat, produced: nat)
    requires InvAt(g, len, base, produced) && Enabled(g, step) && (step.Claim? || step.DrainRead? || step.LiveRead?)
    ensures InvAt(Next(g, len, step), len, base, produced)
  {
    match step
    case Claim(count) => AutoClaimTakes(g.pending, g.me, g.phase.cursor, g.delivered, count);
    case DrainRead(count) => OwnPendingIs(g.pending, g.me, 0, base, g.delivered, count);
    case LiveRead(count) => TakeTail(g.pending, g.me, base, FreshCount(g, len, count));
  }

  lemma ProducesKeep(g: Group, len: nat, step: Step, base: nat, produced: nat) returns (produced': nat)
    requires InvAt(g, len, base, produced) && Enabled(g, step) && (step.Produce? || step.FailProduce?)
    ensures InvAt(Next(g, len, step), len, base, produced')
  {
    var n := if step.Produce? then |g.phase.batch| else step.written;
    assert g.phase.batch[..n] == Range(base, n);
    BatchExtends(g.log, produced, base, n);
    produced' := if base + n > produced then base + n else produced;
  }

  lemma AcksKeep(g: Group, len: nat, step: Step, base: nat, produced: nat) returns (base': nat)
    requires InvAt(g, len, base, produced) && Enabled(g, step) && (step.AckBatch? || step.FailAck?)
    ensures InvAt(Next(g, len, step), len, base', produced)
  {
    AckTail(g.pending, base, |g.phase.batch|, g.delivered);
    base' := if step.FailAck? && !step.applied then base else base + |g.phase.batch|;
  }

  lemma StepKeepsInv(g: Group, len: nat, step: Step)
    requires Inv(g, len) && Enabled(g, step)
    ensures Inv(Next(g, len, step), len)
  {
    var base, produced :| InvAt(g, len, base, produced);
    match step
    case Start => assert InvAt(Next(g, len, step), len, base, produced);
    case Crash => assert InvAt(Next(g, len, step), len, base, produced);
    case Produce => var p := ProducesKeep(g, len, step, base, produced);
    case FailProduce(_) => var p := ProducesKeep(g, len, step, base, produced);
    case AckBatch => var b := AcksKeep(g, len, step, base, produced);
    case FailAck(_) => var b := AcksKeep(g, len, step, base, produced);
    case _ => ReadsKeep(g, len, step, base, produced);
  }

  /** The stream only grows, and the relay's invariant does not mind. */
  lemma GrowthKeepsInv(g: Group, len: nat, len': nat)
    requires Inv(g, len) && len <= len'
    ensures Inv(g, len')
  {
    var base, produced :| InvAt(g, len, base, produced);
    assert InvAt(g, len', base, produced);
  }

  // ---------- runs ----------

  ghost predicate StepAt(groups: seq<Group>, lens: seq<nat>, steps: seq<Option<Step>>, i: nat)
    requires |groups| == |lens| == |steps| + 1 && i < |steps|
  {
    && lens[i] <= lens[i + 1]
    && match steps[i]
       case None => groups[i + 1] == groups[i]
       case Some(step) => Enabled(groups[i], step) && groups[i + 1] == Next(groups[i], lens[i], step)
  }

  /** A run of relay processes, one at a time, beside a growing stream. */
  ghost predicate Run(groups: seq<Group>, lens: seq<nat>, steps: seq<Option<Step>>)
  {
    && |groups| == |lens| == |steps| + 1 && groups[0] == NEW_GROUP
    && forall i :: 0 <= i < |steps| ==> StepAt(groups, lens, steps, i)
  }

  lemma {:induction false} EveryStateIsOk(groups: seq<Group>, lens: seq<nat>, steps: seq<Option<Step>>, n: nat)
    requires Run(groups, lens, steps) && n < |groups|
    ensures Inv(groups[n], lens[n])
  {
    if n == 0 {
      assert Range(0, 0) == [];
      assert InvAt(groups[0], lens[0], 0, 0);
    } else {
      EveryStateIsOk(groups, lens, steps, n - 1);
      assert StepAt(groups, lens, steps, n - 1);
      if steps[n - 1].Some? {
        StepKeepsInv(groups[n - 1], lens[n - 1], steps[n - 1].value);
      }
      GrowthKeepsInv(groups[n], lens[n - 1], lens[n]);
    }
  }

  /** Before an entry appears in the log, every earlier entry of the stream has appeared. */
  lemma {:induction false} AppearInOrder(log: seq<nat>, n: nat, k: nat, i: nat)
    requires Prefix(log, n) && k < |log| && i < log[k]
    ensures i in log[..k]
    decreases |log|
  {
    var rest, x := log[..|log| - 1], log[|log| - 1];
    InPrefix(log, n);
    if x in rest {
      assert FirstTimes(rest) == FirstTimes(log);
    } else {
      assert FirstTimes(log) == FirstTimes(rest) + [x];
      assert FirstTimes(rest) == Range(0, n)[..n - 1] == Range(0, n - 1);
    }
    var m := if x in rest then n else n - 1;
    assert Prefix(rest, m);
    if k < |rest| {
      assert rest[..k] == log[..k];
      AppearInOrder(rest, m, k, i);
    } else {
      InPrefix(rest, m);
      assert Range(0, n)[n - 1] == n - 1;
      assert log[..k] == rest;
    }
  }

  /**
   * Over any crashes, failed produces and restarts: first appearances in Kafka follow stream
   * order, so a settlement never comes before the wagers it settles.
   */
  lemma RelayKeepsOrder(groups: seq<Group>, lens: seq<nat>, steps: seq<Option<Step>>, n: nat)
    requires Run(groups, lens, steps) && n < |groups|
    ensures exists p :: p <= lens[n] && Prefix(groups[n].log, p)
    ensures forall k, i :: 0 <= k < |groups[n].log| && 0 <= i < groups[n].log[k] ==> i in groups[n].log[..k]
  {
    EveryStateIsOk(groups, lens, steps, n);
    var base, produced :| InvAt(groups[n], lens[n], base, produced);
    forall k, i | 0 <= k < |groups[n].log| && 0 <= i < groups[n].log[k] ensures i in groups[n].log[..k] {
      AppearInOrder(groups[n].log, produced, k, i);
    }
  }

  /**
   * Nothing is lost: a delivered entry is pending or already produced, new entries are only read
   * once nothing is pending, and pending entries are the tail of the delivered ones.
   */
  lemma RelayLosesNothing(groups: seq<Group>, lens: seq<nat>, steps: seq<Option<Step>>, n: nat)
    requires Run(groups, lens, steps) && n < |groups|
    ensures forall i :: 0 <= i < groups[n].delivered ==> i in groups[n].pending || i in groups[n].log
    ensures groups[n].phase.Following? ==> groups[n].pending == map[]
    ensures exists base :: Tail(groups[n].pending, base, groups[n].delivered)
  {
    EveryStateIsOk(groups, lens, steps, n);
    NothingLost(groups[n], lens[n]);
  }

  lemma NothingLost(g: Group, len: nat)
    requires Inv(g, len)
    ensures forall i :: 0 <= i < g.delivered ==> i in g.pending || i in g.log
    ensures g.phase.Following? ==> g.pending == map[]
    ensures exists base :: Tail(g.pending, base, g.delivered)
    ensures forall i :: i in g.log ==> i < len
  {
    var base, produced :| InvAt(g, len, base, produced);
    InPrefix(g.log, produced);
  }
}
