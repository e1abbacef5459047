/**
 * The relay process itself: claim orphans, drain, then follow the stream. Its commands are steps of
 * `Relay`, taken one at a time on the group's fields; the loops are the source's, and each is proved
 * to end where the next one may start. Which produce calls and acknowledgements fail is given in
 * advance, call by call, and arbitrary; one that fails stops the process with the group's invariant
 * kept, so that the next process can take over.
 */
module RelayProcess {
  import opened Base
  import opened Relay

  /** How a produce call ends: all of the batch was written, or only so many entries and an error. */
  datatype Sent = AllSent | OnlyFirst(n: nat)

  /** How an acknowledgement ends: done, or an error, which may come after it took effect. */
  datatype Acked = AckDone | AckFailed(applied: bool)

  /** Consecutive entries were added at the end of the log. */
  ghost predicate Appended(before: seq<nat>, after: seq<nat>, from: nat, n: nat)
  {
    && before <= after && |after| == |before| + n
    && forall i :: |before| <= i < |after| ==> after[i] == from + i - |before|
  }

  /** All produce calls from one number up to another succeed, and so do all acknowledgements. */
  ghost predicate AllWell(kafka: nat -> Sent, redis: nat -> Acked, produced: nat, produces: nat, acked: nat, acks: nat)
  {
    && (forall i :: produced <= i < produces ==> kafka(i).AllSent?)
    && (forall i :: acked <= i < acks ==> redis(i).AckDone?)
  }

  lemma OneWell(kafka: nat -> Sent, redis: nat -> Acked, p: nat, a: nat)
    ensures AllWell(kafka, redis, p, p + 1, a, a + if kafka(p).AllSent? then 1 else 0)
       <==> kafka(p).AllSent? && redis(a).AckDone?
  {
    if kafka(p).AllSent? { assert a <= a < a + 1; }
  }

  lemma WellOn(kafka: nat -> Sent, redis: nat -> Acked, p: nat, q: nat, r: nat, a: nat, b: nat, c: nat)
    requires p <= q <= r && a <= b <= c && AllWell(kafka, redis, p, q, a, b)
    ensures AllWell(kafka, redis, p, r, a, c) <==> AllWell(kafka, redis, q, r, b, c)
  {
  }

  class Process {
    /** What the process's calls will be answered, and how many it has made. */
    const kafka: nat -> Sent
    const redis: nat -> Acked
    var produces: nat
    var acks: nat

    /** The consumer group and the Kafka log, as this process sees and changes them. */
    var stream: nat
    var delivered: nat
    var pending: map<nat, nat>
    var log: seq<nat>
    const consumer: nat

    constructor (consumer: nat, stream: nat, delivered: nat, pending: map<nat, nat>, log: seq<nat>, kafka: nat -> Sent,
                 redis: nat -> Acked)
      ensures this.consumer == consumer && State(Claiming(0)) == Group(delivered, pending, consumer, log, Claiming(0))
      ensures this.stream == stream && this.kafka == kafka && this.redis == redis && produces == acks == 0
    {
      this.consumer, this.stream, this.delivered, this.pending, this.log := consumer, stream, delivered, pending, log;
      this.kafka, this.redis, this.produces, this.acks := kafka, redis, 0, 0;
    }

    ghost function State(phase: Phase): Group
      reads this
    {
      Group(delivered, pending, consumer, log, phase)
    }

    /** XAUTOCLAIM, one command. */
    method XAutoClaim(start: nat, count: nat) returns (claimed: nat, next: Option<nat>)
      modifies this`pending
      ensures (pending, next) == AutoClaim(old(pending), consumer, start, delivered, count)
      ensures claimed == Count(old(pending.Keys), start, if next.None? then delivered else next.value)
      ensures claimed <= count
    {
      var i: nat := start;
      var p: map<nat, nat> := pending;
      claimed := 0;
      while i < delivered && (claimed < count || i !in p)
        invariant claimed <= count && claimed == Count(pending.Keys, start, i) && p.Keys == pending.Keys
        invariant start <= i && (i <= delivered || i == start)
        invariant AutoClaim(pending, consumer, start, delivered, count) ==
                  AutoClaim(p, consumer, i, delivered, count - claimed)
        decreases delivered - i
      {
        if i in p {
          p := p[i := consumer];
          claimed := claimed + 1;
        }
        i := i + 1;
      }
      next := if i < delivered then Some(i) else None;
      pending := p;
    }

    /** Every pending entry ends up with this consumer, whoever held it. */
    method ClaimOrphans(count: nat) returns (claimed: nat)
      requires count > 0 && Inv(State(Claiming(0)), stream)
      modifies this`pending
      ensures Inv(State(Draining), stream)
      ensures claimed == |old(pending)|
      ensures pending.Keys == old(pending).Keys && forall i :: i in pending ==> pending[i] == consumer
    {
      claimed := 0;
      var start := 0;
      PendingIsDelivered(State(Claiming(0)), stream);
      while true
        invariant claimed == Count(old(pending.Keys), 0, start) && start <= delivered
        invariant Inv(State(Claiming(start)), stream) && pending.Keys == old(pending.Keys)
        decreases delivered - start
      {
        ghost var before := State(Claiming(start));
        assert forall i :: i in pending ==> i < delivered by { PendingIsDelivered(before, stream); }
        StepKeepsInv(before, stream, Step.Claim(count));
        AutoClaimTakes(pending, consumer, start, delivered, count) by { ClaimedSoFar(before, stream); }
        var n, next := XAutoClaim(start, count);
        claimed := claimed + n;
        CountSplits(old(pending.Keys), 0, start, if next.None? then delivered else next.value);
        assert Next(before, stream, Step.Claim(count)) == State(if next.None? then Draining else Claiming(next.value));
        if next.None? {
          CountsAll(pending.Keys, delivered);
          return;
        }
        start := next.value;
      }
    }

    /** XREADGROUP from id 0: this consumer's own pending entries. */
    method XReadOwn(count: nat) returns (batch: seq<nat>)
      ensures batch == OwnPending(pending, consumer, 0, delivered, count)
    {
      var i: nat := 0;
      batch := [];
      while i < delivered && |batch| < count
        invariant 0 <= i <= delivered && |batch| <= count
        invariant OwnPending(pending, consumer, 0, delivered, count) ==
                    batch + OwnPending(pending, consumer, i, delivered, count - |batch|)
      {
        if i in pending && pending[i] == consumer {
          batch := batch + [i];
        }
        i := i + 1;
      }
    }

    /** XREADGROUP from >: undelivered entries, now pending with this consumer. */
    method XReadNew(count: nat) returns (batch: seq<nat>)
      modifies this`pending, this`delivered
      ensures batch == Range(old(delivered), FreshCount(old(State(Following)), stream, count))
      ensures delivered == old(delivered) + |batch|
      ensures pending == if batch == [] then old(pending) else Take(old(pending), consumer, batch)
    {
      batch := [];
      TakeNone(pending, consumer);
      while delivered < stream && |batch| < count
        invariant |batch| <= count && delivered == old(delivered) + |batch|
        invariant delivered <= stream || batch == []
        invariant batch == Range(old(delivered), |batch|)
        invariant pending == Take(old(pending), consumer, batch)
        decreases stream - delivered
      {
        TakeNext(old(pending), consumer, old(delivered), |batch|);
        batch := batch + [delivered];
        pending := pending[delivered := consumer];
        delivered := delivered + 1;
      }
    }

    /** A produce call: all of the batch and success, or some of it and an error. */
    method Produce(batch: seq<nat>) returns (ok: bool)
      modifies this`log, this`produces
      ensures produces == old(produces) + 1 && (ok <==> kafka(old(produces)).AllSent?)
      ensures log == old(log) + if ok then batch else batch[..Least(kafka(old(produces)).n, |batch|)]
    {
      var answer := kafka(produces);
      produces := produces + 1;
      ok := answer.AllSent?;
      log := log + if ok then batch else batch[..Least(answer.n, |batch|)];
    }

    /** An acknowledgement of a batch. */
    method XAck(batch: seq<nat>) returns (ok: bool)
      modifies this`pending, this`acks
      ensures acks == old(acks) + 1 && (ok <==> redis(old(acks)).AckDone?)
      ensures pending == if ok || redis(old(acks)).applied then Relay.Ack(old(pending), batch) else old(pending)
    {
      var answer := redis(acks);
      acks := acks + 1;
      ok := answer.AckDone?;
      if ok || answer.applied {
        pending := pending - (set i | i in batch);
      }
    }

    /** Produce a batch that was read, and acknowledge it only once that succeeded. */
    method ProduceAck(batch: seq<nat>, drain: bool) returns (ok: bool)
      requires batch != [] && Inv(State(Producing(batch, drain)), stream)
      modifies this`pending, this`log, this`produces, this`acks
      ensures produces == old(produces) + 1
      ensures acks == old(acks) + if kafka(old(produces)).AllSent? then 1 else 0
      ensures ok <==> kafka(old(produces)).AllSent? && redis(old(acks)).AckDone?
      ensures ok <==> AllWell(kafka, redis, old(produces), produces, old(acks), acks)
      ensures ok ==> Inv(State(if drain then Draining else Following), stream)
                     && log == old(log) + batch && pending == Relay.Ack(old(pending), batch)
      ensures !ok ==> Inv(State(Down), stream) && old(log) <= log
      ensures kafka(old(produces)).AllSent? ==> log == old(log) + batch
    {
      ghost var g := State(Producing(batch, drain));
      OneWell(kafka, redis, produces, acks);
      ok := Produce(batch);
      if !ok {
        StepKeepsInv(g, stream, Step.FailProduce(Least(kafka(old(produces)).n, |batch|)));
        return;
      }
      StepKeepsInv(g, stream, Step.Produce);
      ghost var sent := State(Acking(batch, drain));
      ok := XAck(batch);
      if ok {
        StepKeepsInv(sent, stream, Step.AckBatch);
      } else {
        StepKeepsInv(sent, stream, Step.FailAck(redis(old(acks)).applied));
      }
    }

    /**
     * Relay this consumer's own pending entries, the oldest first, as many as one read takes; 0
     * means there were none left. It fails only if the produce call or the acknowledgement does.
     */
    method Recover(count: nat) returns (ok: bool, n: nat)
      requires count > 0 && Inv(State(Draining), stream)
      modifies this`pending, this`log, this`produces, this`acks
      ensures |old(pending)| <= delivered
      ensures var own := if count < |old(pending)| then count else |old(pending)|;
              && produces == old(produces) + (if own > 0 then 1 else 0)
              && acks == old(acks) + (if own > 0 && kafka(old(produces)).AllSent? then 1 else 0)
              && (ok <==> own == 0 || (kafka(old(produces)).AllSent? && redis(old(acks)).AckDone?))
              && n == (if ok then own else 0)
              && (ok ==> Appended(old(log), log, delivered - |old(pending)|, own) && |pending| == |old(pending)| - n)
              && (ok ==> forall i :: i in pending <==> i in old(pending) && i >= delivered - |old(pending)| + own)
      ensures ok <==> AllWell(kafka, redis, old(produces), produces, old(acks), acks)
      ensures ok && n == 0 ==> pending == old(pending) == map[] && log == old(log) && Inv(State(Following), stream)
      ensures ok && n > 0 ==> Inv(State(Draining), stream)
      ensures !ok ==> Inv(State(Down), stream)
    {
      PendingIsTail(State(Draining), stream);
      StepKeepsInv(State(Draining), stream, Step.DrainRead(count));
      var batch := XReadOwn(count);
      OwnedAreFirst(State(Draining), stream, batch, count);
      if batch == [] {
        NothingLost(State(Following), stream);
        return true, 0;
      }
      ok := RelayOwn(batch);
      n := if ok then |batch| else 0;
    }

    /** Relay the first of the pending entries, which were read. */
    method RelayOwn(batch: seq<nat>) returns (ok: bool)
      requires |pending| <= delivered && batch == Range(delivered - |pending|, |batch|) && 0 < |batch| <= |pending|
      requires Tail(pending, delivered - |pending|, delivered) && Inv(State(Producing(batch, true)), stream)
      modifies this`pending, this`log, this`produces, this`acks
      ensures produces == old(produces) + 1
      ensures acks == old(acks) + if kafka(old(produces)).AllSent? then 1 else 0
      ensures ok <==> kafka(old(produces)).AllSent? && redis(old(acks)).AckDone?
      ensures ok <==> AllWell(kafka, redis, old(produces), produces, old(acks), acks)
      ensures ok ==> Inv(State(Draining), stream) && |pending| == |old(pending)| - |batch|
                     && Appended(old(log), log, delivered - |old(pending)|, |batch|)
      ensures ok ==> forall i :: i in pending <==> i in old(pending) && i >= delivered - |old(pending)| + |batch|
      ensures !ok ==> Inv(State(Down), stream)
    {
      OwnedAreGone(pending, delivered - |pending|, batch, delivered);
      RangeAppends(log, delivered - |pending|, batch);
      ok := ProduceAck(batch, true);
    }

    /**
     * One read, produce and acknowledge cycle over new entries: it relays those that wait, as many
     * as one read takes, and fails only if the produce call or the acknowledgement does.
     */
    method Once(count: nat) returns (ok: bool, n: nat)
      requires Inv(State(Following), stream)
      modifies this`pending, this`delivered, this`log, this`produces, this`acks
      ensures old(delivered) <= stream
      ensures var due := if count < stream - old(delivered) then count else stream - old(delivered);
              && delivered == old(delivered) + due
              && produces == old(produces) + (if due > 0 then 1 else 0)
              && acks == old(acks) + (if due > 0 && kafka(old(produces)).AllSent? then 1 else 0)
              && (ok <==> due == 0 || (kafka(old(produces)).AllSent? && redis(old(acks)).AckDone?))
              && n == (if ok then due else 0)
              && (ok ==> Appended(old(log), log, old(delivered), due))
      ensures ok <==> AllWell(kafka, redis, old(produces), produces, old(acks), acks)
      ensures ok ==> Inv(State(Following), stream) && pending == map[]
      ensures !ok ==> Inv(State(Down), stream)
    {
      NothingLost(State(Following), stream);
      StepKeepsInv(State(Following), stream, Step.LiveRead(count));
      var batch := XReadNew(count);
      if batch == [] {
        return true, 0;
      }
      ok := ProduceAck(batch, false);
      n := if ok then |batch| else 0;
      if ok {
        NothingLost(State(Following), stream);
      }
    }

    /** Recover until nothing is left. */
    method Drain() returns (ok: bool)
      requires Inv(State(Draining), stream)
      modifies this`pending, this`log, this`produces, this`acks
      ensures produces >= old(produces) && acks >= old(acks) && |old(pending)| <= delivered
      ensures ok <==> AllWell(kafka, redis, old(produces), produces, old(acks), acks)
      ensures ok ==> Inv(State(Following), stream) && pending == map[]
                     && Appended(old(log), log, delivered - |old(pending)|, |old(pending)|)
      ensures !ok ==> Inv(State(Down), stream)
    {
      var n := 1;
      PendingIsTail(State(Draining), stream);
      while n > 0
        invariant produces >= old(produces) && acks >= old(acks)
        invariant AllWell(kafka, redis, old(produces), produces, old(acks), acks)
        invariant |pending| <= |old(pending)| <= delivered
        invariant Appended(old(log), log, delivered - |old(pending)|, |old(pending)| - |pending|)
        invariant n > 0 ==> Inv(State(Draining), stream)
        invariant n == 0 ==> Inv(State(Following), stream) && pending == map[]
        decreases |pending|, n
      {
        ghost var before, left, p, a := log, |pending|, produces, acks;
        ok, n := Recover(100);
        WellOn(kafka, redis, old(produces), p, produces, old(acks), a, acks);
        if !ok {
          return;
        }
        AppendedTwice(old(log), before, log, delivered - |old(pending)|, |old(pending)| - left, n);
      }
      ok := true;
    }

    /**
     * The whole process, with `cycles` reads before it is told to stop. It ends well exactly if all
     * its calls do, and then it has relayed, in order, everything that was pending and after that
     * the new entries, up to 100 a cycle.
     */
    method Run(cycles: nat) returns (ok: bool)
      requires Inv(State(Claiming(0)), stream)
      modifies this`pending, this`delivered, this`log, this`produces, this`acks
      ensures |old(pending)| <= old(delivered) <= delivered && produces >= old(produces) && acks >= old(acks)
      ensures ok <==> AllWell(kafka, redis, old(produces), produces, old(acks), acks)
      ensures ok ==> Inv(State(Following), stream) && pending == map[] && forall i :: 0 <= i < delivered ==> i in log
      ensures ok ==>
                && delivered == (var most := old(delivered) + 100 * cycles; if most < stream then most else stream)
                && Appended(old(log), log, old(delivered) - |old(pending)|,
                            |old(pending)| + delivered - old(delivered))
      ensures !ok ==> Inv(State(Down), stream)
    {
      PendingIsTail(State(Claiming(0)), stream);
      var claimed := ClaimOrphans(100);
      assert |pending| == |pending.Keys| == |old(pending)|;
      ok := Drain();
      if !ok {
        return;
      }
      for i := 0 to cycles
        invariant Inv(State(Following), stream) && pending == map[]
        invariant |old(pending)| <= old(delivered) <= delivered <= stream
        invariant produces >= old(produces) && acks >= old(acks)
        invariant AllWell(kafka, redis, old(produces), produces, old(acks), acks)
        invariant delivered == if old(delivered) + 100 * i < stream then old(delivered) + 100 * i else stream
        invariant Appended(old(log), log, old(delivered) - |old(pending)|,
                           |old(pending)| + delivered - old(delivered))
      {
        ghost var before, from, p, a := log, delivered, produces, acks;
        var n;
        ok, n := Once(100);
        WellOn(kafka, redis, old(produces), p, produces, old(acks), a, acks);
        if !ok {
          return;
        }
        AppendedTwice(old(log), before, log, old(delivered) - |old(pending)|, |old(pending)| + from - old(delivered),
                      n);
      }
      ok := true;
      NothingLost(State(Following), stream);
    }
  }

  function Least(a: nat, b: nat): nat { if a < b then a else b }

  lemma TakeNone(pending: map<nat, nat>, me: nat)
    ensures Take(pending, me, []) == pending
  {
  }

  lemma TakeNext(pending: map<nat, nat>, me: nat, from: nat, k: nat)
    ensures Range(from, k + 1) == Range(from, k) + [from + k]
    ensures Take(pending, me, Range(from, k + 1)) == Take(pending, me, Range(from, k))[from + k := me]
  {
  }

  /** How many entries from `lo` up to `hi` are pending. */
  function Count(pending: set<nat>, lo: nat, hi: nat): nat
  {
    if hi <= lo then 0 else Count(pending, lo, hi - 1) + if hi - 1 in pending then 1 else 0
  }

  lemma {:induction false} CountSplits(pending: set<nat>, lo: nat, mid: nat, hi: nat)
    requires lo <= mid <= hi
    ensures Count(pending, lo, mid) + Count(pending, mid, hi) == Count(pending, lo, hi)
  {
    if mid < hi { CountSplits(pending, lo, mid, hi - 1); }
  }

  lemma {:induction false} CountsAll(pending: set<nat>, hi: nat)
    requires forall i :: i in pending ==> i < hi
    ensures Count(pending, 0, hi) == |pending|
  {
    if hi == 0 {
      assert pending == {};
    } else {
      CountsAll(pending - {hi - 1}, hi - 1);
      CountSame(pending, pending - {hi - 1}, hi - 1);
      if hi - 1 !in pending { assert pending - {hi - 1} == pending; }
    }
  }

  lemma {:induction false} CountSame(a: set<nat>, b: set<nat>, hi: nat)
    requires forall i :: 0 <= i < hi ==> (i in a <==> i in b)
    ensures Count(a, 0, hi) == Count(b, 0, hi)
  {
    if hi > 0 { CountSame(a, b, hi - 1); }
  }

  lemma PendingIsDelivered(g: Group, len: nat)
    requires Inv(g, len)
    ensures forall i :: i in g.pending ==> i < g.delivered
  {
  }

  lemma ClaimedSoFar(g: Group, len: nat)
    requires Inv(g, len) && g.phase.Claiming?
    ensures forall i :: i in g.pending ==> i < g.delivered
    ensures forall i :: i in g.pending && i < g.phase.cursor ==> g.pending[i] == g.me
  {
  }

  lemma {:induction false} TailSize(pending: map<nat, nat>, base: nat, delivered: nat)
    requires Tail(pending, base, delivered)
    ensures |pending| == delivered - base
    decreases delivered
  {
    if base < delivered {
      assert (pending - {delivered - 1}).Keys == pending.Keys - {delivered - 1};
      TailSize(pending - {delivered - 1}, base, delivered - 1);
    } else {
      assert pending == map[];
    }
  }

  /** What is pending are the last entries that were delivered. */
  lemma PendingIsTail(g: Group, len: nat)
    requires Inv(g, len)
    ensures |g.pending| <= g.delivered <= len
    ensures forall i :: i in g.pending <==> g.delivered - |g.pending| <= i < g.delivered
  {
    var base: nat, produced: nat :| InvAt(g, len, base, produced);
    TailSize(g.pending, base, g.delivered);
  }

  /** A read of one's own entries takes the first of the pending ones. */
  lemma OwnedAreFirst(g: Group, len: nat, batch: seq<nat>, count: nat)
    requires Inv(g, len) && g.phase.Draining? && batch == OwnPending(g.pending, g.me, 0, g.delivered, count)
    ensures |g.pending| <= g.delivered
    ensures var n := if count < |g.pending| then count else |g.pending|; batch == Range(g.delivered - |g.pending|, n)
    ensures forall i :: i in batch ==> i in g.pending
    ensures forall i :: i in batch <==> g.delivered - |g.pending| <= i < g.delivered - |g.pending| + |batch|
  {
    var base: nat, produced: nat :| InvAt(g, len, base, produced);
    TailSize(g.pending, base, g.delivered);
    OwnPendingIs(g.pending, g.me, 0, base, g.delivered, count);
    forall i | base <= i < base + |batch| ensures i in batch { assert batch[i - base] == i; }
  }

  /** Acknowledging the first entries of a tail leaves the rest of it. */
  lemma OwnedAreGone(pending: map<nat, nat>, base: nat, batch: seq<nat>, delivered: nat)
    requires Tail(pending, base, delivered) && base + |batch| <= delivered && batch == Range(base, |batch|)
    ensures var rest := Relay.Ack(pending, batch);
            |rest| == |pending| - |batch| && forall i :: i in rest <==> i in pending && i >= base + |batch|
  {
    AckTail(pending, base, |batch|, delivered);
    TailSize(pending, base, delivered);
    TailSize(Relay.Ack(pending, batch), base + |batch|, delivered);
  }

  lemma RangeAppends(log: seq<nat>, from: nat, batch: seq<nat>)
    requires batch == Range(from, |batch|)
    ensures Appended(log, log + batch, from, |batch|)
  {
  }

  lemma AppendedTwice(a: seq<nat>, b: seq<nat>, c: seq<nat>, from: nat, m: nat, n: nat)
    requires Appended(a, b, from, m) && Appended(b, c, from + m, n)
    ensures Appended(a, c, from, m + n)
  {
  }
}
