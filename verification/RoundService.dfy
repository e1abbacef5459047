/** A round's two ends: the watch that locks and in the end refunds it, and the host who resolves it. */
module RoundService {
  import opened Base
  import opened Payout
  import opened Store
  import opened StoreInvariant
  import opened StoreRuns
  import opened StoreLaws
  import R = RedisStore

  datatype Broadcast = LockedSent | RefundedSent(total: int)

  datatype Ending = Canceled | Failed | Finished

  datatype ResultRow = ResultRow(user: string, name: string, staked: int, returned: int, net: int)

  datatype Reveal = Reveal(round: string, winner: int, results: seq<ResultRow>, dust: int, refunded: bool)

  datatype ResolveError = NotHost | NoActiveRound | BadOutcomeIndex | StoreRefused(why: CallResult)

  /** A round that exists at one moment of a run, and is not open then, is still so at the end. */
  lemma StaysPut(history: seq<Store>, trace: seq<Step>, n: nat, s: Store, id: string)
    requires R.Traced(history, trace, s) && n < |history| && id in history[n].rounds
    ensures id in s.rounds && s.rounds[id].room == history[n].rounds[id].room
    ensures history[n].rounds[id].status != Open ==> s.rounds[id].status != Open
    ensures IsTerminal(history[n].rounds[id].status) ==> IsTerminal(s.rounds[id].status)
  {
    RunFreezes(history, trace, n, |trace|);
  }

  /** A call that is not under way, or whose script did not apply, did not end a round just now. */
  lemma NotEndedBy(history: seq<Store>, trace: seq<Step>, s: Store, call: nat, aim: Aim, id: string, key: string)
    requires R.Traced(history, trace, s) && (call in s.calls ==> s.calls[call].at != Done(Applied))
    ensures !R.EndedBy(history, trace, call, aim, id, key)
  {
    if |trace| > 0 {
      assert s == Next(history[|trace| - 1], trace[|trace| - 1]);
    }
  }

  class Service {
    const store: R.RedisStore

    constructor (store: R.RedisStore)
      ensures this.store == store
    {
      this.store := store;
    }

    /** Wait for the lock instant and lock; `ended` says that the round had ended already. */
    method AwaitLock(ghost call: nat, id: string, key: string) returns (ended: bool, ghost at: nat)
      requires store.Valid() && id in store.rounds && Enabled(store.State(), DoBegin(call, RefundAll, id, key))
      modifies store
      ensures store.Valid() && Enabled(store.State(), DoBegin(call, RefundAll, id, key))
      ensures store.exact == old(store.exact) && old(store.history) <= store.history && old(store.trace) <= store.trace
      ensures store.exact ==> LockTried(store.history, store.trace, at, id, ended)
      ensures store.exact && ended ==> id in store.rounds && IsTerminal(store.rounds[id].status)
    {
      ghost var h := store.history;
      store.OthersBefore(call, RefundAll, id, key);
      if store.exact { StaysPut(store.history, store.trace, |h| - 1, store.State(), id); }
      var reply := store.LockRound(id);
      ended, at := reply == RoundTerminal, |store.history| - 1;
    }

    /** Wait out the grace period and refund the round if nobody has ended it. */
    method AwaitRefund(ghost call: nat, id: string, key: string, ghost at: nat)
      returns (end: Ending, refunded: Option<int>)
      requires store.Valid() && Enabled(store.State(), DoBegin(call, RefundAll, id, key))
      requires store.exact ==> LockTried(store.history, store.trace, at, id, false)
      modifies store
      ensures store.Valid() && end != Canceled
      ensures old(store.history) <= store.history && old(store.trace) <= store.trace
      ensures store.exact ==> old(store.exact)
      ensures old(store.exact) && !store.exact ==> Spoiled(store.history, store.trace, RefundAll, id)
      ensures store.exact ==> end == Finished && id in store.rounds && IsTerminal(store.rounds[id].status)
      ensures store.exact && refunded.Some? ==>
                R.RefundedBy(store.history, store.trace, call, id, key, refunded.value)
      ensures store.exact && refunded.None? ==> !R.EndedBy(store.history, store.trace, call, RefundAll, id, key)
      ensures refunded.Some? ==> R.Ended(store.rounds, id, true, -1)
    {
      refunded := None;
      store.OthersBefore(call, RefundAll, id, key);
      if store.exact {
        StaysPut(store.history, store.trace, at, store.State(), id);
        NotEndedBy(store.history, store.trace, store.State(), call, RefundAll, id, key);
      }
      if id !in store.rounds {
        return Failed, None;
      }
      if store.rounds[id].status == Resolved || store.rounds[id].status == Refunded {
        return Finished, None;
      }
      end, refunded := TryRefund(call, id, key, at);
    }

    /** Refund the round, which is not open any more, unless somebody else ends it first. */
    method TryRefund(ghost call: nat, id: string, key: string, ghost at: nat)
      returns (end: Ending, refunded: Option<int>)
      requires store.Valid() && Enabled(store.State(), DoBegin(call, RefundAll, id, key))
      requires store.exact ==> LockTried(store.history, store.trace, at, id, false)
      modifies store
      ensures store.Valid() && end != Canceled
      ensures old(store.history) <= store.history && old(store.trace) <= store.trace
      ensures store.exact ==> old(store.exact)
      ensures old(store.exact) && !store.exact ==> Spoiled(store.history, store.trace, RefundAll, id)
      ensures store.exact ==> end == Finished && id in store.rounds && IsTerminal(store.rounds[id].status)
      ensures store.exact && refunded.Some? ==>
                R.RefundedBy(store.history, store.trace, call, id, key, refunded.value)
      ensures store.exact && refunded.None? ==> !R.EndedBy(store.history, store.trace, call, RefundAll, id, key)
      ensures refunded.Some? ==> R.Ended(store.rounds, id, true, -1)
    {
      var r := store.RefundRound(call, id, key);
      if store.exact { StaysPut(store.history, store.trace, at, store.State(), id); }
      if store.exact && r.Err? {
        NotEndedBy(store.history, store.trace, store.State(), call, RefundAll, id, key);
      }
      refunded := if r.Ok? then Some(r.value) else None;
      end := if r.Ok? || r.error == AlreadySettled then Finished else Failed;
    }

    /**
     * One round's clock: wait, lock, wait again, and refund whatever nobody has resolved. Unless
     * it is canceled the round has ended when the watch is over, whoever ended it. The lock is
     * announced exactly if the round had not ended when it was tried at moment `at`, and a refund
     * exactly if the watch's own refund ended the round, with all that was staked.
     */
    method Watch(ghost call: nat, id: string, key: string, cancel: Option<nat>)
      returns (end: Ending, sent: seq<Broadcast>, ghost at: nat)
      requires store.Valid() && id in store.rounds && Enabled(store.State(), DoBegin(call, RefundAll, id, key))
      modifies store
      ensures store.Valid() && (end == Canceled <==> cancel == Some(0) || (cancel == Some(1) && sent == [LockedSent]))
      ensures old(store.exact) && !store.exact ==> Spoiled(store.history, store.trace, RefundAll, id)
      ensures store.exact && end != Canceled ==>
                end == Finished && id in store.rounds && IsTerminal(store.rounds[id].status)
      ensures sent == [] || sent == [LockedSent] || exists total :: sent == [LockedSent, RefundedSent(total)]
      ensures cancel == Some(0) ==> sent == []
      ensures store.exact && cancel != Some(0) ==> LockTried(store.history, store.trace, at, id, sent == [])
      ensures store.exact ==> (|sent| == 2 <==> R.EndedBy(store.history, store.trace, call, RefundAll, id, key))
      ensures store.exact && |sent| == 2 ==>
                R.RefundedBy(store.history, store.trace, call, id, key, sent[1].total)
                && R.Ended(store.rounds, id, true, -1)
    {
      sent := [];
      if store.exact { NotEndedBy(store.history, store.trace, store.State(), call, RefundAll, id, key); }
      if cancel == Some(0) {
        return Canceled, sent, 0;
      }
      var ended;
      ended, at := AwaitLock(call, id, key);
      if store.exact { NotEndedBy(store.history, store.trace, store.State(), call, RefundAll, id, key); }
      if ended {
        return Finished, sent, at;
      }
      sent := [LockedSent];
      if cancel == Some(1) {
        return Canceled, sent, at;
      }
      var refunded;
      end, refunded := AwaitRefund(call, id, key, at);
      if refunded.Some? {
        sent := sent + [RefundedSent(refunded.value)];
      }
    }

    /** The reveal's rows, named where a name is known. */
    static method NameRows(results: seq<PlayerResult>, names: map<string, string>) returns (rows: seq<ResultRow>)
      ensures |rows| == |results|
      ensures forall i :: 0 <= i < |rows| ==>
                && rows[i].user == results[i].user && rows[i].staked == results[i].staked
                && rows[i].returned == results[i].returned && rows[i].net == results[i].net
                && IsNamed(rows[i], names)
    {
      rows := [];
      for i := 0 to |results|
        invariant |rows| == i
        invariant forall j :: 0 <= j < i ==>
                    && rows[j].user == results[j].user && rows[j].staked == results[j].staked
                    && rows[j].returned == results[j].returned && rows[j].net == results[j].net
                    && IsNamed(rows[j], names)
      {
        var name := if results[i].user in names then names[results[i].user] else "";
        if name == "" {
          name := results[i].user;
        }
        rows := rows + [ResultRow(results[i].user, name, results[i].staked, results[i].returned, results[i].net)];
      }
    }

    /**
     * The host resolves the room's current round: what is revealed is the settlement, by this very
     * call, of the wagers the round held when it ended.
     */
    method Resolve(ghost call: nat, host: string, caller: string, current: Option<string>, winner: int,
                   names: map<string, string>, key: string) returns (r: Result<Reveal, ResolveError>)
      requires store.Valid()
      requires forall id :: Enabled(store.State(), DoBegin(call, SettleOn(winner), id, key))
      modifies store
      ensures store.Valid()
      ensures r == Err(NotHost) <==> caller != host
      ensures r == Err(NoActiveRound) <==> caller == host && current.None?
      ensures r == Err(BadOutcomeIndex) <==>
              caller == host && current.Some? && OutOfRange(old(store.rounds), current.value, winner)
      ensures r == Err(BadOutcomeIndex) ==> store.State() == old(store.State())
      ensures old(store.exact) && !store.exact ==>
                current.Some? && Spoiled(store.history, store.trace, SettleOn(winner), current.value)
      ensures r.Ok? ==> current.Some? && R.Ended(store.rounds, current.value, r.value.refunded, winner)
      ensures store.exact && r.Err? && r.error.StoreRefused? ==>
                R.Refused(store.State(), SettleOn(winner), current.value, r.error.why)
      ensures store.exact && r.Ok? ==>
                && current == Some(r.value.round) && r.value.winner == winner
                && R.EndedBy(store.history, store.trace, call, SettleOn(winner), current.value, key)
                && var stakes := R.StakesOf(store.history, store.trace, call);
                   var st := Settled(Unbounded, stakes, winner);
                   && r.value.dust == st.dust && r.value.refunded == st.refunded && |r.value.results| == |st.results|
                   && forall i :: 0 <= i < |st.results| ==>
                        var row := r.value.results[i];
                        && row.user == st.results[i].user && IsNamed(row, names)
                        && row.staked == SumBy(stakes, By(row.user))
                        && row.returned == SumBy(st.payouts, PaidTo(row.user)) && row.net == row.returned - row.staked
    {
      if caller != host {
        return Err(NotHost);
      }
      if current.None? {
        return Err(NoActiveRound);
      }
      if current.value !in store.rounds {
        return Err(StoreRefused(NoRound));
      }
      if !ValidOutcome(winner, store.rounds[current.value].outcomeCount) {
        return Err(BadOutcomeIndex);
      }
      store.OthersBefore(call, SettleOn(winner), current.value, key);
      var settled := store.SettleRound(call, current.value, winner, key);
      if settled.Err? {
        return Err(StoreRefused(settled.error));
      }
      var rows := NameRows(settled.value.results, names);
      r := Ok(Reveal(current.value, winner, rows, settled.value.dust, settled.value.refunded));
    }
  }

  predicate OutOfRange(rounds: map<string, Round>, id: string, winner: int)
  {
    id in rounds && !ValidOutcome(winner, rounds[id].outcomeCount)
  }

  /** A row bears the name that is known for its user, and the user's ID if none is. */
  predicate IsNamed(row: ResultRow, names: map<string, string>)
  {
    && (row.user in names && names[row.user] != "" ==> row.name == names[row.user])
    && (row.user !in names || names[row.user] == "" ==> row.name == row.user)
  }

  /** The step before moment `n` tried to lock the round, which had `ended`, or is locked now. */
  ghost predicate LockTried(history: seq<Store>, trace: seq<Step>, n: nat, id: string, ended: bool)
  {
    && 0 < n < |history| && n <= |trace| && trace[n - 1] == DoLock(id) && id in history[n].rounds
    && (if ended then IsTerminal(history[n].rounds[id].status) else history[n].rounds[id].status == Locked)
  }

  ghost predicate Spoiled(history: seq<Store>, trace: seq<Step>, aim: Aim, id: string)
  {
    exists n :: R.Spoils(history, trace, n, aim, id)
  }
}
