/**
 * Reaching concrete states of the store: every state here comes with a run that ends in it. There
 * is the empty store, one more step from any state that was reached, a room with a player and an
 * open round, and a settle or refund call that has locked its round and read its stakes. The runs
 * in which a documented promise fails are put together from these.
 */
module Witness {
  import opened Base
  import opened Payout
  import opened Stakes
  import opened Events
  import opened Store
  import opened RedisStore

  ghost predicate Reachable(s: Store)
  {
    exists history, trace :: Traced(history, trace, s)
  }

  lemma EmptyIsReachable()
    ensures Reachable(EMPTY)
  {
    assert Traced([EMPTY], [], EMPTY);
  }

  lemma OneMore(s: Store, step: Step)
    requires Reachable(s) && Enabled(s, step)
    ensures Reachable(Next(s, step))
  {
    var history, trace :| Traced(history, trace, s);
    TraceStep(history, trace, s, step);
  }

  // ---------- a table ----------

  /** A room with one player, and a round with two outcomes. */
  function Table(room: string, host: string, user: string, round: string): Store
  {
    Store(map[room := Room(Some(host), map[user := 10], map[user := 10], map[user := 10], [10], map[], {})],
            map[round := NewRound(room, 2)], map[], {}, [], map[])
  }

  function OneToken(room: string, user: string, round: string, key: string): WagerRequest
  {
    WagerRequest(room, round, user, 0, 1, key)
  }

  lemma TableIsSet(room: string, host: string, user: string, round: string)
    requires room != "" && user != "" && round != ""
    ensures Reachable(Table(room, host, user, round))
  {
    var s1 := CreateRoom(EMPTY, room, host);
    var s2 := JoinRoom(s1, room, user, 10);
    EmptyIsReachable();
    OneMore(EMPTY, DoCreateRoom(room, host));
    OneMore(s1, DoJoin(room, user, 10));
    OneMore(s2, DoCreateRound(round, room, 2));
    var seat := Room(Some(host), map[user := 10], map[user := 10], map[user := 10], [10], map[], {});
    assert s1.rooms == map[room := NO_ROOM.(host := Some(host))];
    assert Seed(NO_ROOM.(host := Some(host)), user, 10) == seat by { assert NO_ROOM.grants + [10] == [10]; }
    assert s2.rooms == map[room := seat];
  }

  lemma TableTakes(room: string, host: string, user: string, round: string, key: string)
    requires host != user
    ensures Takes(Table(room, host, user, round), OneToken(room, user, round, key), false)
  {
  }

  // ---------- a call that has its stakes ----------

  /** The round is locked, and the only call is about it and at `at`. */
  function Asking(s: Store, round: string, aim: Aim, key: string, at: Progress): Store
    requires round in s.rounds
  {
    s.(rounds := s.rounds[round := s.rounds[round].(status := Locked)], calls := map[0 := Call(aim, round, key, at)])
  }

  /** Nobody has called yet, and the key is new. */
  ghost predicate CanCall(s: Store, round: string, key: string)
  {
    && Reachable(s) && s.calls == map[] && round in s.rounds && s.rounds[round].status == Open
    && key != "" && key !in s.idem && key !in s.forgotten && !EventKey(s, key)
  }

  lemma CanBegin(s: Store, round: string, aim: Aim, key: string)
    requires CanCall(s, round, key)
    ensures Reachable(Asking(s, round, aim, key, Started))
  {
    var s1 := LockRound(s, round).0;
    OneMore(s, DoLock(round));
    assert s1.calls == map[] && s1.outbox == s.outbox;
    OneMore(s1, DoBegin(0, aim, round, key));
    assert Next(s1, DoBegin(0, aim, round, key)) == Asking(s, round, aim, key, Started);
  }

  lemma ReadsLead(s: Store, step: Step, s': Store)
    requires Reachable(s) && Enabled(s, step) && s' == Next(s, step)
    ensures Reachable(s')
  {
    OneMore(s, step);
  }

  /** A call can lock its round, begin, and read the stakes. */
  lemma CanAsk(s: Store, round: string, aim: Aim, key: string, stakes: seq<Stake>)
    requires CanCall(s, round, key) && Lists(stakes, s.rounds[round].wagers)
    requires aim.SettleOn? ==> Settlements(Unbounded, stakes, aim.winner, s.rounds[round].outcomeCount).Ok?
    ensures Reachable(Asking(s, round, aim, key, HasStakes(s.rounds[round].room, stakes)))
  {
    var room, count := s.rounds[round].room, s.rounds[round].outcomeCount;
    CanBegin(s, round, aim, key);
    var begun, seen := Asking(s, round, aim, key, Started), Asking(s, round, aim, key, SawLocked(room, count));
    ReadsLead(begun, DoReadStatus(0), seen);
    ReadsLead(seen, DoReadStakes(0, stakes), Asking(s, round, aim, key, HasStakes(room, stakes)));
  }
}
